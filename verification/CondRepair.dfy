/** Runs of one thread at a time, and a run in which a repaired signal ends up in
    a group it was not taken from. */
module CondRepair {
  import opened CondMemory
  import opened CondProtocol
  import opened CondInvariant
  import opened CondSafety
  import opened CondAlone
  import opened CondCalls

  const PLAIN := Choice(CallSignal, false)

  function StepOf(s: State, t: int, c: Choice): State
    requires 0 <= t < |s.ths|
  {
    State(Act(s.sh, s.ths[t], c).sh, s.ths[t := Act(s.sh, s.ths[t], c).l])
  }

  /** k steps of thread t without any other thread. */
  function Alone(s: State, t: int, c: Choice, k: nat): State
    requires 0 <= t < |s.ths|
    decreases k
  {
    if k == 0 then s else Alone(StepOf(s, t, c), t, c, k - 1)
  }

  ghost predicate IsPath(path: seq<State>) {
    |path| > 0 && forall i :: 0 <= i < |path| - 1 ==> Next(path[i], path[i + 1])
  }

  ghost predicate Reaches(s: State, s': State) {
    exists path: seq<State> :: IsPath(path) && path[0] == s && path[|path| - 1] == s'
  }

  lemma ReachesStep(s: State, m: State, s': State)
    requires Reaches(s, m) && Next(m, s')
    ensures Reaches(s, s')
  {
    var path: seq<State> :| IsPath(path) && path[0] == s && path[|path| - 1] == m;
    var longer := path + [s'];
    forall i | 0 <= i < |longer| - 1 ensures Next(longer[i], longer[i + 1]) {
      if i < |path| - 1 {
        assert Next(path[i], path[i + 1]);
      }
    }
    assert IsPath(longer) && longer[0] == s && longer[|longer| - 1] == s';
  }

  lemma ReachesItself(s: State)
    ensures Reaches(s, s)
  {
    assert IsPath([s]) && [s][0] == s;
  }

  predicate Sleeping(l: Local) {
    (l.Waiter? && l.w.Asleep?) || (l.Signaler? && l.s.QAsleep?) || (l.Destroyer? && l.d.DAsleep?)
  }

  /** Nobody but t sleeps, so t's wake calls find nobody. */
  ghost predicate OthersAwake(s: State, t: int) {
    forall i :: 0 <= i < |s.ths| && i != t ==> !Sleeping(s.ths[i])
  }

  /** In its next k steps without any other thread, t's wake calls find nobody. */
  ghost predicate FindsNobody(s: State, t: int, c: Choice, k: nat)
    requires 0 <= t < |s.ths|
  {
    forall j: nat, i :: j < k && 0 <= i < |s.ths| && i != t && NextWake(ActN(s.sh, s.ths[t], c, j).l).Duty?
      ==> !SleepsOn(s.ths[i], NextWake(ActN(s.sh, s.ths[t], c, j).l).a)
  }

  lemma AwakeAreNotFound(s: State, t: int, c: Choice, k: nat)
    requires 0 <= t < |s.ths| && OthersAwake(s, t)
    ensures FindsNobody(s, t, c, k)
  {
  }

  lemma {:induction false} AloneReaches(s0: State, s: State, t: int, c: Choice, k: nat)
    requires 0 <= t < |s.ths| && FindsNobody(s, t, c, k) && Reaches(s0, s)
    ensures Reaches(s0, Alone(s, t, c, k))
    decreases k
  {
    if k > 0 {
      var s' := StepOf(s, t, c);
      assert ActN(s.sh, s.ths[t], c, 0).l == s.ths[t];
      if NextWake(s.ths[t]).Duty? {
        forall i | 0 <= i < |s.ths| ensures !SleepsOn(s.ths[i], NextWake(s.ths[t]).a) {
        }
      }
      assert Solo(s, t, c, s');
      ReachesStep(s0, s, s');
      forall j: nat | j < k - 1 ensures ActN(s'.sh, s'.ths[t], c, j) == ActN(s.sh, s.ths[t], c, j + 1) {
      }
      AloneReaches(s0, s', t, c, k - 1);
    }
  }

  /** Thread t makes k steps while nobody else does anything. */
  lemma RunsAlone(s: State, t: int, c: Choice, k: nat, o: Out)
    requires 0 <= t < |s.ths| && FindsNobody(s, t, c, k) && Reaches(START, s)
    requires ActN(s.sh, s.ths[t], c, k) == o
    ensures Reaches(START, State(o.sh, s.ths[t := o.l]))
  {
    AloneReaches(START, s, t, c, k);
    AloneIsActN(s, t, c, k);
  }

  lemma {:induction false} AloneIsActN(s: State, t: int, c: Choice, k: nat)
    requires 0 <= t < |s.ths|
    ensures var o := ActN(s.sh, s.ths[t], c, k);
            Alone(s, t, c, k) == State(o.sh, s.ths[t := o.l])
    decreases k
  {
    if k == 0 {
      assert s.ths[t := s.ths[t]] == s.ths;
    } else {
      var s' := StepOf(s, t, c);
      AloneIsActN(s', t, c, k - 1);
      assert s'.ths[t := ActN(s'.sh, s'.ths[t], c, k - 1).l] == s.ths[t := ActN(s'.sh, s'.ths[t], c, k - 1).l];
    }
  }

  predicate Quiet(sh: Shared) {
    && SharedInv(sh) && !sh.m.locked && sh.m.wcount >= 1
    && At(sh.m, G1(sh)).size == 0 && At(sh.m, G1(sh)).refs == 0 && sh.cut < sh.m.next
  }

  /** The state after a signal that had to switch the groups. */
  function Switched(sh: Shared): Shared {
    SwitchEnd(sh, Signal, Adv(sh))
  }

  // ---------- a repaired signal in the wrong group ----------

  lemma SignalReaches(s0: State, s: State, t: int)
    requires 0 <= t < |s.ths| && s.ths[t] == Idle && OthersAwake(s, t) && Reaches(s0, s) && Quiet(s.sh)
    ensures Reaches(s0, State(Switched(s.sh), s.ths))
  {
    var k := UninterruptedCall(s.sh, Signal);
    AwakeAreNotFound(s, t, PLAIN, k);
    AloneReaches(s0, s, t, PLAIN, k);
    AloneIsActN(s, t, PLAIN, k);
    assert s.ths[t := Idle] == s.ths;
  }

  const WAIT := Choice(CallWait, false)

  /** An open slot with n signals and nobody in it. */
  function Has(n: int): Slot {
    Slot(0, false, 0, n, false)
  }

  /** The state with the inner lock free and one waiter counted. */
  function Calm(next: int, start: int, bit: bool, n0: int, n1: int, orig: int, ths: seq<Local>): State {
    State(Shared(Mem(next, bit, start, bit, Has(n0), Has(n1), orig, false, 1, false),
                 start + orig, start + orig, 0, 0, 0, 0, Open), ths)
  }

  /** The waiter with sequence number 0 that looks at its slot only when the slot is G1 for the second time, and
      the signaler (thread 1) and the later waiters. */
  function Thief(w: WaiterPc): Local { Waiter(w, 0, false) }

  function Newcomers(l: Local, n: nat): seq<Local> {
    [l, Idle, if n >= 1 then Waiter(Registered, 1, true) else Idle,
     if n >= 2 then Waiter(Registered, 2, false) else Idle,
     if n >= 3 then Waiter(Registered, 3, true) else Idle]
  }

  const START := State(INITIAL_SHARED, [Idle, Idle, Idle, Idle, Idle])

  lemma StartIsInit()
    ensures Init(START)
  {
  }

  const SECOND := StartWord(2, true)

  lemma RegisterReaches(s: State, t: int, s': State)
    requires Reaches(START, s) && 0 <= t < |s.ths| && s.ths[t] == Idle
    requires s' == State(s.sh.(m := TakeSeq(s.sh.m)), s.ths[t := Waiter(Registered, s.sh.m.next, s.sh.m.g2)])
    ensures Reaches(START, s')
  {
    assert Solo(s, t, WAIT, s');
    ReachesStep(START, s, s');
  }

  /** In a calm state with one waiter after G1, a signal switches to the other slot, empties the old one and
      leaves its signal in the new one. */
  lemma CalmSignal(next: int, start: int, bit: bool, n0: int, n1: int, orig: int, ths: seq<Local>)
    requires next == start + orig + 1 && start >= 0 && orig >= 0 && n0 >= 0 && n1 >= 0
    requires orig >= 1 || (start == 0 && !bit)
    requires (bit ==> n1 == 0) && (!bit ==> n0 == 0)
    requires |ths| > 1 && ths[1] == Idle && OthersAwake(Calm(next, start, bit, n0, n1, orig, ths), 1)
    requires Reaches(START, Calm(next, start, bit, n0, n1, orig, ths))
    ensures Reaches(START, Calm(next, start + orig, !bit, if bit then 0 else 1, if bit then 1 else 0, 1, ths))
  {
    var s := Calm(next, start, bit, n0, n1, orig, ths);
    SignalReaches(START, s, 1);
    assert Switched(s.sh)
        == Calm(next, start + orig, !bit, if bit then 0 else 1, if bit then 1 else 0, 1, ths).sh;
  }

  lemma CalmRegister(next: int, start: int, bit: bool, n0: int, n1: int, orig: int, ths: seq<Local>, t: int)
    requires 0 <= t < |ths| && ths[t] == Idle
    requires Reaches(START, Calm(next, start, bit, n0, n1, orig, ths))
    ensures Reaches(START, Calm(next + 1, start, bit, n0, n1, orig, ths[t := Waiter(Registered, next, bit)]))
  {
    RegisterReaches(Calm(next, start, bit, n0, n1, orig, ths), t,
                    Calm(next + 1, start, bit, n0, n1, orig, ths[t := Waiter(Registered, next, bit)]));
  }

  lemma FirstWaiter()
    ensures Reaches(START, Calm(1, 0, false, 0, 0, 0, Newcomers(Thief(Load), 0)))
  {
    ReachesItself(START);
    var s1 := StepOf(START, 0, WAIT);
    assert Solo(START, 0, WAIT, s1);
    ReachesStep(START, START, s1);
    var s2 := StepOf(s1, 0, WAIT);
    assert Solo(s1, 0, WAIT, s2);
    ReachesStep(START, s1, s2);
    assert s2 == Calm(1, 0, false, 0, 0, 0, Newcomers(Thief(Load), 0));
  }

  lemma NewcomersRegister(l: Local, n: nat, t: int, next: int, g: bool)
    requires n <= 2 && t == n + 2 && next == n + 1 && (g <==> n != 1)
    ensures Newcomers(l, n)[t] == Idle
    ensures Newcomers(l, n)[t := Waiter(Registered, next, g)] == Newcomers(l, n + 1)
  {
  }

  /** The first waiter registers; three signals and two more waiters make its slot G1 again, with one
      signal in it. */
  lemma SlotIsReused()
    ensures Reaches(START, Calm(3, 2, true, 1, 0, 1, Newcomers(Thief(Load), 2)))
  {
    var l := Thief(Load);
    FirstWaiter();
    CalmSignal(1, 0, false, 0, 0, 0, Newcomers(l, 0));
    NewcomersRegister(l, 0, 2, 1, true);
    CalmRegister(1, 0, true, 1, 0, 1, Newcomers(l, 0), 2);
    CalmSignal(2, 0, true, 1, 0, 1, Newcomers(l, 1));
    NewcomersRegister(l, 1, 3, 2, false);
    CalmRegister(2, 1, false, 0, 1, 1, Newcomers(l, 1), 3);
    CalmSignal(3, 1, false, 0, 1, 1, Newcomers(l, 2));
  }

  lemma ThiefSteps(ths: seq<Local>, ths': seq<Local>)
    ensures ActN(Calm(3, 2, true, 1, 0, 1, ths).sh, Thief(Load), PLAIN, 5)
         == Out(Calm(3, 2, true, 0, 0, 1, ths').sh, Thief(RepairCas(SECOND, SECOND, 0, false)))
  {
    var sh := Calm(3, 2, true, 1, 0, 1, ths).sh;
    var o1 := Act(sh, Thief(Load), PLAIN);
    var o2 := Act(o1.sh, o1.l, PLAIN);
    assert o2 == Out(Calm(3, 2, true, 0, 0, 1, ths').sh, Thief(Consumed(SECOND)));
    var o3 := Act(o2.sh, o2.l, PLAIN);
    var o4 := Act(o3.sh, o3.l, PLAIN);
    assert Act(o4.sh, o4.l, PLAIN) == Out(o2.sh, Thief(RepairCas(SECOND, SECOND, 0, false)));
  }

  /** The first waiter takes that signal and gets as far as the exchange that is to put it back, having found
      g1_start unchanged. */
  lemma SignalIsStolen()
    ensures Reaches(START, Calm(3, 2, true, 0, 0, 1, Newcomers(Thief(RepairCas(SECOND, SECOND, 0, false)), 2)))
  {
    SlotIsReused();
    var s := Calm(3, 2, true, 1, 0, 1, Newcomers(Thief(Load), 2));
    var ths' := Newcomers(Thief(RepairCas(SECOND, SECOND, 0, false)), 2);
    AwakeAreNotFound(s, 0, PLAIN, 5);
    AloneReaches(START, s, 0, PLAIN, 5);
    AloneIsActN(s, 0, PLAIN, 5);
    ThiefSteps(s.ths, ths');
    assert s.ths[0 := ths'[0]] == ths';
  }

  /** One more waiter and signal turn the slot into G2 before the exchange. */
  lemma ExchangeComesLate()
    ensures Reaches(START, Calm(4, 3, false, 0, 1, 1, Newcomers(Thief(RepairCas(SECOND, SECOND, 0, false)), 3)))
  {
    SignalIsStolen();
    var l := Thief(RepairCas(SECOND, SECOND, 0, false));
    NewcomersRegister(l, 2, 4, 3, true);
    CalmRegister(3, 2, true, 0, 0, 1, Newcomers(l, 2), 4);
    CalmSignal(4, 2, true, 0, 0, 1, Newcomers(l, 3));
  }

  /** The exchange succeeds all the same: the signal stolen from a group that is closed by now lies in the slot of
      waiters nobody has signaled. */
  lemma RepairHitsG2() returns (s: State, s': State)
    ensures Reaches(START, s) && Solo(s, 0, PLAIN, s') && Reaches(START, s')
    ensures s.ths[0].Waiter? && s.ths[0].w.RepairCas? && s.sh.phase == s'.sh.phase == Open
    ensures At(s.sh.m, s.sh.m.g2).signals == 0 && At(s'.sh.m, s'.sh.m.g2).signals == 1 && s'.sh.m.g2 == s.sh.m.g2
    ensures s'.sh.total == s'.sh.cut && s' == Calm(4, 3, false, 1, 1, 1, Newcomers(Thief(RepairWake), 3))
  {
    ExchangeComesLate();
    s := Calm(4, 3, false, 0, 1, 1, Newcomers(Thief(RepairCas(SECOND, SECOND, 0, false)), 3));
    s' := StepOf(s, 0, PLAIN);
    assert Solo(s, 0, PLAIN, s');
    ReachesStep(START, s, s');
    assert s'.ths == Newcomers(Thief(RepairWake), 3);
  }

  /** Just when: an exchange that puts a signal back gives it to the G1 it was taken from if and only if g1_start
      still is what it was when the signal was taken; and it puts it into the slot of G2 if and only if
      g1_start has changed its index since the thief read it. */
  lemma RepairGoesBackExactly(s: State, t: int, c: Choice)
    requires Inv(s) && 0 <= t < |s.ths| && s.ths[t].Waiter? && s.ths[t].w.RepairCas?
    requires Act(s.sh, s.ths[t], c).sh != s.sh
    ensures var sh, sh', w := s.sh, Act(s.sh, s.ths[t], c).sh, s.ths[t].w;
            && ((At(sh'.m, G1(sh)).signals == At(sh.m, G1(sh)).signals + 1 && sh'.extra == sh.extra)
                <==> Current(sh) == w.ep)
            && (At(sh'.m, !G1(sh)).signals == At(sh.m, !G1(sh)).signals + 1 <==> sh.m.bit != w.w.bit)
  {
    assert LocalInv(s.sh, s.ths[t]);
  }
}
