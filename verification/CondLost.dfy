/** A run in which a signal reaches nobody: a signal given back too late is taken by a waiter of G2; when that
    group is G1 it has one more signal to be posted than members, and the signal that posts it
    leaves the only blocked waiter, who is in the other group, asleep. */
module CondLost {
  import opened CondMemory
  import opened CondProtocol
  import opened CondInvariant
  import opened CondAlone
  import opened CondCalls
  import opened CondWaits
  import opened CondRepair

  // ---------- where a wait ends ----------

  /** A waiter of G1 or G2 that finds a signal takes it and leaves, from its registration or its load. */
  lemma TakeEnd(sh: Shared, pos: int, g: bool)
    requires !At(sh.m, g).closed && At(sh.m, g).signals > 0 && sh.m.start <= pos
    ensures WaitEnd(sh, Load, pos, g) == Out(Took(sh, pos, g).(m := AddWaiters(Took(sh, pos, g).m, -1)), Idle)
    ensures WaitEnd(sh, Registered, pos, g) == Out(Took(sh, pos, g), Idle)
  {
  }

  /** A waiter of a closed group that finds none leaves all words as they were. */
  lemma PassEnd(sh: Shared, pos: int, g: bool)
    requires At(sh.m, g) == Has(0) && pos < sh.m.start
    ensures WaitEnd(sh, Registered, pos, g) == Out(sh, Idle)
  {
  }

  /** A waiter of G1 or G2 that finds none blocks with a reference. */
  lemma BlockEnd(sh: Shared, pos: int, g: bool)
    requires At(sh.m, g) == Has(0) && sh.m.start <= pos
    ensures WaitEnd(sh, Registered, pos, g)
         == Out(sh.(m := AddRefs(AddWaiters(sh.m, 1), g, 1)), Waiter(Asleep, pos, g))
  {
  }

  // ---------- the run ----------

  /** The state with the inner lock free and nobody destroying. */
  function Words(next: int, start: int, bit: bool, s0: Slot, s1: Slot, orig: int, waiters: int, total: int,
                 taken: int, stray: int, early: int): Shared {
    Shared(Mem(next, bit, start, bit, s0, s1, orig, false, waiters, false),
           start + orig, total, taken, 0, stray, early, Open)
  }

  function Late(pos: int, g: bool): Local { Waiter(Registered, pos, g) }

  /** The way on from the late repair. Threads 2 to 4 are the waiters that registered meanwhile, thread 1 signals, and
      thread 0, done with its first wait, waits three times more. */
  function Lost(i: nat): State {
    var h, l2, l3, l4 := Has(0), Late(1, true), Late(2, false), Late(3, true);
    match i
    case 0 => State(Words(4, 3, false, Has(1), Has(1), 1, 1, 4, 0, 0, 0), [Thief(RepairWake), Idle, l2, l3, l4])
    case 1 => State(Words(4, 3, false, Has(1), Has(1), 1, 0, 4, 0, 0, 0), [Idle, Idle, l2, l3, l4])
    case 2 => State(Words(4, 3, false, Has(1), h, 1, 0, 4, 1, 0, 0), [Idle, Idle, l2, l3, Idle])
    case 3 => State(Words(4, 3, false, Has(1), h, 1, 0, 4, 1, 0, 0), [Idle, Idle, Idle, l3, Idle])
    case 4 => State(Words(5, 3, false, h, h, 1, 0, 4, 1, 0, 1), [Idle, Idle, Idle, l3, Idle])
    case 5 => State(Words(5, 3, false, h, h, 1, 0, 4, 1, 0, 1), [Idle, Idle, Idle, Idle, Idle])
    case 6 => State(Words(6, 3, false, h, h, 1, 1, 4, 1, 0, 1), [Waiter(Load, 5, false), Idle, Idle, Idle, Idle])
    case 7 => State(Words(6, 4, true, Slot(0, false, 1, 1, false), h, 2, 1, 5, 0, 1, 0),
                    [Waiter(Load, 5, false), Idle, Idle, Idle, Idle])
    case 8 => State(Words(6, 4, true, Slot(0, false, 1, 0, false), h, 2, 0, 5, 1, 1, 0),
                    [Idle, Idle, Idle, Idle, Idle])
    case 9 => State(Words(7, 4, true, Slot(0, false, 1, 0, false), Slot(1, false, 0, 0, false), 2, 1, 5, 1, 1, 0),
                    [Waiter(Asleep, 6, true), Idle, Idle, Idle, Idle])
    case _ => State(Words(7, 4, true, Slot(0, false, 0, 1, false), Slot(1, false, 0, 0, false), 2, 1, 6, 1, 1, 0),
                    [Waiter(Asleep, 6, true), Idle, Idle, Idle, Idle])
  }

  /** Thread t, a waiter, goes on to the end of its wait while nobody else does anything. */
  lemma WaitsAlone(s: State, t: int, w: WaiterPc, pos: int, g: bool)
    requires Reaches(START, s) && 0 <= t < |s.ths| && s.ths[t] == Waiter(w, pos, g) && Seen(w) && OthersAwake(s, t)
    ensures var o := WaitEnd(s.sh, w, pos, g);
            Reaches(START, State(o.sh, s.ths[t := o.l]))
  {
    var k := WaitEnds(s.sh, w, pos, g, PLAIN);
    AwakeAreNotFound(s, t, PLAIN, k);
    RunsAlone(s, t, PLAIN, k, WaitEnd(s.sh, w, pos, g));
  }

  ghost predicate CanTake(s: State, t: int, pos: int, s': State) {
    && 0 <= t < |s.ths| && s.ths[t] == Late(pos, true) && OthersAwake(s, t)
    && !s.sh.m.bit && !s.sh.m.s1.closed && s.sh.m.s1.signals > 0 && s.sh.m.start <= pos
    && s'.sh == s.sh.(m := s.sh.m.(s1 := s.sh.m.s1.(signals := s.sh.m.s1.signals - 1)), taken := s.sh.taken + 1)
    && s'.ths == s.ths[t := Idle]
  }

  /** A member finds a signal, takes it and leaves. */
  lemma TakesAlone(s: State, t: int, pos: int, s': State)
    requires Reaches(START, s) && CanTake(s, t, pos, s')
    ensures Reaches(START, s')
  {
    WaitsAlone(s, t, Registered, pos, true);
    TakeEnd(s.sh, pos, true);
    assert s' == State(Took(s.sh, pos, true), s.ths[t := Idle]);
  }

  ghost predicate CanPass(s: State, t: int, pos: int, g: bool, s': State) {
    && 0 <= t < |s.ths| && s.ths[t] == Late(pos, g) && OthersAwake(s, t)
    && (if g then s.sh.m.s1 else s.sh.m.s0) == Has(0) && pos < s.sh.m.start
    && s'.sh == s.sh && s'.ths == s.ths[t := Idle]
  }

  /** A waiter of a closed group finds none and leaves. */
  lemma PassesAlone(s: State, t: int, pos: int, g: bool, s': State)
    requires Reaches(START, s) && CanPass(s, t, pos, g, s')
    ensures Reaches(START, s')
  {
    WaitsAlone(s, t, Registered, pos, g);
    PassEnd(s.sh, pos, g);
    assert s' == State(s.sh, s.ths[t := Idle]);
  }

  /** The state when thread 0 has called wait. */
  function Registering(s: State): State
    requires |s.ths| > 0
  {
    State(s.sh.(m := TakeSeq(s.sh.m)), s.ths[0 := Late(s.sh.m.next, s.sh.m.g2)])
  }

  lemma CallsWait(s: State)
    requires Reaches(START, s) && |s.ths| > 0 && s.ths[0] == Idle && OthersAwake(s, 0)
    ensures Reaches(START, Registering(s)) && OthersAwake(Registering(s), 0)
  {
    RegisterReaches(s, 0, Registering(s));
  }

  ghost predicate CanCallAndTake(s: State, s': State) {
    && |s.ths| > 0 && s.ths[0] == Idle && OthersAwake(s, 0)
    && !s.sh.m.g2 && !s.sh.m.bit && !s.sh.m.s0.closed && s.sh.m.s0.signals > 0 && s.sh.m.start <= s.sh.m.next
    && s'.sh == s.sh.(m := s.sh.m.(next := s.sh.m.next + 1, s0 := s.sh.m.s0.(signals := s.sh.m.s0.signals - 1)),
                      early := s.sh.early + 1)
    && s'.ths == s.ths
  }

  /** Thread 0 calls wait, finds a signal in the slot of G2, takes it and leaves. */
  lemma CallTakes(s: State, s': State)
    requires Reaches(START, s) && CanCallAndTake(s, s')
    ensures Reaches(START, s')
  {
    var r := Registering(s);
    CallsWait(s);
    WaitsAlone(r, 0, Registered, s.sh.m.next, false);
    TakeEnd(r.sh, s.sh.m.next, false);
    assert r.ths[0 := Idle] == s'.ths && Took(r.sh, s.sh.m.next, false) == s'.sh;
    assert s' == State(s'.sh, s'.ths);
  }

  ghost predicate CanCallAndBlock(s: State, s': State) {
    && |s.ths| > 0 && s.ths[0] == Idle && OthersAwake(s, 0)
    && s.sh.m.g2 && s.sh.m.s1 == Has(0) && s.sh.m.start <= s.sh.m.next
    && s'.sh == s.sh.(m := s.sh.m.(next := s.sh.m.next + 1, wcount := s.sh.m.wcount + 1,
                                   s1 := Slot(1, false, 0, 0, false)))
    && s'.ths == s.ths[0 := Waiter(Asleep, s.sh.m.next, true)]
  }

  /** Thread 0 calls wait, finds no signal and blocks. */
  lemma CallBlocks(s: State, s': State)
    requires Reaches(START, s) && CanCallAndBlock(s, s')
    ensures Reaches(START, s')
  {
    var r := Registering(s);
    CallsWait(s);
    WaitsAlone(r, 0, Registered, s.sh.m.next, true);
    BlockEnd(r.sh, s.sh.m.next, true);
    assert r.ths[0 := Waiter(Asleep, s.sh.m.next, true)] == s'.ths;
    assert s' == State(s'.sh, s'.ths);
  }

  ghost predicate CanCallAndLoad(s: State, s': State) {
    && |s.ths| > 0 && s.ths[0] == Idle && OthersAwake(s, 0)
    && s'.sh == s.sh.(m := s.sh.m.(next := s.sh.m.next + 1, wcount := s.sh.m.wcount + 1))
    && s'.ths == s.ths[0 := Waiter(Load, s.sh.m.next, s.sh.m.g2)]
  }

  /** Thread 0 calls wait and gets to its load. */
  lemma CallLoads(s: State, s': State)
    requires Reaches(START, s) && CanCallAndLoad(s, s')
    ensures Reaches(START, s')
  {
    var r := Registering(s);
    CallsWait(s);
    assert s'.ths == r.ths[0 := Waiter(Load, s.sh.m.next, s.sh.m.g2)];
    assert Solo(r, 0, PLAIN, s');
    ReachesStep(START, r, s');
  }

  /** Two waiters registered in G2, the stray signal gone: the switch counts both, and posts to one. */
  lemma SwitchCountsBoth(next: int, start: int, orig: int, taken: nat, early: nat)
    requires start >= 0 && orig >= 1 && next == start + orig + 2
    ensures var sh := Words(next, start, false, Has(0), Has(0), orig, 1, start + orig, taken, 0, early);
            && Quiet(sh)
            && Switched(sh) == Words(next, start + orig, true, Slot(0, false, 1, 1, false), Has(0), 2, 1,
                                     start + orig + 1, 0, early, 0)
  {
  }

  ghost predicate CanSwitch(next: int, start: int, orig: int, taken: nat, early: nat, s: State, s': State) {
    && start >= 0 && orig >= 1 && next == start + orig + 2 && |s.ths| > 1 && s.ths[1] == Idle && OthersAwake(s, 1)
    && s.sh == Words(next, start, false, Has(0), Has(0), orig, 1, start + orig, taken, 0, early)
    && s'.sh == Words(next, start + orig, true, Slot(0, false, 1, 1, false), Has(0), 2, 1, start + orig + 1, 0, early,
                      0)
    && s'.ths == s.ths
  }

  /** Thread 1 makes a whole call of signal that switches the groups. */
  lemma CallSwitches(next: int, start: int, orig: int, taken: nat, early: nat, s: State, s': State)
    requires Reaches(START, s) && CanSwitch(next, start, orig, taken, early, s, s')
    ensures Reaches(START, s')
  {
    SwitchCountsBoth(next, start, orig, taken, early);
    SignalReaches(START, s, 1);
    assert s' == State(Switched(s.sh), s.ths);
  }

  ghost predicate CanTakeAtLoad(s: State, t: int, pos: int, s': State) {
    && 0 <= t < |s.ths| && s.ths[t] == Waiter(Load, pos, false) && OthersAwake(s, t)
    && s.sh.m.bit && !s.sh.m.s0.closed && s.sh.m.s0.signals > 0 && s.sh.m.start <= pos
    && s'.sh == s.sh.(m := s.sh.m.(s0 := s.sh.m.s0.(signals := s.sh.m.s0.signals - 1), wcount := s.sh.m.wcount - 1),
                      taken := s.sh.taken + 1)
    && s'.ths == s.ths[t := Idle]
  }

  /** A member at its load finds a signal, takes it and leaves. */
  lemma LoaderTakes(s: State, t: int, pos: int, s': State)
    requires Reaches(START, s) && CanTakeAtLoad(s, t, pos, s')
    ensures Reaches(START, s')
  {
    WaitsAlone(s, t, Load, pos, false);
    TakeEnd(s.sh, pos, false);
    assert s'.sh == Took(s.sh, pos, false).(m := AddWaiters(Took(s.sh, pos, false).m, -1));
    assert s' == State(s'.sh, s.ths[t := Idle]);
  }

  lemma ThiefIsThere()
    ensures |Lost(0).ths| == 5 && Lost(0).ths[0] == Waiter(RepairWake, 0, false) && OthersAwake(Lost(0), 0)
    ensures var o := WaitEnd(Lost(0).sh, RepairWake, 0, false);
            State(o.sh, Lost(0).ths[0 := o.l]) == Lost(1)
    ensures Lost(0) == Calm(4, 3, false, 1, 1, 1, Newcomers(Thief(RepairWake), 3))
  {
  }

  lemma MembersAreThere()
    ensures CanTake(Lost(1), 4, 3, Lost(2)) && CanPass(Lost(2), 2, 1, true, Lost(3))
  {
  }

  lemma StrayIsThere()
    ensures CanCallAndTake(Lost(3), Lost(4))
  {
  }

  lemma LastOldIsThere()
    ensures CanPass(Lost(4), 3, 2, false, Lost(5))
  {
  }

  lemma NextIsThere()
    ensures CanCallAndLoad(Lost(5), Lost(6))
  {
  }

  lemma SwitchIsThere()
    ensures CanSwitch(6, 3, 1, 1, 1, Lost(6), Lost(7))
  {
  }

  lemma LastMemberIsThere()
    ensures CanTakeAtLoad(Lost(7), 0, 5, Lost(8))
  {
  }

  lemma LastWaiterIsThere()
    ensures CanCallAndBlock(Lost(8), Lost(9))
  {
  }

  /** The thief leaves; the member of G1 takes the signal posted to it; the oldest waiter leaves; a new waiter takes
      the stray signal from G2; the last old waiter leaves. */
  lemma OldOnesLeave()
    ensures Reaches(START, Lost(5))
  {
    ThiefIsThere();
    var s, s' := RepairHitsG2();
    WaitsAlone(Lost(0), 0, RepairWake, 0, false);
    MembersAreThere();
    TakesAlone(Lost(1), 4, 3, Lost(2));
    PassesAlone(Lost(2), 2, 1, true, Lost(3));
    StrayIsThere();
    CallTakes(Lost(3), Lost(4));
    LastOldIsThere();
    PassesAlone(Lost(4), 3, 2, false, Lost(5));
  }

  lemma MemberIsLate()
    requires Reaches(START, Lost(5))
    ensures Reaches(START, Lost(7))
  {
    NextIsThere();
    CallLoads(Lost(5), Lost(6));
    SwitchIsThere();
    CallSwitches(6, 3, 1, 1, 1, Lost(6), Lost(7));
  }

  /** Another waiter registers; a signal makes G2 the new G1, which now has two members by its size but only one that
      waits; that one takes the signal; and a waiter blocks in G2. */
  lemma LastWaiterBlocks()
    ensures Reaches(START, Lost(9))
  {
    OldOnesLeave();
    MemberIsLate();
    LastMemberIsThere();
    LoaderTakes(Lost(7), 0, 5, Lost(8));
    LastWaiterIsThere();
    CallBlocks(Lost(8), Lost(9));
  }

  /** The steps of a signal that posts wake only on the slot of G1. */
  lemma PostWakesG1(sh: Shared, j: nat)
    requires SharedInv(sh) && !sh.m.locked && sh.m.wcount >= 1 && At(sh.m, G1(sh)).size > 0 && j < 7
    ensures var d := NextWake(ActN(sh, Idle, PLAIN, j).l);
            d.Duty? ==> d.a == Signals(G1(sh))
  {
    var o1 := Act(sh, Idle, PLAIN);
    var o2 := Act(o1.sh, o1.l, PLAIN);
    var o3 := Act(o2.sh, o2.l, PLAIN);
    var o4 := Act(o3.sh, o3.l, PLAIN);
    var o5 := Act(o4.sh, o4.l, PLAIN);
    var o6 := Act(o5.sh, o5.l, PLAIN);
    assert o6.l == Waking(G1(sh), false);
    assert ActN(sh, Idle, PLAIN, 0).l == Idle && ActN(sh, Idle, PLAIN, 1) == o1 && ActN(sh, Idle, PLAIN, 2) == o2;
    assert ActN(sh, Idle, PLAIN, 3) == o3 && ActN(sh, Idle, PLAIN, 4) == o4 && ActN(sh, Idle, PLAIN, 5) == o5;
    assert ActN(sh, Idle, PLAIN, 6) == o6;
  }

  lemma CallEnds(s: State, s': State, k: nat)
    requires Reaches(START, s) && |s.ths| > 1 && s.ths[1] == Idle && s'.ths == s.ths && FindsNobody(s, 1, PLAIN, k)
    requires ActN(s.sh, Idle, PLAIN, k) == Out(s'.sh, Idle)
    ensures s' == Alone(s, 1, PLAIN, k) && Reaches(START, s')
  {
    AloneReaches(START, s, 1, PLAIN, k);
    AloneIsActN(s, 1, PLAIN, k);
    assert s.ths[1 := Idle] == s.ths;
  }

  /** A signal reaches nobody: with one waiter blocked and all other threads idle, a whole call of signal that
      nobody disturbs posts a signal, and the waiter is still asleep. */
  lemma SignalReachesNobody() returns (s: State, s': State)
    ensures Reaches(START, s) && s.ths == [Waiter(Asleep, 6, true), Idle, Idle, Idle, Idle]
    ensures s' == Alone(s, 1, PLAIN, 7) && Reaches(START, s')
    ensures s'.ths == s.ths && s'.sh.total == s.sh.total + 1 && !s'.sh.m.locked
  {
    LastWaiterBlocks();
    s, s' := Lost(9), Lost(10);
    var k := LastSignal();
    CallEnds(s, s', k);
  }

  lemma LastSignal() returns (k: nat)
    ensures k == 7 && ActN(Lost(9).sh, Idle, PLAIN, k) == Out(Lost(10).sh, Idle)
    ensures FindsNobody(Lost(9), 1, PLAIN, k)
  {
    k := LastCall();
    forall j: nat | j < k
      ensures var d := NextWake(ActN(Lost(9).sh, Idle, PLAIN, j).l); d.Duty? ==> d.a == Signals(false)
    {
      PostWakesG1(Lost(9).sh, j);
    }
  }

  lemma LastCall() returns (k: nat)
    ensures k == 7 && ActN(Lost(9).sh, Idle, PLAIN, k) == Out(Lost(10).sh, Idle)
  {
    k := UninterruptedCall(Lost(9).sh, Signal);
    assert Posted(Lost(9).sh, false, 1) == Lost(10).sh;
  }
}
