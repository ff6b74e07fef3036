/** Every step keeps all invariants, so every state of every run has them. */
module CondSafety {
  import opened CondMemory
  import opened CondProtocol
  import opened CondInvariant
  import opened CondTally
  import opened Tally
  import opened Numbers

  ghost predicate LocalsInv(s: State) {
    forall i :: 0 <= i < |s.ths| ==> LocalInv(s.sh, s.ths[i])
  }

  /** The counting invariants of given counts: of slot G1, of the other slot, and global. */
  predicate CountsHold(sh: Shared, a: SlotCount, b: SlotCount, n: GlobalCount) {
    SlotInv(At(sh.m, G1(sh)), a) && SlotInv(At(sh.m, !G1(sh)), b) && GlobalInv(sh, a, b, n)
  }

  ghost predicate CountsInv(s: State) {
    var cur := Current(s.sh);
    CountsHold(s.sh, SlotTotal(cur, G1(s.sh), s.ths), SlotTotal(cur, !G1(s.sh), s.ths), GlobalTotal(cur, s.ths))
  }

  ghost predicate Inv(s: State) {
    SharedInv(s.sh) && LocalsInv(s) && CountsInv(s)
  }

  // ---------- from counts to threads and back ----------

  lemma Covers(cur: StartWord, ths: seq<Local>, t: int)
    requires 0 <= t < |ths|
    ensures forall x :: SlotCovers(SlotTotal(cur, x, ths), SlotWeight(cur, x, ths[t]))
    ensures GlobalCovers(GlobalTotal(cur, ths), GlobalWeight(cur, ths[t]))
  {
    forall x ensures SlotCovers(SlotTotal(cur, x, ths), SlotWeight(cur, x, ths[t])) {
      SumAtLeast(RefsW(x), ths, t);
      SumAtLeast(SleepW(x), ths, t);
      SumAtLeast(AwakeW(cur, x), ths, t);
      SumAtLeast(PendW(x), ths, t);
      SumAtLeast(PendAllW(x), ths, t);
      SumAtLeast(QSleepW(x), ths, t);
      SumAtLeast(InDecW(x), ths, t);
    }
    SumAtLeast(LockW(), ths, t);
    SumAtLeast(CountedW(), ths, t);
    SumAtLeast(ThiefW(cur), ths, t);
    SumAtLeast(DSleepW(), ths, t);
    SumAtLeast(DPendW(), ths, t);
  }

  /** The inner lock has at most one holder. */
  lemma OneHolder(s: State, t: int, u: int)
    requires Inv(s) && 0 <= t < |s.ths| && 0 <= u < |s.ths| && t != u
    ensures !(HoldsLock(s.ths[t]) && HoldsLock(s.ths[u]))
  {
    SumOfTwo(LockW(), s.ths, t, u);
  }

  lemma NoRefsNoHolder(s: State, u: int)
    requires Inv(s) && 0 <= u < |s.ths| && At(s.sh.m, G1(s.sh)).refs == 0
    ensures !HoldsRef(s.ths[u], G1(s.sh))
  {
    SumAtLeast(RefsW(G1(s.sh)), s.ths, u);
  }

  lemma NobodyIsCounted(s: State, t: int, x: bool)
    requires 0 <= t < |s.ths| && (NextWake(s.ths[t]).Duty? ==> NobodyOn(s, NextWake(s.ths[t]).a))
    ensures NobodyCounted(NextWake(s.ths[t]), x, SlotTotal(Current(s.sh), x, s.ths))
    ensures NextWake(s.ths[t]) == Duty(WRefs, true) ==> GlobalTotal(Current(s.sh), s.ths).dsleep == 0
  {
    var d := NextWake(s.ths[t]);
    if d.Duty? {
      assert forall i :: 0 <= i < |s.ths| ==> !SleepsOn(s.ths[i], d.a);
      match d.a
      case Signals(g) => SumZero(SleepW(g), s.ths);
      case GRefs(g) => SumZero(QSleepW(g), s.ths);
      case WRefs => SumZero(DSleepW(), s.ths);
    }
  }

  /** Nobody sleeps on the slot that has been drained. */
  lemma ShutIsEmpty(s: State, x: bool)
    requires LocalsInv(s) && Shut(s.sh, x)
    ensures SlotTotal(Current(s.sh), x, s.ths).sleep == 0
  {
    forall i | 0 <= i < |s.ths| ensures SleepW(x)(s.ths[i]) == 0 {
      assert LocalInv(s.sh, s.ths[i]);
    }
    SumZero(SleepW(x), s.ths);
  }

  // ---------- a thread on its own ----------

  lemma LocalsStep(s: State, t: int, c: Choice, s': State)
    requires Inv(s) && Solo(s, t, c, s')
    ensures SharedInv(s'.sh) && LocalsInv(s')
  {
    var l := s.ths[t];
    SharedStep(s.sh, l, c);
    SelfStep(s.sh, l, c);
    forall i | 0 <= i < |s'.ths| ensures LocalInv(s'.sh, s'.ths[i]) {
      if i != t {
        OneHolder(s, t, i);
        if At(s.sh.m, G1(s.sh)).refs == 0 {
          NoRefsNoHolder(s, i);
        }
        OtherStep(s.sh, l, c, s.ths[i]);
      }
    }
  }

  predicate Advancing(l: Local) {
    l.Signaler? && l.s.Advance?
  }

  lemma OnlyAdvanceMovesStart(sh: Shared, l: Local, c: Choice)
    requires !Advancing(l)
    ensures Current(Act(sh, l, c).sh) == Current(sh)
  {
    if l.Waiter? {
      WaiterStepAlike(sh, l.w, l.pos, l.g, c);
    } else if l.Signaler? {
      SignalerStepKeeps(sh, l.s, l.op, l.rd, l.g, c);
    }
  }

  lemma SignalerStepKeeps(sh: Shared, s: SignalerPc, op: Op, rd: int, g: bool, c: Choice)
    requires !s.Advance?
    ensures var o := ActSignaler(sh, s, op, rd, g, c);
            && Current(o.sh) == Current(sh)
            && forall x :: At(o.sh.m, x).closed && !s.CloseG1? ==> At(sh.m, x).closed
  {
  }

  /** The counts when thread t goes on at l. */
  lemma TotalsMove(cur: StartWord, ths: seq<Local>, t: int, l: Local)
    requires 0 <= t < |ths|
    ensures forall x :: SlotTotal(cur, x, ths[t := l])
                     == SlotMove(SlotTotal(cur, x, ths), SlotWeight(cur, x, ths[t]), SlotWeight(cur, x, l))
    ensures GlobalTotal(cur, ths[t := l])
         == GlobalMove(GlobalTotal(cur, ths), GlobalWeight(cur, ths[t]), GlobalWeight(cur, l))
  {
    forall x ensures SlotTotal(cur, x, ths[t := l])
                  == SlotMove(SlotTotal(cur, x, ths), SlotWeight(cur, x, ths[t]), SlotWeight(cur, x, l))
    {
      SlotUpdate(cur, x, ths, t, l);
    }
    GlobalUpdate(cur, ths, t, l);
  }

  lemma CountsStep(s: State, t: int, c: Choice, s': State)
    requires Inv(s) && Solo(s, t, c, s') && !Advancing(s.ths[t])
    ensures CountsInv(s')
  {
    var sh, l := s.sh, s.ths[t];
    var cur, a := Current(sh), G1(sh);
    assert LocalInv(sh, l);
    Covers(cur, s.ths, t);
    NobodyIsCounted(s, t, a);
    NobodyIsCounted(s, t, !a);
    if l.Signaler? && l.s.ReopenSlot? {
      ShutIsEmpty(s, l.g);
    }
    CountsHoldOn(sh, l, c, SlotTotal(cur, a, s.ths), SlotTotal(cur, !a, s.ths), GlobalTotal(cur, s.ths));
    TotalsMove(cur, s.ths, t, Act(sh, l, c).l);
    OnlyAdvanceMovesStart(sh, l, c);
  }

  lemma CountsHoldOn(sh: Shared, l: Local, c: Choice, a: SlotCount, b: SlotCount, n: GlobalCount)
    requires SharedInv(sh) && LocalInv(sh, l) && CountsHold(sh, a, b, n) && !Advancing(l)
    requires SlotCovers(a, SlotWeight(Current(sh), G1(sh), l)) && SlotCovers(b, SlotWeight(Current(sh), !G1(sh), l))
    requires GlobalCovers(n, GlobalWeight(Current(sh), l))
    requires NobodyCounted(NextWake(l), G1(sh), a) && NobodyCounted(NextWake(l), !G1(sh), b)
    requires NextWake(l) == Duty(WRefs, true) ==> n.dsleep == 0
    requires l.Signaler? && l.s.ReopenSlot? ==> (if l.g == G1(sh) then a else b).sleep == 0
    ensures var o := Act(sh, l, c);
            var cur := Current(sh);
            CountsHold(o.sh, SlotMove(a, SlotWeight(cur, G1(sh), l), SlotWeight(cur, G1(sh), o.l)),
                       SlotMove(b, SlotWeight(cur, !G1(sh), l), SlotWeight(cur, !G1(sh), o.l)),
                       GlobalMove(n, GlobalWeight(cur, l), GlobalWeight(cur, o.l)))
  {
    OnlyAdvanceMovesStart(sh, l, c);
    SlotStep(sh, l, c, G1(sh), a);
    SlotStep(sh, l, c, !G1(sh), b);
    GlobalStep(sh, l, c, a, b, n);
  }

  lemma GlobalStep(sh: Shared, l: Local, c: Choice, a: SlotCount, b: SlotCount, n: GlobalCount)
    requires SharedInv(sh) && LocalInv(sh, l)
    requires SlotInv(At(sh.m, G1(sh)), a) && GlobalInv(sh, a, b, n)
    requires SlotCovers(a, SlotWeight(Current(sh), G1(sh), l)) && GlobalCovers(n, GlobalWeight(Current(sh), l))
    requires !Advancing(l)
    requires NobodyCounted(NextWake(l), G1(sh), a)
    requires NextWake(l) == Duty(WRefs, true) ==> n.dsleep == 0
    ensures var o := Act(sh, l, c);
            var cur := Current(sh);
            GlobalInv(o.sh, SlotMove(a, SlotWeight(cur, G1(sh), l), SlotWeight(cur, G1(sh), o.l)),
                      SlotMove(b, SlotWeight(cur, !G1(sh), l), SlotWeight(cur, !G1(sh), o.l)),
                      GlobalMove(n, GlobalWeight(cur, l), GlobalWeight(cur, o.l)))
  {
    CountersStep(sh, l, c, n);
    MembersStep(sh, l, c, a, b);
    ConservedStep(sh, l, c, n);
    DrainStep(sh, l, c, a, b, n);
  }

  /** The drain bound is established when G1 is closed and kept until it is advanced. */
  lemma DrainStep(sh: Shared, l: Local, c: Choice, a: SlotCount, b: SlotCount, n: GlobalCount)
    requires SharedInv(sh) && LocalInv(sh, l)
    requires SlotInv(At(sh.m, G1(sh)), a) && GlobalInv(sh, a, b, n)
    requires SlotCovers(a, SlotWeight(Current(sh), G1(sh), l)) && GlobalCovers(n, GlobalWeight(Current(sh), l))
    requires !Advancing(l)
    requires NobodyCounted(NextWake(l), G1(sh), a)
    ensures var o := Act(sh, l, c);
            var cur := Current(sh);
            Draining(o.sh, SlotMove(a, SlotWeight(cur, G1(sh), l), SlotWeight(cur, G1(sh), o.l)),
                     GlobalMove(n, GlobalWeight(cur, l), GlobalWeight(cur, o.l)))
  {
    if At(sh.m, G1(sh)).closed {
      DrainingStep(sh, l, c, a, n);
    } else if l.Signaler? && l.s.CloseG1? {
      DrainingStarts(sh, l, c, a, b, n);
    } else {
      OpenStaysOpen(sh, l, c);
    }
  }

  /** Only the close step sets the closed flag of G1. */
  lemma OpenStaysOpen(sh: Shared, l: Local, c: Choice)
    requires !At(sh.m, G1(sh)).closed && !Advancing(l) && !(l.Signaler? && l.s.CloseG1?)
    ensures !At(Act(sh, l, c).sh.m, G1(Act(sh, l, c).sh)).closed
  {
    if l.Waiter? {
      WaiterStepAlike(sh, l.w, l.pos, l.g, c);
    } else if l.Signaler? {
      SignalerStepKeeps(sh, l.s, l.op, l.rd, l.g, c);
    }
  }

  // ---------- the advance of g1_start ----------

  /** g1_start, read as a number, grows with every group switch. */
  lemma RankGrows(sh: Shared, l: Local, c: Choice)
    requires SharedInv(sh) && LocalInv(sh, l) && Advancing(l)
    ensures Rank(Current(Act(sh, l, c).sh)) > Rank(Current(sh))
  {
  }

  /** The new G1 inherits the members of the old G2, and the closed group has none left. */
  lemma AdvanceMembers(s: State, t: int, c: Choice, s': State)
    requires Inv(s) && Solo(s, t, c, s') && Advancing(s.ths[t])
    ensures var g := G1(s.sh);
            && Sum(AwakeW(Current(s'.sh), !g), s.ths) == Sum(AwakeW(Current(s.sh), !g), s.ths)
            && Sum(AwakeW(Current(s'.sh), g), s.ths) == 0
  {
    var cur, cur', g := Current(s.sh), Current(s'.sh), G1(s.sh);
    assert LocalInv(s.sh, s.ths[t]);
    forall i | 0 <= i < |s.ths|
      ensures AwakeW(cur', !g)(s.ths[i]) == AwakeW(cur, !g)(s.ths[i]) && AwakeW(cur', g)(s.ths[i]) == 0
    {
      assert LocalInv(s.sh, s.ths[i]);
    }
    SumSame(AwakeW(cur', !g), AwakeW(cur, !g), s.ths);
    SumZero(AwakeW(cur', g), s.ths);
  }

  /** Nobody can have stolen from a G1 that is just being installed. */
  lemma AdvanceThieves(s: State, t: int, c: Choice, s': State)
    requires Inv(s) && Solo(s, t, c, s') && Advancing(s.ths[t])
    ensures Sum(ThiefW(Current(s'.sh)), s.ths) == 0
  {
    var cur' := Current(s'.sh);
    assert LocalInv(s.sh, s.ths[t]);
    RankGrows(s.sh, s.ths[t], c);
    forall i | 0 <= i < |s.ths| ensures ThiefW(cur')(s.ths[i]) == 0 {
      assert LocalInv(s.sh, s.ths[i]);
    }
    SumZero(ThiefW(cur'), s.ths);
  }

  lemma AdvanceNumbers(sh: Shared, l: Local, c: Choice, a: SlotCount, b: SlotCount, n: GlobalCount)
    requires SharedInv(sh) && LocalInv(sh, l) && Advancing(l)
    requires CountsHold(sh, a, b, n) && a.sleep == 0
    ensures CountsHold(Act(sh, l, c).sh, b, a.(awake := 0), n.(owed := 0))
  {
  }

  /** The quiescer itself contributes to no count but that of the lock. */
  lemma AdvanceWeight(sh: Shared, l: Local, c: Choice, cur: StartWord, x: bool)
    requires Advancing(l)
    ensures SlotWeight(cur, x, Act(sh, l, c).l) == SlotWeight(cur, x, l) && NoneIn(SlotWeight(cur, x, l))
    ensures GlobalWeight(cur, Act(sh, l, c).l) == GlobalWeight(cur, l)
  {
  }

  lemma AdvanceSlot(s: State, t: int, c: Choice, s': State, x: bool)
    requires Solo(s, t, c, s') && Advancing(s.ths[t])
    ensures SlotTotal(Current(s'.sh), x, s'.ths) == SlotTotal(Current(s'.sh), x, s.ths)
  {
    AdvanceWeight(s.sh, s.ths[t], c, Current(s'.sh), x);
    SlotUpdate(Current(s'.sh), x, s.ths, t, s'.ths[t]);
  }

  lemma AdvanceGlobal(s: State, t: int, c: Choice, s': State)
    requires Solo(s, t, c, s') && Advancing(s.ths[t])
    ensures GlobalTotal(Current(s'.sh), s'.ths) == GlobalTotal(Current(s'.sh), s.ths)
  {
    AdvanceWeight(s.sh, s.ths[t], c, Current(s'.sh), true);
    GlobalUpdate(Current(s'.sh), s.ths, t, s'.ths[t]);
  }

  /** Apart from the members and thieves no count depends on g1_start. */
  lemma StartOnlyMatters(cur: StartWord, cur': StartWord, x: bool, ths: seq<Local>)
    ensures SlotTotal(cur', x, ths) == SlotTotal(cur, x, ths).(awake := Sum(AwakeW(cur', x), ths))
    ensures GlobalTotal(cur', ths) == GlobalTotal(cur, ths).(owed := Sum(ThiefW(cur'), ths))
  {
  }

  lemma AdvanceTotals(s: State, t: int, c: Choice, s': State)
    requires Inv(s) && Solo(s, t, c, s') && Advancing(s.ths[t])
    ensures var cur, cur', g := Current(s.sh), Current(s'.sh), G1(s.sh);
            && SlotTotal(cur', g, s'.ths) == SlotTotal(cur, g, s.ths).(awake := 0)
            && SlotTotal(cur', !g, s'.ths) == SlotTotal(cur, !g, s.ths)
            && GlobalTotal(cur', s'.ths) == GlobalTotal(cur, s.ths).(owed := 0)
  {
    var cur, cur', g := Current(s.sh), Current(s'.sh), G1(s.sh);
    AdvanceSlot(s, t, c, s', g);
    AdvanceSlot(s, t, c, s', !g);
    AdvanceGlobal(s, t, c, s');
    AdvanceMembers(s, t, c, s');
    AdvanceThieves(s, t, c, s');
    StartOnlyMatters(cur, cur', g, s.ths);
    StartOnlyMatters(cur, cur', !g, s.ths);
  }

  lemma AdvanceCounts(s: State, t: int, c: Choice, s': State)
    requires Inv(s) && Solo(s, t, c, s') && Advancing(s.ths[t])
    ensures CountsInv(s')
  {
    var cur, g := Current(s.sh), G1(s.sh);
    assert LocalInv(s.sh, s.ths[t]);
    ShutIsEmpty(s, g);
    AdvanceTotals(s, t, c, s');
    AdvanceNumbers(s.sh, s.ths[t], c, SlotTotal(cur, g, s.ths), SlotTotal(cur, !g, s.ths), GlobalTotal(cur, s.ths));
  }

  // ---------- a wake call that finds a sleeper ----------

  lemma SleeperReturns(sh: Shared, k: Local, a: Address, c: Choice)
    requires SleepsOn(k, a)
    ensures Act(sh, k, c).sh == sh && !SleepsOn(Act(sh, k, c).l, a)
  {
  }

  lemma WakerReturns(sh: Shared, l: Local, c: Choice)
    requires NextWake(l).Duty?
    ensures Act(sh, l, c).sh == sh
  {
  }

  lemma WakeSlot(sh: Shared, l: Local, k: Local, c: Choice, x: bool, n: SlotCount)
    requires LocalInv(sh, k) && NextWake(l).Duty? && SleepsOn(k, NextWake(l).a)
    requires SlotInv(At(sh.m, x), n)
    requires SlotCovers(n, SlotWeight(Current(sh), x, l)) && SlotCovers(n, SlotWeight(Current(sh), x, k))
    ensures var l' := if NextWake(l).all then l else Act(sh, l, c).l;
            var cur := Current(sh);
            SlotInv(At(sh.m, x), SlotMove(SlotMove(n, SlotWeight(cur, x, l), SlotWeight(cur, x, l')),
                                          SlotWeight(cur, x, k), SlotWeight(cur, x, Act(sh, k, c).l)))
  {
  }

  lemma WakeMembers(sh: Shared, l: Local, k: Local, c: Choice, a: SlotCount, b: SlotCount)
    requires LocalInv(sh, k) && NextWake(l).Duty? && SleepsOn(k, NextWake(l).a)
    requires MembersFit(sh, a, b)
    ensures var l' := if NextWake(l).all then l else Act(sh, l, c).l;
            var k' := Act(sh, k, c).l;
            var cur := Current(sh);
            MembersFit(sh, SlotMove(SlotMove(a, SlotWeight(cur, G1(sh), l), SlotWeight(cur, G1(sh), l')),
                          SlotWeight(cur, G1(sh), k), SlotWeight(cur, G1(sh), k')),
                       SlotMove(SlotMove(b, SlotWeight(cur, !G1(sh), l), SlotWeight(cur, !G1(sh), l')),
                          SlotWeight(cur, !G1(sh), k), SlotWeight(cur, !G1(sh), k')))
  {
  }

  lemma WakeCounters(sh: Shared, l: Local, k: Local, c: Choice, n: GlobalCount)
    requires LocalInv(sh, k) && NextWake(l).Duty? && SleepsOn(k, NextWake(l).a)
    requires n.lock == One(sh.m.locked) && n.waiters == sh.m.wcount && Conserved(sh, n) && DestroyerCovered(sh, n)
    requires GlobalCovers(n, GlobalWeight(Current(sh), l))
    ensures var l' := if NextWake(l).all then l else Act(sh, l, c).l;
            var k' := Act(sh, k, c).l;
            var cur := Current(sh);
            var n' := GlobalMove(GlobalMove(n, GlobalWeight(cur, l), GlobalWeight(cur, l')),
                            GlobalWeight(cur, k), GlobalWeight(cur, k'));
            n'.lock == One(sh.m.locked) && n'.waiters == sh.m.wcount && Conserved(sh, n') && DestroyerCovered(sh, n')
  {
  }

  lemma WakeDrains(sh: Shared, l: Local, k: Local, c: Choice, a: SlotCount, n: GlobalCount)
    requires LocalInv(sh, k) && NextWake(l).Duty? && SleepsOn(k, NextWake(l).a)
    requires Draining(sh, a, n) && SlotCovers(a, SlotWeight(Current(sh), G1(sh), l))
    ensures var l' := if NextWake(l).all then l else Act(sh, l, c).l;
            var k' := Act(sh, k, c).l;
            var cur := Current(sh);
            Draining(sh, SlotMove(SlotMove(a, SlotWeight(cur, G1(sh), l), SlotWeight(cur, G1(sh), l')),
                          SlotWeight(cur, G1(sh), k), SlotWeight(cur, G1(sh), k')),
                     GlobalMove(GlobalMove(n, GlobalWeight(cur, l), GlobalWeight(cur, l')),
                            GlobalWeight(cur, k), GlobalWeight(cur, k')))
  {
  }

  lemma WakeGlobal(sh: Shared, l: Local, k: Local, c: Choice, a: SlotCount, b: SlotCount, n: GlobalCount)
    requires LocalInv(sh, k) && NextWake(l).Duty? && SleepsOn(k, NextWake(l).a)
    requires GlobalInv(sh, a, b, n)
    requires SlotCovers(a, SlotWeight(Current(sh), G1(sh), l)) && GlobalCovers(n, GlobalWeight(Current(sh), l))
    ensures var l' := if NextWake(l).all then l else Act(sh, l, c).l;
            var k' := Act(sh, k, c).l;
            var cur := Current(sh);
            GlobalInv(sh, SlotMove(SlotMove(a, SlotWeight(cur, G1(sh), l), SlotWeight(cur, G1(sh), l')),
                          SlotWeight(cur, G1(sh), k), SlotWeight(cur, G1(sh), k')),
                      SlotMove(SlotMove(b, SlotWeight(cur, !G1(sh), l), SlotWeight(cur, !G1(sh), l')),
                          SlotWeight(cur, !G1(sh), k), SlotWeight(cur, !G1(sh), k')),
                      GlobalMove(GlobalMove(n, GlobalWeight(cur, l), GlobalWeight(cur, l')),
                            GlobalWeight(cur, k), GlobalWeight(cur, k')))
  {
    WakeMembers(sh, l, k, c, a, b);
    WakeCounters(sh, l, k, c, n);
    WakeDrains(sh, l, k, c, a, n);
  }

  lemma WakeLocals(s: State, t: int, u: int, c: Choice, s': State)
    requires Inv(s) && WakeStep(s, t, u, c, s')
    ensures LocalsInv(s')
  {
    SleeperReturns(s.sh, s.ths[u], NextWake(s.ths[t]).a, c);
    WakerReturns(s.sh, s.ths[t], c);
    SelfStep(s.sh, s.ths[u], c);
    SelfStep(s.sh, s.ths[t], c);
  }

  lemma WakeHolds(sh: Shared, l: Local, k: Local, c: Choice, a: SlotCount, b: SlotCount, n: GlobalCount)
    requires LocalInv(sh, k) && NextWake(l).Duty? && SleepsOn(k, NextWake(l).a) && CountsHold(sh, a, b, n)
    requires SlotCovers(a, SlotWeight(Current(sh), G1(sh), l)) && SlotCovers(a, SlotWeight(Current(sh), G1(sh), k))
    requires SlotCovers(b, SlotWeight(Current(sh), !G1(sh), l)) && SlotCovers(b, SlotWeight(Current(sh), !G1(sh), k))
    requires GlobalCovers(n, GlobalWeight(Current(sh), l))
    ensures var l' := if NextWake(l).all then l else Act(sh, l, c).l;
            var k' := Act(sh, k, c).l;
            var cur := Current(sh);
            CountsHold(sh, SlotMove(SlotMove(a, SlotWeight(cur, G1(sh), l), SlotWeight(cur, G1(sh), l')),
                          SlotWeight(cur, G1(sh), k), SlotWeight(cur, G1(sh), k')),
                       SlotMove(SlotMove(b, SlotWeight(cur, !G1(sh), l), SlotWeight(cur, !G1(sh), l')),
                          SlotWeight(cur, !G1(sh), k), SlotWeight(cur, !G1(sh), k')),
                       GlobalMove(GlobalMove(n, GlobalWeight(cur, l), GlobalWeight(cur, l')),
                            GlobalWeight(cur, k), GlobalWeight(cur, k')))
  {
    WakeSlot(sh, l, k, c, G1(sh), a);
    WakeSlot(sh, l, k, c, !G1(sh), b);
    WakeGlobal(sh, l, k, c, a, b, n);
  }

  lemma WakeCounts(s: State, t: int, u: int, c: Choice, s': State)
    requires Inv(s) && WakeStep(s, t, u, c, s')
    ensures CountsInv(s')
  {
    var sh, l, k := s.sh, s.ths[t], s.ths[u];
    var cur, a := Current(sh), G1(sh);
    var l' := if NextWake(l).all then l else Act(sh, l, c).l;
    var k' := Act(sh, k, c).l;
    var mid := s.ths[t := l'];
    assert mid == if NextWake(l).all then s.ths else s.ths[t := l'];
    assert s'.ths == mid[u := k'];
    Covers(cur, s.ths, t);
    Covers(cur, s.ths, u);
    assert LocalInv(sh, k);
    WakeHolds(sh, l, k, c, SlotTotal(cur, a, s.ths), SlotTotal(cur, !a, s.ths), GlobalTotal(cur, s.ths));
    TotalsMove(cur, s.ths, t, l');
    TotalsMove(cur, mid, u, k');
  }

  // ---------- runs ----------

  /** Nobody is counted. */
  predicate NoneIn(n: SlotCount) {
    n.refs == 0 && n.sleep == 0 && n.awake == 0 && n.pend == 0 && n.pendAll == 0 && n.qsleep == 0 && n.inDec == 0
  }

  predicate NoneAtAll(n: GlobalCount) {
    n.lock == 0 && n.waiters == 0 && n.owed == 0 && n.dsleep == 0 && n.dpend == 0
  }

  lemma IdleSlot(cur: StartWord, x: bool, ths: seq<Local>)
    requires forall i :: 0 <= i < |ths| ==> ths[i] == Idle
    ensures NoneIn(SlotTotal(cur, x, ths))
  {
    SumZero(RefsW(x), ths);
    SumZero(SleepW(x), ths);
    SumZero(AwakeW(cur, x), ths);
    SumZero(PendW(x), ths);
    SumZero(PendAllW(x), ths);
    SumZero(QSleepW(x), ths);
    SumZero(InDecW(x), ths);
  }

  lemma IdleGlobal(cur: StartWord, ths: seq<Local>)
    requires forall i :: 0 <= i < |ths| ==> ths[i] == Idle
    ensures NoneAtAll(GlobalTotal(cur, ths))
  {
    SumZero(LockW(), ths);
    SumZero(CountedW(), ths);
    SumZero(ThiefW(cur), ths);
    SumZero(DSleepW(), ths);
    SumZero(DPendW(), ths);
  }

  predicate IsEmpty(x: Slot) {
    x.refs == 0 && !x.wake && x.size == 0 && x.signals == 0 && !x.closed
  }

  /** Nobody has done anything yet. */
  predicate Untouched(sh: Shared) {
    && IsEmpty(sh.m.s0) && IsEmpty(sh.m.s1)
    && sh.m.next == sh.m.start == sh.m.orig == sh.m.wcount == 0
    && !sh.m.g2 && !sh.m.bit && !sh.m.locked
    && sh.cut == sh.total == sh.taken == sh.extra == sh.stray == sh.early == 0 && sh.phase == Open
  }

  lemma CountsStart(sh: Shared, a: SlotCount, b: SlotCount, n: GlobalCount)
    requires Untouched(sh) && NoneIn(a) && NoneIn(b) && NoneAtAll(n)
    ensures CountsHold(sh, a, b, n)
  {
  }

  lemma CountsInit(s: State)
    requires Untouched(s.sh) && forall i :: 0 <= i < |s.ths| ==> s.ths[i] == Idle
    ensures CountsInv(s)
  {
    var cur, g := Current(s.sh), G1(s.sh);
    IdleSlot(cur, g, s.ths);
    IdleSlot(cur, !g, s.ths);
    IdleGlobal(cur, s.ths);
    CountsStart(s.sh, SlotTotal(cur, g, s.ths), SlotTotal(cur, !g, s.ths), GlobalTotal(cur, s.ths));
  }

  lemma InitialIsUntouched(sh: Shared)
    requires sh == INITIAL_SHARED
    ensures Untouched(sh)
  {
  }

  lemma UntouchedShared(sh: Shared)
    requires Untouched(sh)
    ensures SharedInv(sh)
  {
  }

  lemma UntouchedInv(s: State)
    requires Untouched(s.sh) && forall i :: 0 <= i < |s.ths| ==> s.ths[i] == Idle
    ensures Inv(s)
  {
    UntouchedShared(s.sh);
    CountsInit(s);
  }

  lemma InvInit(s: State)
    requires Init(s)
    ensures Inv(s)
  {
    InitialIsUntouched(s.sh);
    UntouchedInv(s);
  }

  lemma InvNext(s: State, s': State)
    requires Inv(s) && Next(s, s')
    ensures Inv(s')
  {
    if t, c :| Solo(s, t, c, s') {
      LocalsStep(s, t, c, s');
      if Advancing(s.ths[t]) {
        AdvanceCounts(s, t, c, s');
      } else {
        CountsStep(s, t, c, s');
      }
    } else {
      var t, u, c :| WakeStep(s, t, u, c, s');
      WakeLocals(s, t, u, c, s');
      WakeCounts(s, t, u, c, s');
    }
  }

  /** Every state of every run satisfies the invariant. */
  lemma {:induction false} InvRun(run: seq<State>, i: int)
    requires IsRun(run) && 0 <= i < |run|
    ensures Inv(run[i])
  {
    if i == 0 {
      InvInit(run[0]);
    } else {
      InvRun(run, i - 1);
      assert Next(run[i - 1], run[i - 1 + 1]);
      InvNext(run[i - 1], run[i]);
    }
  }
}
