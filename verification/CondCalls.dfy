/** Calls of signal, broadcast and destroy that nobody disturbs: from every place in the code the thread ends, after
    a bounded number of its own steps, outside of the call with an outcome stated as one formula, or asleep where it
    has to wait. */
module CondCalls {
  import opened CondMemory
  import opened CondProtocol
  import opened CondInvariant
  import opened CondAlone

  function Free(sh: Shared): Shared {
    sh.(m := sh.m.(locked := false))
  }

  function Lock(sh: Shared): Shared {
    sh.(m := sh.m.(locked := true))
  }

  // ---------- the end of a call ----------

  lemma UnlockEnds(sh: Shared, wakes: Wakes, op: Op, rd: int, g: bool, c: Choice) returns (k: nat)
    ensures k == (if wakes == NoWake then 1 else 2)
    ensures ActN(sh, Signaler(Unlock(wakes), op, rd, g), c, k) == Out(Free(sh), Idle)
  {
    var o := Act(sh, Signaler(Unlock(wakes), op, rd, g), c);
    if wakes == NoWake {
      assert o == Out(Free(sh), Idle);
      k := 1;
    } else {
      assert Act(o.sh, o.l, c) == Out(Free(sh), Idle);
      k := 2;
    }
  }

  /** How many signals a call posts at once: a broadcast all, a signal one. */
  function Amount(op: Op, size: int): int {
    if op == Signal then 1 else size
  }

  /** Posting with the lock held, and the end of the call. */
  lemma PostEnds(sh: Shared, s: SignalerPc, op: Op, rd: int, g: bool, c: Choice) returns (k: nat)
    requires s == if op == Signal then Post else PostAll
    ensures k == 3
    ensures ActN(sh, Signaler(s, op, rd, g), c, k) == Out(Free(Posted(sh, g, Amount(op, At(sh.m, g).size))), Idle)
  {
    var o := Act(sh, Signaler(s, op, rd, g), c);
    assert o.sh == Posted(sh, g, Amount(op, At(sh.m, g).size));
    k := UnlockEnds(o.sh, o.l.s.wakes, op, rd, g, c);
    k := k + 1;
  }

  // ---------- the switch ----------

  /** The steps of a switch from the advance of g1_start on. */
  predicate Switches(s: SignalerPc) {
    s.Advance? || s.ReopenSlot? || s.Flip? || s.AddSize? || s.SetOrig?
  }

  /** Where a switch ends that has got as far as place s: g1_start at the cut with its index toggled, the old slot open
      and empty, everybody registered before the flip in the new G1, and those to be posted to posted to. */
  function SwitchEnd(sh: Shared, op: Op, s: SignalerPc): Shared {
    var adv := s.Advance?;
    var start := if adv then sh.cut else sh.m.start;
    var bit := if adv then !sh.m.bit else sh.m.bit;
    var cut := if s.AddSize? || s.SetOrig? then sh.cut else sh.m.next;
    var n := Amount(op, cut - start);
    var old1 := At(sh.m, bit);
    var old1' := if adv || s.ReopenSlot? then old1.(signals := 0, closed := false) else old1;
    var new1 := At(sh.m, !bit);
    var m := Put(Put(sh.m, bit, old1'), !bit, new1.(signals := new1.signals + n, size := cut - start - n));
    Shared(m.(start := start, bit := bit, g2 := bit, orig := cut - start, locked := false), cut, sh.total + n,
           if adv then 0 else sh.taken, if adv then new1.signals else sh.extra,
           if adv then sh.early else sh.stray, if adv then 0 else sh.early, Open)
  }

  lemma SetOrigEnds(sh: Shared, s: SignalerPc, op: Op, rd: int, g: bool, c: Choice) returns (k: nat)
    requires !c.fail && SharedInv(sh) && SignalerInv(sh, s, op, rd, g) && s.SetOrig?
    ensures k == 4 && ActN(sh, Signaler(s, op, rd, g), c, k) == Out(SwitchEnd(sh, op, s), Idle)
  {
    var o := Act(sh, Signaler(s, op, rd, g), c);
    assert o.l == Signaler(if op == Signal then Post else PostAll, op, rd, g);
    k := PostEnds(o.sh, o.l.s, op, rd, g, c);
    k := k + 1;
    assert Free(Posted(o.sh, g, Amount(op, At(o.sh.m, g).size))) == SwitchEnd(sh, op, s);
  }

  lemma AdvanceKeepsEnd(sh: Shared, s: SignalerPc, op: Op, rd: int, g: bool, c: Choice)
    requires SharedInv(sh) && SignalerInv(sh, s, op, rd, g) && s.Advance?
    ensures var o := ActSignaler(sh, s, op, rd, g, c);
            o.l.Signaler? && SwitchEnd(o.sh, op, o.l.s) == SwitchEnd(sh, op, s)
  {
  }

  lemma ReopenKeepsEnd(sh: Shared, s: SignalerPc, op: Op, rd: int, g: bool, c: Choice)
    requires SharedInv(sh) && SignalerInv(sh, s, op, rd, g) && s.ReopenSlot?
    ensures var o := ActSignaler(sh, s, op, rd, g, c);
            o.l.Signaler? && SwitchEnd(o.sh, op, o.l.s) == SwitchEnd(sh, op, s)
  {
  }

  lemma FlipKeepsEnd(sh: Shared, s: SignalerPc, op: Op, rd: int, g: bool, c: Choice)
    requires SharedInv(sh) && SignalerInv(sh, s, op, rd, g) && s.Flip?
    ensures var o := ActSignaler(sh, s, op, rd, g, c);
            o.l.Signaler? && SwitchEnd(o.sh, op, o.l.s) == SwitchEnd(sh, op, s)
  {
  }

  lemma AddSizeKeepsEnd(sh: Shared, s: SignalerPc, op: Op, rd: int, g: bool, c: Choice)
    requires SharedInv(sh) && SignalerInv(sh, s, op, rd, g) && s.AddSize?
    ensures var o := ActSignaler(sh, s, op, rd, g, c);
            o.l.Signaler? && SwitchEnd(o.sh, op, o.l.s) == SwitchEnd(sh, op, s)
  {
  }

  /** A step of the switch does not change where it ends. */
  lemma SwitchGoesOn(sh: Shared, s: SignalerPc, op: Op, rd: int, g: bool, c: Choice)
    requires SharedInv(sh) && SignalerInv(sh, s, op, rd, g) && Switches(s) && !s.SetOrig?
    ensures var o := Act(sh, Signaler(s, op, rd, g), c);
            && o.l.Signaler? && Switches(o.l.s) && o.l.op == op && o.l.rd == rd && SwitchRank(o.l.s) < SwitchRank(s)
            && SharedInv(o.sh) && SignalerInv(o.sh, o.l.s, op, rd, o.l.g)
            && SwitchEnd(o.sh, op, o.l.s) == SwitchEnd(sh, op, s)
  {
    SharedStepSignaler(sh, s, op, rd, g, c);
    SelfStepSwitching(sh, s, op, rd, g, c);
    match s
    case Advance(_, _) => AdvanceKeepsEnd(sh, s, op, rd, g, c);
    case ReopenSlot(_, _) => ReopenKeepsEnd(sh, s, op, rd, g, c);
    case Flip(_, _) => FlipKeepsEnd(sh, s, op, rd, g, c);
    case AddSize(_, _, _) => AddSizeKeepsEnd(sh, s, op, rd, g, c);
  }

  function SwitchRank(s: SignalerPc): nat {
    match s
    case Advance(_, _) => 8
    case ReopenSlot(_, _) => 7
    case Flip(_, _) => 6
    case AddSize(_, _, _) => 5
    case _ => 4
  }

  lemma {:induction false} SwitchEnds(sh: Shared, s: SignalerPc, op: Op, rd: int, g: bool, c: Choice) returns (k: nat)
    requires !c.fail && SharedInv(sh) && SignalerInv(sh, s, op, rd, g) && Switches(s)
    ensures k == SwitchRank(s) && ActN(sh, Signaler(s, op, rd, g), c, k) == Out(SwitchEnd(sh, op, s), Idle)
    decreases SwitchRank(s)
  {
    if s.SetOrig? {
      k := SetOrigEnds(sh, s, op, rd, g, c);
    } else {
      SwitchGoesOn(sh, s, op, rd, g, c);
      var o := Act(sh, Signaler(s, op, rd, g), c);
      k := SwitchEnds(o.sh, o.l.s, op, rd, o.l.g, c);
      StepFirst(sh, Signaler(s, op, rd, g), c, o, k);
      k := k + 1;
    }
  }

  // ---------- the drain ----------

  predicate Drains(s: SignalerPc) {
    s.ReadRefs? || s.SetFlag? || s.QFutex? || s.QAsleep? || s.Reload?
  }

  /** The words when the drain is over. */
  function AfterDrain(sh: Shared, s: SignalerPc, g: bool): Shared {
    (if s.SetFlag? then sh.(m := SetWake(sh.m, g, true)) else sh).(phase := Drained)
  }

  function DrainSteps(s: SignalerPc): nat {
    if s.ReadRefs? || s.Reload? then 1 else 2
  }

  /** A quiescer whose slot has no references, wherever it is in its loop, is past the drain in at most two steps,
      also when it has just been woken. */
  lemma DrainEnds(sh: Shared, s: SignalerPc, op: Op, rd: int, g: bool, c: Choice) returns (k: nat)
    requires SignalerInv(sh, s, op, rd, g) && Drains(s) && At(sh.m, g).refs == 0
    ensures k == DrainSteps(s)
    ensures ActN(sh, Signaler(s, op, rd, g), c, k)
         == Out(AfterDrain(sh, s, g), Signaler(Advance(sh.m.start, sh.m.orig), op, rd, g))
  {
    var o := Act(sh, Signaler(s, op, rd, g), c);
    if s.ReadRefs? || s.Reload? {
      k := 1;
    } else {
      assert o.l == Signaler(Reload(sh.m.start, sh.m.orig), op, rd, g);
      assert Act(o.sh, o.l, c).sh == AfterDrain(sh, s, g);
      k := 2;
    }
  }

  /** One whose slot has references sleeps within four steps, with the wake flag set. */
  lemma DrainBlocks(sh: Shared, s: SignalerPc, op: Op, rd: int, g: bool, c: Choice) returns (k: nat)
    requires SignalerInv(sh, s, op, rd, g) && Drains(s) && !s.QAsleep? && At(sh.m, g).refs != 0
    ensures k <= 4
    ensures ActN(sh, Signaler(s, op, rd, g), c, k)
         == Out(sh.(m := SetWake(sh.m, g, true)), Signaler(QAsleep(sh.m.start, sh.m.orig), op, rd, g))
    decreases s.QFutex?
  {
    var l := Signaler(s, op, rd, g);
    if s.SetFlag? {
      k := FlagBlocks(sh, op, rd, g, c, s.os, s.oo);
    } else if s.QFutex? && s.r == At(sh.m, g).refs && At(sh.m, g).wake {
      assert sh.(m := SetWake(sh.m, g, true)) == sh;
      k := 1;
    } else if s.QFutex? {
      k := DrainBlocks(sh, Reload(s.os, s.oo), op, rd, g, c);
      StepFirst(sh, l, c, Out(sh, Signaler(Reload(s.os, s.oo), op, rd, g)), k);
      k := k + 1;
    } else {
      k := FlagBlocks(sh, op, rd, g, c, s.os, s.oo);
      StepFirst(sh, l, c, Out(sh, Signaler(SetFlag(s.os, s.oo), op, rd, g)), k);
      k := k + 1;
    }
  }

  lemma FlagBlocks(sh: Shared, op: Op, rd: int, g: bool, c: Choice, os: int, oo: int) returns (k: nat)
    requires At(sh.m, g).refs != 0
    ensures k == 2
    ensures ActN(sh, Signaler(SetFlag(os, oo), op, rd, g), c, k)
         == Out(sh.(m := SetWake(sh.m, g, true)), Signaler(QAsleep(os, oo), op, rd, g))
  {
    var o := Act(sh, Signaler(SetFlag(os, oo), op, rd, g), c);
    assert o == Out(sh.(m := SetWake(sh.m, g, true)), Signaler(QFutex(os, oo, At(sh.m, g).refs), op, rd, g));
    k := 2;
  }

  // ---------- whole calls ----------

  function Adv(sh: Shared): SignalerPc {
    Advance(sh.m.start, sh.m.orig)
  }

  lemma AfterDrainInv(sh: Shared, s: SignalerPc, op: Op, rd: int, g: bool)
    requires SharedInv(sh) && SignalerInv(sh, s, op, rd, g) && Drains(s)
    ensures var d := AfterDrain(sh, s, g);
            SharedInv(d) && SignalerInv(d, Adv(sh), op, rd, g)
  {
  }

  /** The quiescer, wherever it is in its loop once its slot has no references, ends its call in at most ten steps: the
      groups are switched, and what the call has to post is posted. */
  lemma QuiescerEnds(sh: Shared, s: SignalerPc, op: Op, rd: int, g: bool, c: Choice) returns (k: nat)
    requires !c.fail && SharedInv(sh) && SignalerInv(sh, s, op, rd, g) && Drains(s) && At(sh.m, g).refs == 0
    ensures k == DrainSteps(s) + 8
    ensures ActN(sh, Signaler(s, op, rd, g), c, k) == Out(SwitchEnd(AfterDrain(sh, s, g), op, Adv(sh)), Idle)
  {
    var j := DrainEnds(sh, s, op, rd, g, c);
    AfterDrainInv(sh, s, op, rd, g);
    k := SwitchEnds(AfterDrain(sh, s, g), Adv(sh), op, rd, g, c);
    ActNAdds(sh, Signaler(s, op, rd, g), c, j, k);
    k := j + k;
  }

  /** Closed, for the switch that follows. */
  function Closed(sh: Shared): Shared {
    sh.(m := Close(sh.m, G1(sh)), phase := Closing)
  }

  lemma ClosedInv(sh: Shared, op: Op, rd: int, g: bool)
    requires SharedInv(sh) && SignalerInv(sh, Test, op, rd, g) && sh.cut < rd
    ensures SharedInv(Closed(sh)) && SignalerInv(Closed(sh), ReadRefs(sh.m.start, sh.m.orig), op, rd, g)
    ensures SwitchEnd(AfterDrain(Closed(sh), ReadRefs(sh.m.start, sh.m.orig), g), op, Adv(sh))
         == SwitchEnd(sh, op, Adv(sh))
    ensures At(Closed(sh).m, g).refs == At(sh.m, g).refs
  {
  }

  lemma TestCloses(sh: Shared, op: Op, rd: int, g: bool, c: Choice)
    requires SharedInv(sh) && SignalerInv(sh, Test, op, rd, g) && sh.cut < rd
    ensures ActN(sh, Signaler(Test, op, rd, g), c, 2)
         == Out(Closed(sh), Signaler(ReadRefs(sh.m.start, sh.m.orig), op, rd, g))
  {
    var o := Act(sh, Signaler(Test, op, rd, g), c);
    assert o == Out(sh, Signaler(CloseG1(sh.m.start, sh.m.orig), op, rd, g));
  }

  /** What a call does from the test for an empty G2 on. */
  function TestEnd(sh: Shared, op: Op, rd: int): Shared {
    if sh.cut < rd then SwitchEnd(sh, op, Adv(sh)) else Free(sh)
  }

  function TestSteps(sh: Shared, rd: int): nat {
    if sh.cut < rd then 11 else 2
  }

  lemma TestEnds(sh: Shared, op: Op, rd: int, g: bool, c: Choice) returns (k: nat)
    requires !c.fail && SharedInv(sh) && SignalerInv(sh, Test, op, rd, g)
    requires sh.cut < rd ==> At(sh.m, g).refs == 0
    ensures k == TestSteps(sh, rd) && ActN(sh, Signaler(Test, op, rd, g), c, k) == Out(TestEnd(sh, op, rd), Idle)
  {
    var l := Signaler(Test, op, rd, g);
    if sh.cut < rd {
      TestCloses(sh, op, rd, g, c);
      ClosedInv(sh, op, rd, g);
      k := QuiescerEnds(Closed(sh), ReadRefs(sh.m.start, sh.m.orig), op, rd, g, c);
      ActNAdds(sh, l, c, 2, k);
      k := 2 + k;
    } else {
      k := UnlockEnds(sh, NoWake, op, rd, g, c);
      StepFirst(sh, l, c, Out(sh, Signaler(Unlock(NoWake), op, rd, g)), k);
      k := k + 1;
    }
  }

  /** Where a call ends that takes the lock now: signals go to the members of G1 that are left, one or all; for a
      broadcast, or if none is left, the groups are switched if anybody has registered after the cut. */
  function CallEnd(sh: Shared, op: Op): Shared {
    var size := At(sh.m, G1(sh)).size;
    if op == Signal && size > 0 then Posted(sh, G1(sh), 1)
    else TestEnd(if size > 0 then Posted(sh, G1(sh), size) else sh, op, sh.m.next)
  }

  function CallSteps(sh: Shared, op: Op): nat {
    var size := At(sh.m, G1(sh)).size;
    if op == Signal && size > 0 then 7
    else 4 + TestSteps(sh, sh.m.next) + if size > 0 then 2 else 0
  }

  predicate MustSwitch(sh: Shared, op: Op) {
    sh.cut < sh.m.next && (op == Broadcast || At(sh.m, G1(sh)).size == 0)
  }

  lemma PostRestInv(sh: Shared, rd: int, g: bool)
    requires SharedInv(sh) && SignalerInv(sh, PostRest, Broadcast, rd, g)
    ensures var p := Posted(sh, g, At(sh.m, g).size);
            && SharedInv(p) && SignalerInv(p, Test, Broadcast, rd, g)
            && At(p.m, g).refs == At(sh.m, g).refs && p.cut == sh.cut
  {
  }

  lemma PostRestEnds(sh: Shared, rd: int, g: bool, c: Choice) returns (k: nat)
    requires !c.fail && SharedInv(sh) && SignalerInv(sh, PostRest, Broadcast, rd, g)
    requires sh.cut < rd ==> At(sh.m, g).refs == 0
    ensures k == 2 + TestSteps(sh, rd)
    ensures ActN(sh, Signaler(PostRest, Broadcast, rd, g), c, k)
         == Out(TestEnd(Posted(sh, g, At(sh.m, g).size), Broadcast, rd), Idle)
  {
    var p := Posted(sh, g, At(sh.m, g).size);
    PostRestInv(sh, rd, g);
    k := TestEnds(p, Broadcast, rd, g, c);
    StepFirst(p, Signaler(WakeRest, Broadcast, rd, g), c, Out(p, Signaler(Test, Broadcast, rd, g)), k);
    StepFirst(sh, Signaler(PostRest, Broadcast, rd, g), c, Out(p, Signaler(WakeRest, Broadcast, rd, g)), k + 1);
    k := k + 2;
  }

  lemma LockIsForgotten(sh: Shared, op: Op, rd: int)
    ensures TestEnd(Lock(sh), op, rd) == TestEnd(sh, op, rd)
  {
  }

  lemma PostingUnderLock(sh: Shared, g: bool, n: int)
    ensures Posted(Lock(sh), g, n) == Lock(Posted(sh, g, n)) && Posted(sh, g, n).m.locked == sh.m.locked
    ensures !sh.m.locked ==> Free(Lock(Posted(sh, g, n))) == Posted(sh, g, n)
  {
  }

  lemma LockKeeps(sh: Shared)
    requires SharedInv(sh) && !sh.m.locked
    ensures SharedInv(Lock(sh)) && G1(Lock(sh)) == G1(sh) == !sh.m.g2
    ensures At(Lock(sh).m, G1(sh)) == At(sh.m, G1(sh)) && sh.phase == Open
  {
  }

  lemma ReadSeqEnds(sh: Shared, op: Op, c: Choice) returns (k: nat)
    requires !c.fail && SharedInv(sh) && !sh.m.locked && (MustSwitch(sh, op) ==> At(sh.m, G1(sh)).refs == 0)
    ensures k + 3 == CallSteps(sh, op) && ActN(Lock(sh), ReadSeq(op), c, k) == Out(CallEnd(sh, op), Idle)
  {
    var b, g, rd := Lock(sh), G1(sh), sh.m.next;
    LockKeeps(sh);
    var o := Act(b, ReadSeq(op), c);
    SelfStep(b, ReadSeq(op), c);
    var size := At(sh.m, g).size;
    if size == 0 {
      k := TestEnds(b, op, rd, g, c);
      LockIsForgotten(sh, op, rd);
    } else if op == Signal {
      k := PostEnds(b, Post, op, rd, g, c);
      PostingUnderLock(sh, g, 1);
    } else {
      k := PostRestEnds(b, rd, g, c);
      PostingUnderLock(sh, g, size);
      LockIsForgotten(Posted(sh, g, size), op, rd);
    }
    StepFirst(b, ReadSeq(op), c, o, k);
    k := k + 1;
  }

  /** The choice that makes the call of an operation. */
  function Makes(op: Op): Choice {
    Choice(if op == Signal then CallSignal else CallBroadcast, false)
  }

  /** A whole call of signal or broadcast that finds somebody counted, the lock free, and no references if it has
      to switch. */
  lemma UninterruptedCall(sh: Shared, op: Op) returns (k: nat)
    requires SharedInv(sh) && !sh.m.locked && sh.m.wcount >= 1
    requires MustSwitch(sh, op) ==> At(sh.m, G1(sh)).refs == 0
    ensures k == CallSteps(sh, op) && ActN(sh, Idle, Makes(op), k) == Out(CallEnd(sh, op), Idle)
  {
    var c := Makes(op);
    k := ReadSeqEnds(sh, op, c);
    StepFirst(sh, Acquire(op), c, Out(Lock(sh), ReadSeq(op)), k);
    StepFirst(sh, Fast(op), c, Out(sh, Acquire(op)), k + 1);
    StepFirst(sh, Idle, c, Out(sh, Fast(op)), k + 2);
    k := k + 3;
  }

  /** The fast path, and a lock that is held: nothing changes. */
  lemma UninterruptedFast(sh: Shared, op: Op)
    ensures sh.m.wcount == 0 ==> ActN(sh, Idle, Makes(op), 2) == Out(sh, Idle)
    ensures sh.m.locked ==> Act(sh, Acquire(op), Makes(op)) == Out(sh, Acquire(op))
  {
    assert Act(sh, Idle, Makes(op)) == Out(sh, Fast(op));
  }

  /** A call of broadcast leaves everybody who has registered signaled, a call of signal one more than before if there
      was anybody left, and both leave the lock free. A switch moves g1_start to the old cut and toggles its index. */
  lemma CallOutcomes(sh: Shared, op: Op)
    requires SharedInv(sh) && !sh.m.locked
    ensures var sh' := CallEnd(sh, op);
            && !sh'.m.locked && sh'.phase == Open && sh'.m.next == sh.m.next && sh'.m.wcount == sh.m.wcount
            && (op == Broadcast ==> sh'.total == sh.m.next && At(sh'.m, G1(sh')).size == 0)
            && (op == Signal ==> sh'.total == if sh.total < sh.m.next then sh.total + 1 else sh.total)
            && (MustSwitch(sh, op) ==> sh'.m.start == sh.cut && sh'.m.bit == !sh.m.bit && sh'.cut == sh.m.next)
            && (!MustSwitch(sh, op) ==> Current(sh') == Current(sh) && sh'.cut == sh.cut)
            && (!MustSwitch(sh, op) && sh.total == sh.m.next ==> sh' == sh)
            && At(sh'.m, G1(sh')).signals - At(sh.m, G1(sh')).signals
               == if MustSwitch(sh, op) && op == Broadcast then sh.m.next - sh.cut else sh'.total - sh.total
  {
  }

  /** A call that has to switch and finds references sleeps with the lock held, G1 closed and the wake flag set. */
  lemma UninterruptedDrain(sh: Shared, op: Op) returns (k: nat)
    requires SharedInv(sh) && !sh.m.locked && sh.m.wcount >= 1
    requires MustSwitch(sh, op) && At(sh.m, G1(sh)).refs != 0
    ensures k <= 11
    ensures var size := At(sh.m, G1(sh)).size;
            var sh1 := Closed(Lock(if size > 0 then Posted(sh, G1(sh), size) else sh));
            ActN(sh, Idle, Makes(op), k) == Out(sh1.(m := SetWake(sh1.m, G1(sh), true)),
                                                Signaler(QAsleep(sh.m.start, sh.m.orig), op, sh.m.next, G1(sh)))
  {
    var c, b, g, rd := Makes(op), Lock(sh), G1(sh), sh.m.next;
    LockKeeps(sh);
    SelfStep(b, ReadSeq(op), c);
    var o := Act(b, ReadSeq(op), c);
    var size := At(sh.m, g).size;
    if size == 0 {
      k := TestBlocks(b, op, rd, g, c);
    } else {
      PostRestInv(b, rd, g);
      PostingUnderLock(sh, g, size);
      var p := Posted(b, g, size);
      k := TestBlocks(p, op, rd, g, c);
      StepFirst(p, Signaler(WakeRest, op, rd, g), c, Out(p, Signaler(Test, op, rd, g)), k);
      StepFirst(b, Signaler(PostRest, op, rd, g), c, Out(p, Signaler(WakeRest, op, rd, g)), k + 1);
      k := k + 2;
    }
    StepFirst(b, ReadSeq(op), c, o, k);
    StepFirst(sh, Acquire(op), c, Out(b, ReadSeq(op)), k + 1);
    StepFirst(sh, Fast(op), c, Out(sh, Acquire(op)), k + 2);
    StepFirst(sh, Idle, c, Out(sh, Fast(op)), k + 3);
    k := k + 4;
  }

  lemma TestBlocks(sh: Shared, op: Op, rd: int, g: bool, c: Choice) returns (k: nat)
    requires SharedInv(sh) && SignalerInv(sh, Test, op, rd, g) && sh.cut < rd && At(sh.m, g).refs != 0
    ensures k == 5
    ensures ActN(sh, Signaler(Test, op, rd, g), c, k)
         == Out(Closed(sh).(m := SetWake(Closed(sh).m, g, true)),
                Signaler(QAsleep(sh.m.start, sh.m.orig), op, rd, g))
  {
    TestCloses(sh, op, rd, g, c);
    ClosedInv(sh, op, rd, g);
    k := FlagBlocks(Closed(sh), op, rd, g, c, sh.m.start, sh.m.orig);
    StepFirst(Closed(sh), Signaler(ReadRefs(sh.m.start, sh.m.orig), op, rd, g), c,
              Out(Closed(sh), Signaler(SetFlag(sh.m.start, sh.m.orig), op, rd, g)), k);
    ActNAdds(sh, Signaler(Test, op, rd, g), c, 2, k + 1);
    k := k + 3;
  }

  // ---------- destroying ----------

  const DESTROY := Choice(CallDestroy, false)

  /** A call of destroy that finds nobody counted returns with the flag set. */
  lemma UninterruptedDestroy(sh: Shared)
    ensures var sh' := sh.(m := sh.m.(destroying := true));
            && (sh.m.wcount == 0 ==> ActN(sh, Idle, DESTROY, 2) == Out(sh', Idle))
            && (sh.m.wcount != 0 ==> ActN(sh, Idle, DESTROY, 3) == Out(sh', Destroyer(DAsleep)))
  {
    var o := Act(sh, Idle, DESTROY);
    assert o == Out(sh, Destroyer(SetDestroying));
    var o2 := Act(o.sh, o.l, DESTROY);
    assert o2.sh == sh.(m := sh.m.(destroying := true));
  }

  /** A destroyer in its loop, also one that has just been woken, returns within two steps if nobody is counted, and
      sleeps within three if somebody is. */
  lemma DestroyerEnds(sh: Shared, d: DestroyerPc, c: Choice) returns (k: nat)
    requires LocalInv(sh, Destroyer(d)) && !d.SetDestroying? && sh.m.destroying
    ensures k <= 3 && (sh.m.wcount == 0 ==> k <= 2 && ActN(sh, Destroyer(d), c, k) == Out(sh, Idle))
    ensures sh.m.wcount != 0 && !d.DAsleep? ==> ActN(sh, Destroyer(d), c, k) == Out(sh, Destroyer(DAsleep))
  {
    var o := Act(sh, Destroyer(d), c);
    if sh.m.wcount == 0 {
      k := if d.DLoad? then 1 else 2;
    } else if d.DLoad? {
      assert o == Out(sh, Destroyer(DFutex(sh.m.wcount)));
      k := 2;
    } else if d.DFutex? && d.r != sh.m.wcount {
      assert o == Out(sh, Destroyer(DLoad));
      var o2 := Act(sh, Destroyer(DLoad), c);
      assert o2 == Out(sh, Destroyer(DFutex(sh.m.wcount)));
      k := 3;
    } else {
      k := 1;
    }
  }
}
