/** Counting facts about all threads of a condition variable together, and the proof that
    every step keeps them. */
module CondTally {
  import opened CondMemory
  import opened CondProtocol
  import opened CondInvariant
  import opened Tally
  import opened Numbers

  /** Per slot: references, sleeping and awake members that have taken no signal yet,
      signal wake-ups still to be executed (one or all), quiescers asleep, and threads in
      dec_grefs between the last decrement and the wake-up of the quiescer. */
  datatype SlotCount = SlotCount(refs: int, sleep: int, awake: int, pend: int, pendAll: int,
                                 qsleep: int, inDec: int)

  /** Holders of the inner lock, threads counted in wrefs, thieves of the current G1 that have not
      repaired, sleeping destroyers, and last waiters that still have to wake them. */
  datatype GlobalCount = GlobalCount(lock: int, waiters: int, owed: int, dsleep: int, dpend: int)

  /** A waiter that is awake and has neither taken a signal nor decided to leave. */
  predicate InLoop(w: WaiterPc) {
    match w
    case Dec(leave) => !leave
    case ClearFlag(leave) => !leave
    case WakeQuiescer(leave) => !leave
    case _ => w.Registered? || w.Load? || w.TakeRef? || w.CheckClosed? || w.CheckStart? || w.Futex? || w.Consume?
  }

  predicate IsAsleep(l: Local, x: bool) {
    l.Waiter? && l.w.Asleep? && l.g == x
  }

  predicate IsAwakeMember(cur: StartWord, l: Local, x: bool) {
    l.Waiter? && InLoop(l.w) && l.g == x && cur.start <= l.pos
  }

  /** The thread will execute a FUTEX_WAKE of one sleeper on g_signals[x]. */
  predicate WillWakeOne(l: Local, x: bool) {
    match l
    case Waiter(w, _, g) => w.RepairWake? && g == x
    case Signaler(s, _, _, g) => s == Unlock(WakesOne) && g == x
    case Waking(g, all) => !all && g == x
    case _ => false
  }

  predicate WillWakeAll(l: Local, x: bool) {
    match l
    case Signaler(s, _, _, g) => (s == Unlock(WakesAll) || s == WakeRest) && g == x
    case Waking(g, all) => all && g == x
    case _ => false
  }

  predicate IsQuiescerAsleep(l: Local, x: bool) {
    l.Signaler? && l.s.QAsleep? && l.g == x
  }

  predicate IsInDec(l: Local, x: bool) {
    l.Waiter? && (l.w.ClearFlag? || l.w.WakeQuiescer?) && l.g == x
  }

  predicate IsCounted(l: Local) {
    l.Waiter? && !l.w.Registered?
  }

  /** The thread stole a signal from the current G1 and has not given it back. */
  predicate IsThief(cur: StartWord, l: Local) {
    l.Waiter? && match l.w
                 case Consumed(ep) => Owes(cur, ep, l.pos, l.g)
                 case ReloadSignals(ep, _) => Owes(cur, ep, l.pos, l.g)
                 case RepairTest(ep, _, _, _) => Owes(cur, ep, l.pos, l.g)
                 case RepairCas(ep, _, _, _) => Owes(cur, ep, l.pos, l.g)
                 case _ => false
  }

  predicate IsDestroyerAsleep(l: Local) {
    l.Destroyer? && l.d.DAsleep?
  }

  function RefsW(x: bool): Local -> nat { (l: Local) => One(HoldsRef(l, x)) }
  function SleepW(x: bool): Local -> nat { (l: Local) => One(IsAsleep(l, x)) }
  function AwakeW(cur: StartWord, x: bool): Local -> nat { (l: Local) => One(IsAwakeMember(cur, l, x)) }
  function PendW(x: bool): Local -> nat { (l: Local) => One(WillWakeOne(l, x)) }
  function PendAllW(x: bool): Local -> nat { (l: Local) => One(WillWakeAll(l, x)) }
  function QSleepW(x: bool): Local -> nat { (l: Local) => One(IsQuiescerAsleep(l, x)) }
  function InDecW(x: bool): Local -> nat { (l: Local) => One(IsInDec(l, x)) }
  function LockW(): Local -> nat { (l: Local) => One(HoldsLock(l)) }
  function CountedW(): Local -> nat { (l: Local) => One(IsCounted(l)) }
  function ThiefW(cur: StartWord): Local -> nat { (l: Local) => One(IsThief(cur, l)) }
  function DSleepW(): Local -> nat { (l: Local) => One(IsDestroyerAsleep(l)) }
  function DPendW(): Local -> nat { (l: Local) => One(l.WakeDestroyer?) }

  /** The contribution of one thread. */
  function SlotWeight(cur: StartWord, x: bool, l: Local): SlotCount {
    SlotCount(One(HoldsRef(l, x)), One(IsAsleep(l, x)), One(IsAwakeMember(cur, l, x)), One(WillWakeOne(l, x)),
              One(WillWakeAll(l, x)), One(IsQuiescerAsleep(l, x)), One(IsInDec(l, x)))
  }

  function GlobalWeight(cur: StartWord, l: Local): GlobalCount {
    GlobalCount(One(HoldsLock(l)), One(IsCounted(l)), One(IsThief(cur, l)), One(IsDestroyerAsleep(l)),
                One(l.WakeDestroyer?))
  }

  /** The counts over all threads. */
  function SlotTotal(cur: StartWord, x: bool, ths: seq<Local>): SlotCount {
    SlotCount(Sum(RefsW(x), ths), Sum(SleepW(x), ths), Sum(AwakeW(cur, x), ths), Sum(PendW(x), ths),
              Sum(PendAllW(x), ths), Sum(QSleepW(x), ths), Sum(InDecW(x), ths))
  }

  function GlobalTotal(cur: StartWord, ths: seq<Local>): GlobalCount {
    GlobalCount(Sum(LockW(), ths), Sum(CountedW(), ths), Sum(ThiefW(cur), ths), Sum(DSleepW(), ths),
                Sum(DPendW(), ths))
  }

  function SlotMove(n: SlotCount, o: SlotCount, w: SlotCount): SlotCount {
    SlotCount(n.refs - o.refs + w.refs, n.sleep - o.sleep + w.sleep, n.awake - o.awake + w.awake,
              n.pend - o.pend + w.pend, n.pendAll - o.pendAll + w.pendAll,
              n.qsleep - o.qsleep + w.qsleep, n.inDec - o.inDec + w.inDec)
  }

  function GlobalMove(n: GlobalCount, o: GlobalCount, w: GlobalCount): GlobalCount {
    GlobalCount(n.lock - o.lock + w.lock, n.waiters - o.waiters + w.waiters, n.owed - o.owed + w.owed,
                n.dsleep - o.dsleep + w.dsleep, n.dpend - o.dpend + w.dpend)
  }

  lemma SlotUpdate(cur: StartWord, x: bool, ths: seq<Local>, t: int, l: Local)
    requires 0 <= t < |ths|
    ensures SlotTotal(cur, x, ths[t := l])
         == SlotMove(SlotTotal(cur, x, ths), SlotWeight(cur, x, ths[t]), SlotWeight(cur, x, l))
  {
    SumUpdate(RefsW(x), ths, t, l);
    SumUpdate(SleepW(x), ths, t, l);
    SumUpdate(AwakeW(cur, x), ths, t, l);
    SumUpdate(PendW(x), ths, t, l);
    SumUpdate(PendAllW(x), ths, t, l);
    SumUpdate(QSleepW(x), ths, t, l);
    SumUpdate(InDecW(x), ths, t, l);
  }

  lemma GlobalUpdate(cur: StartWord, ths: seq<Local>, t: int, l: Local)
    requires 0 <= t < |ths|
    ensures GlobalTotal(cur, ths[t := l])
         == GlobalMove(GlobalTotal(cur, ths), GlobalWeight(cur, ths[t]), GlobalWeight(cur, l))
  {
    SumUpdate(LockW(), ths, t, l);
    SumUpdate(CountedW(), ths, t, l);
    SumUpdate(ThiefW(cur), ths, t, l);
    SumUpdate(DSleepW(), ths, t, l);
    SumUpdate(DPendW(), ths, t, l);
  }

  // ---------- the counting invariants ----------

  /** A signal that lies unused in an open slot while members of that slot sleep has a
      wake-up on its way or an awake member that will look at the slot again. */
  predicate NotForgotten(x: Slot, n: SlotCount) {
    !x.closed ==> n.sleep == 0 || n.pendAll > 0 || x.signals <= n.pend + n.awake
  }

  /** A quiescer that sleeps will be woken by the last reference holder. */
  predicate QuiescerCovered(x: Slot, n: SlotCount) {
    n.qsleep == 0 || (x.wake && x.refs >= 1) || n.inDec > 0
  }

  predicate SlotInv(x: Slot, n: SlotCount) {
    && x.refs == n.refs
    && NotForgotten(x, n)
    && QuiescerCovered(x, n)
  }

  /** How many sequence numbers G1 has; the others from g1_start on belong to G2. */
  function Members(sh: Shared): int {
    (if Window(sh) then sh.m.next else sh.cut) - sh.m.start
  }

  /** Each member of G2, and of G1 until it is closed, waits or has taken a signal; when G1 is closed
      members may also just leave. */
  predicate MembersFit(sh: Shared, a: SlotCount, b: SlotCount) {
    && a.sleep + a.awake + sh.taken + sh.stray <= Members(sh)
    && (!At(sh.m, G1(sh)).closed ==> a.sleep + a.awake + sh.taken + sh.stray == Members(sh))
    && b.sleep + b.awake + sh.early == sh.m.next - sh.m.start - Members(sh)
  }

  /** Until G1 closes, the signals it holds, those its members took and those that thieves
      owe it are exactly the ones posted to it and the ones it got in excess. */
  predicate Conserved(sh: Shared, n: GlobalCount) {
    var x := At(sh.m, G1(sh));
    !x.closed ==> x.signals + sh.taken + n.owed == sh.total - sh.m.start + sh.extra
  }

  /** When G1 has been closed, each member still asleep has its own wake-up on the way. */
  predicate Draining(sh: Shared, a: SlotCount, n: GlobalCount) {
    At(sh.m, G1(sh)).closed ==> a.pendAll > 0 || a.sleep <= a.pend + n.owed
  }

  predicate DestroyerCovered(sh: Shared, n: GlobalCount) {
    n.dsleep == 0 || (sh.m.destroying && sh.m.wcount >= 1) || n.dpend > 0
  }

  predicate GlobalInv(sh: Shared, a: SlotCount, b: SlotCount, n: GlobalCount) {
    && n.lock == One(sh.m.locked)
    && n.waiters == sh.m.wcount
    && MembersFit(sh, a, b)
    && Conserved(sh, n)
    && Draining(sh, a, n)
    && DestroyerCovered(sh, n)
  }

  predicate SlotCovers(n: SlotCount, w: SlotCount) {
    && n.refs >= w.refs && n.sleep >= w.sleep && n.awake >= w.awake && n.pend >= w.pend
    && n.pendAll >= w.pendAll && n.qsleep >= w.qsleep && n.inDec >= w.inDec
  }

  predicate GlobalCovers(n: GlobalCount, w: GlobalCount) {
    n.lock >= w.lock && n.waiters >= w.waiters && n.owed >= w.owed && n.dsleep >= w.dsleep && n.dpend >= w.dpend
  }

  /** A step that is a wake call which finds nobody: the word's sleepers are counted as none. */
  predicate NobodyCounted(d: Duty, x: bool, n: SlotCount) {
    && (d == Duty(Signals(x), false) || d == Duty(Signals(x), true) ==> n.sleep == 0)
    && (d == Duty(GRefs(x), true) ==> n.qsleep == 0)
  }

  // ---------- a step of one thread ----------

  /** g_refs moves with the references the waiter holds. */
  lemma RefsMoveWaiter(sh: Shared, w: WaiterPc, pos: int, g: bool, c: Choice, x: bool)
    ensures var o := ActWaiter(sh, w, pos, g, c);
            At(o.sh.m, x).refs - At(sh.m, x).refs
            == One(HoldsRef(o.l, x)) - One(HoldsRef(Waiter(w, pos, g), x))
  {
  }

  lemma QuiescerStepWaiter(sh: Shared, w: WaiterPc, pos: int, g: bool, c: Choice, x: bool, n: SlotCount)
    requires SlotInv(At(sh.m, x), n) && SlotCovers(n, SlotWeight(Current(sh), x, Waiter(w, pos, g)))
    requires NobodyCounted(NextWake(Waiter(w, pos, g)), x, n)
    ensures var o := ActWaiter(sh, w, pos, g, c);
            QuiescerCovered(At(o.sh.m, x), SlotMove(n, SlotWeight(Current(sh), x, Waiter(w, pos, g)),
                                                    SlotWeight(Current(sh), x, o.l)))
  {
  }

  lemma SignalStepWaiter(sh: Shared, w: WaiterPc, pos: int, g: bool, c: Choice, x: bool, n: SlotCount)
    requires SharedInv(sh) && WaiterInv(sh, w, pos, g)
    requires NotForgotten(At(sh.m, x), n) && SlotCovers(n, SlotWeight(Current(sh), x, Waiter(w, pos, g)))
    requires NobodyCounted(NextWake(Waiter(w, pos, g)), x, n)
    ensures var o := ActWaiter(sh, w, pos, g, c);
            NotForgotten(At(o.sh.m, x), SlotMove(n, SlotWeight(Current(sh), x, Waiter(w, pos, g)),
                                                 SlotWeight(Current(sh), x, o.l)))
  {
  }

  /** The lock's holder has no references, and g_refs only gets a flag from it. */
  lemma RefsMoveSignaler(sh: Shared, s: SignalerPc, op: Op, rd: int, g: bool, c: Choice, x: bool)
    ensures var o := ActSignaler(sh, s, op, rd, g, c);
            && At(o.sh.m, x).refs == At(sh.m, x).refs && !HoldsRef(o.l, x)
            && (At(sh.m, x).wake ==> At(o.sh.m, x).wake)
  {
  }

  lemma QuiescerStepSignaler(sh: Shared, s: SignalerPc, op: Op, rd: int, g: bool, c: Choice, x: bool, n: SlotCount)
    requires SignalerInv(sh, s, op, rd, g) && At(sh.m, x).refs >= 0
    requires QuiescerCovered(At(sh.m, x), n) && SlotCovers(n, SlotWeight(Current(sh), x, Signaler(s, op, rd, g)))
    ensures var o := ActSignaler(sh, s, op, rd, g, c);
            QuiescerCovered(At(o.sh.m, x), SlotMove(n, SlotWeight(Current(sh), x, Signaler(s, op, rd, g)),
                                                    SlotWeight(Current(sh), x, o.l)))
  {
    RefsMoveSignaler(sh, s, op, rd, g, c, x);
  }

  lemma SignalStepSignaler(sh: Shared, s: SignalerPc, op: Op, rd: int, g: bool, c: Choice, x: bool, n: SlotCount)
    requires SharedInv(sh) && SignalerInv(sh, s, op, rd, g) && !s.Advance?
    requires NotForgotten(At(sh.m, x), n) && SlotCovers(n, SlotWeight(Current(sh), x, Signaler(s, op, rd, g)))
    requires NobodyCounted(NextWake(Signaler(s, op, rd, g)), x, n)
    requires s.ReopenSlot? && g == x ==> n.sleep == 0
    ensures var o := ActSignaler(sh, s, op, rd, g, c);
            NotForgotten(At(o.sh.m, x), SlotMove(n, SlotWeight(Current(sh), x, Signaler(s, op, rd, g)),
                                                 SlotWeight(Current(sh), x, o.l)))
  {
  }

  lemma SlotStepEntry(sh: Shared, l: Local, c: Choice, x: bool, n: SlotCount)
    requires SharedInv(sh) && LocalInv(sh, l) && !InCall(l)
    requires SlotInv(At(sh.m, x), n) && SlotCovers(n, SlotWeight(Current(sh), x, l))
    requires NobodyCounted(NextWake(l), x, n)
    ensures SlotInv(At(Act(sh, l, c).sh.m, x),
                    SlotMove(n, SlotWeight(Current(sh), x, l), SlotWeight(Current(sh), x, Act(sh, l, c).l)))
  {
  }

  lemma SlotStep(sh: Shared, l: Local, c: Choice, x: bool, n: SlotCount)
    requires SharedInv(sh) && LocalInv(sh, l)
    requires SlotInv(At(sh.m, x), n) && SlotCovers(n, SlotWeight(Current(sh), x, l))
    requires !(l.Signaler? && l.s.Advance?)
    requires NobodyCounted(NextWake(l), x, n)
    requires l.Signaler? && l.s.ReopenSlot? && l.g == x ==> n.sleep == 0
    ensures SlotInv(At(Act(sh, l, c).sh.m, x),
                    SlotMove(n, SlotWeight(Current(sh), x, l), SlotWeight(Current(sh), x, Act(sh, l, c).l)))
  {
    match l
    case Waiter(w, pos, g) =>
      RefsMoveWaiter(sh, w, pos, g, c, x);
      QuiescerStepWaiter(sh, w, pos, g, c, x, n);
      SignalStepWaiter(sh, w, pos, g, c, x, n);
    case Signaler(s, op, rd, g) =>
      RefsMoveSignaler(sh, s, op, rd, g, c, x);
      QuiescerStepSignaler(sh, s, op, rd, g, c, x, n);
      SignalStepSignaler(sh, s, op, rd, g, c, x, n);
    case _ => SlotStepEntry(sh, l, c, x, n);
  }

  /** wrefs moves with the waiters between stage 2 and stage 5. */
  lemma WaiterIsCounted(sh: Shared, w: WaiterPc, pos: int, g: bool, c: Choice)
    ensures var o := ActWaiter(sh, w, pos, g, c);
            && o.sh.m.wcount - sh.m.wcount == One(IsCounted(o.l)) - One(IsCounted(Waiter(w, pos, g)))
            && !HoldsLock(o.l) && !IsDestroyerAsleep(o.l) && o.sh.m.destroying == sh.m.destroying
            && (o.l.WakeDestroyer? <==> w.Leave? && sh.m.destroying && sh.m.wcount == 1)
  {
  }

  lemma CountersStepWaiter(sh: Shared, w: WaiterPc, pos: int, g: bool, c: Choice, n: GlobalCount)
    requires SharedInv(sh) && WaiterInv(sh, w, pos, g)
    requires GlobalCovers(n, GlobalWeight(Current(sh), Waiter(w, pos, g)))
    requires n.lock == One(sh.m.locked) && n.waiters == sh.m.wcount && DestroyerCovered(sh, n)
    ensures var o := ActWaiter(sh, w, pos, g, c);
            var n' := GlobalMove(n, GlobalWeight(Current(sh), Waiter(w, pos, g)), GlobalWeight(Current(sh), o.l));
            n'.lock == One(o.sh.m.locked) && n'.waiters == o.sh.m.wcount && DestroyerCovered(o.sh, n')
  {
    WaiterStepAlike(sh, w, pos, g, c);
    WaiterIsCounted(sh, w, pos, g, c);
  }

  lemma CountersStepSignaler(sh: Shared, s: SignalerPc, op: Op, rd: int, g: bool, c: Choice, n: GlobalCount)
    requires SharedInv(sh) && SignalerInv(sh, s, op, rd, g)
    requires GlobalCovers(n, GlobalWeight(Current(sh), Signaler(s, op, rd, g)))
    requires n.lock == One(sh.m.locked) && n.waiters == sh.m.wcount && DestroyerCovered(sh, n)
    requires NextWake(Signaler(s, op, rd, g)) == Duty(WRefs, true) ==> n.dsleep == 0
    ensures var o := ActSignaler(sh, s, op, rd, g, c);
            var n' := GlobalMove(n, GlobalWeight(Current(sh), Signaler(s, op, rd, g)), GlobalWeight(Current(sh), o.l));
            n'.lock == One(o.sh.m.locked) && n'.waiters == o.sh.m.wcount && DestroyerCovered(o.sh, n')
  {
  }

  lemma CountersStepEntry(sh: Shared, l: Local, c: Choice, n: GlobalCount)
    requires SharedInv(sh) && LocalInv(sh, l) && !InCall(l)
    requires GlobalCovers(n, GlobalWeight(Current(sh), l))
    requires n.lock == One(sh.m.locked) && n.waiters == sh.m.wcount && DestroyerCovered(sh, n)
    requires NextWake(l) == Duty(WRefs, true) ==> n.dsleep == 0
    ensures var o := Act(sh, l, c);
            var n' := GlobalMove(n, GlobalWeight(Current(sh), l), GlobalWeight(Current(sh), o.l));
            n'.lock == One(o.sh.m.locked) && n'.waiters == o.sh.m.wcount && DestroyerCovered(o.sh, n')
  {
  }

  lemma CountersStep(sh: Shared, l: Local, c: Choice, n: GlobalCount)
    requires SharedInv(sh) && LocalInv(sh, l)
    requires GlobalCovers(n, GlobalWeight(Current(sh), l))
    requires n.lock == One(sh.m.locked) && n.waiters == sh.m.wcount && DestroyerCovered(sh, n)
    requires NextWake(l) == Duty(WRefs, true) ==> n.dsleep == 0
    ensures var o := Act(sh, l, c);
            var n' := GlobalMove(n, GlobalWeight(Current(sh), l), GlobalWeight(Current(sh), o.l));
            n'.lock == One(o.sh.m.locked) && n'.waiters == o.sh.m.wcount && DestroyerCovered(o.sh, n')
  {
    match l
    case Waiter(w, pos, g) => CountersStepWaiter(sh, w, pos, g, c, n);
    case Signaler(s, op, rd, g) => CountersStepSignaler(sh, s, op, rd, g, c, n);
    case _ => CountersStepEntry(sh, l, c, n);
  }

  /** A waiter is a member until it takes a signal or its group is closed, and never becomes one again. */
  lemma MemberOnce(sh: Shared, w: WaiterPc, pos: int, g: bool, c: Choice, x: bool)
    requires SharedInv(sh) && WaiterInv(sh, w, pos, g)
    ensures var o := ActWaiter(sh, w, pos, g, c);
            var cur := Current(sh);
            var now := One(IsAsleep(o.l, x)) + One(IsAwakeMember(cur, o.l, x))
                       + (if x == G1(sh) then o.sh.taken - sh.taken else o.sh.early - sh.early);
            var then_ := One(IsAsleep(Waiter(w, pos, g), x)) + One(IsAwakeMember(cur, Waiter(w, pos, g), x));
            now <= then_ && (x != G1(sh) || !At(sh.m, x).closed ==> now == then_)
  {
  }

  lemma MembersStepWaiter(sh: Shared, w: WaiterPc, pos: int, g: bool, c: Choice, a: SlotCount, b: SlotCount)
    requires SharedInv(sh) && WaiterInv(sh, w, pos, g)
    requires MembersFit(sh, a, b)
    ensures var o := ActWaiter(sh, w, pos, g, c);
            var cur := Current(sh);
            MembersFit(o.sh, SlotMove(a, SlotWeight(cur, G1(sh), Waiter(w, pos, g)), SlotWeight(cur, G1(sh), o.l)),
                       SlotMove(b, SlotWeight(cur, !G1(sh), Waiter(w, pos, g)), SlotWeight(cur, !G1(sh), o.l)))
  {
    WaiterStepAlike(sh, w, pos, g, c);
    MemberOnce(sh, w, pos, g, c, G1(sh));
    MemberOnce(sh, w, pos, g, c, !G1(sh));
  }

  lemma MembersStepSignaler(sh: Shared, s: SignalerPc, op: Op, rd: int, g: bool, c: Choice, a: SlotCount, b: SlotCount)
    requires SharedInv(sh) && SignalerInv(sh, s, op, rd, g) && !s.Advance?
    requires MembersFit(sh, a, b)
    ensures var o := ActSignaler(sh, s, op, rd, g, c);
            var cur := Current(sh);
            MembersFit(o.sh, SlotMove(a, SlotWeight(cur, G1(sh), Signaler(s, op, rd, g)), SlotWeight(cur, G1(sh), o.l)),
                       SlotMove(b, SlotWeight(cur, !G1(sh), Signaler(s, op, rd, g)), SlotWeight(cur, !G1(sh), o.l)))
  {
  }

  lemma MembersStepEntry(sh: Shared, l: Local, c: Choice, a: SlotCount, b: SlotCount)
    requires SharedInv(sh) && LocalInv(sh, l) && !InCall(l)
    requires MembersFit(sh, a, b)
    ensures var o := Act(sh, l, c);
            var cur := Current(sh);
            MembersFit(o.sh, SlotMove(a, SlotWeight(cur, G1(sh), l), SlotWeight(cur, G1(sh), o.l)),
                       SlotMove(b, SlotWeight(cur, !G1(sh), l), SlotWeight(cur, !G1(sh), o.l)))
  {
  }

  lemma MembersStep(sh: Shared, l: Local, c: Choice, a: SlotCount, b: SlotCount)
    requires SharedInv(sh) && LocalInv(sh, l)
    requires !(l.Signaler? && l.s.Advance?)
    requires MembersFit(sh, a, b)
    ensures var o := Act(sh, l, c);
            var cur := Current(sh);
            MembersFit(o.sh, SlotMove(a, SlotWeight(cur, G1(sh), l), SlotWeight(cur, G1(sh), o.l)),
                       SlotMove(b, SlotWeight(cur, !G1(sh), l), SlotWeight(cur, !G1(sh), o.l)))
  {
    match l
    case Waiter(w, pos, g) => MembersStepWaiter(sh, w, pos, g, c, a, b);
    case Signaler(s, op, rd, g) => MembersStepSignaler(sh, s, op, rd, g, c, a, b);
    case _ => MembersStepEntry(sh, l, c, a, b);
  }

  predicate MovesSignal(w: WaiterPc) {
    w.Consume? || w.RepairCas?
  }

  /** Other steps neither move a signal nor make or unmake a thief. */
  lemma ThiefStays(sh: Shared, w: WaiterPc, pos: int, g: bool, c: Choice)
    requires WaiterInv(sh, w, pos, g) && !MovesSignal(w)
    ensures var o := ActWaiter(sh, w, pos, g, c);
            && IsThief(Current(sh), o.l) == IsThief(Current(sh), Waiter(w, pos, g))
            && o.sh.taken == sh.taken && o.sh.extra == sh.extra
            && At(o.sh.m, G1(sh)).signals == At(sh.m, G1(sh)).signals
  {
  }

  lemma SignalMoves(sh: Shared, w: WaiterPc, pos: int, g: bool, c: Choice, n: GlobalCount)
    requires SharedInv(sh) && WaiterInv(sh, w, pos, g) && MovesSignal(w)
    requires Conserved(sh, n)
    ensures var o := ActWaiter(sh, w, pos, g, c);
            Conserved(o.sh, GlobalMove(n, GlobalWeight(Current(sh), Waiter(w, pos, g)), GlobalWeight(Current(sh), o.l)))
  {
  }

  lemma ConservedStepWaiter(sh: Shared, w: WaiterPc, pos: int, g: bool, c: Choice, n: GlobalCount)
    requires SharedInv(sh) && WaiterInv(sh, w, pos, g)
    requires Conserved(sh, n)
    ensures var o := ActWaiter(sh, w, pos, g, c);
            Conserved(o.sh, GlobalMove(n, GlobalWeight(Current(sh), Waiter(w, pos, g)), GlobalWeight(Current(sh), o.l)))
  {
    if MovesSignal(w) {
      SignalMoves(sh, w, pos, g, c, n);
    } else {
      ThiefStays(sh, w, pos, g, c);
      WaiterStepAlike(sh, w, pos, g, c);
    }
  }

  lemma ConservedStepSignaler(sh: Shared, s: SignalerPc, op: Op, rd: int, g: bool, c: Choice, n: GlobalCount)
    requires SharedInv(sh) && SignalerInv(sh, s, op, rd, g) && !s.Advance?
    requires Conserved(sh, n)
    ensures var o := ActSignaler(sh, s, op, rd, g, c);
            Conserved(o.sh, GlobalMove(n, GlobalWeight(Current(sh), Signaler(s, op, rd, g)),
                                       GlobalWeight(Current(sh), o.l)))
  {
  }

  lemma ConservedStepEntry(sh: Shared, l: Local, c: Choice, n: GlobalCount)
    requires SharedInv(sh) && LocalInv(sh, l) && !InCall(l)
    requires Conserved(sh, n)
    ensures var o := Act(sh, l, c);
            Conserved(o.sh, GlobalMove(n, GlobalWeight(Current(sh), l), GlobalWeight(Current(sh), o.l)))
  {
  }

  lemma ConservedStep(sh: Shared, l: Local, c: Choice, n: GlobalCount)
    requires SharedInv(sh) && LocalInv(sh, l)
    requires !(l.Signaler? && l.s.Advance?)
    requires Conserved(sh, n)
    ensures var o := Act(sh, l, c);
            Conserved(o.sh, GlobalMove(n, GlobalWeight(Current(sh), l), GlobalWeight(Current(sh), o.l)))
  {
    match l
    case Waiter(w, pos, g) => ConservedStepWaiter(sh, w, pos, g, c, n);
    case Signaler(s, op, rd, g) => ConservedStepSignaler(sh, s, op, rd, g, c, n);
    case _ => ConservedStepEntry(sh, l, c, n);
  }

  /** Closing G1: everything has been posted, so the members still there are covered. */
  lemma DrainingStarts(sh: Shared, l: Local, c: Choice, a: SlotCount, b: SlotCount, n: GlobalCount)
    requires SharedInv(sh) && LocalInv(sh, l) && l.Signaler? && l.s.CloseG1?
    requires NotForgotten(At(sh.m, G1(sh)), a) && SlotCovers(a, SlotWeight(Current(sh), G1(sh), l))
    requires GlobalCovers(n, GlobalWeight(Current(sh), l))
    requires MembersFit(sh, a, b) && Conserved(sh, n)
    ensures a.pendAll > 0 || a.sleep <= a.pend + n.owed
  {
  }

  lemma DrainingStepWaiter(sh: Shared, w: WaiterPc, pos: int, g: bool, c: Choice, a: SlotCount, n: GlobalCount)
    requires SharedInv(sh) && WaiterInv(sh, w, pos, g) && At(sh.m, G1(sh)).closed && Draining(sh, a, n)
    requires SlotCovers(a, SlotWeight(Current(sh), G1(sh), Waiter(w, pos, g)))
    requires GlobalCovers(n, GlobalWeight(Current(sh), Waiter(w, pos, g)))
    requires NobodyCounted(NextWake(Waiter(w, pos, g)), G1(sh), a)
    ensures var o := ActWaiter(sh, w, pos, g, c);
            var cur := Current(sh);
            Draining(o.sh, SlotMove(a, SlotWeight(cur, G1(sh), Waiter(w, pos, g)), SlotWeight(cur, G1(sh), o.l)),
                     GlobalMove(n, GlobalWeight(cur, Waiter(w, pos, g)), GlobalWeight(cur, o.l)))
  {
  }

  lemma DrainingStepSignaler(sh: Shared, s: SignalerPc, op: Op, rd: int, g: bool, c: Choice, a: SlotCount,
                             n: GlobalCount)
    requires SharedInv(sh) && SignalerInv(sh, s, op, rd, g) && At(sh.m, G1(sh)).closed && Draining(sh, a, n)
    requires !s.Advance? && SlotCovers(a, SlotWeight(Current(sh), G1(sh), Signaler(s, op, rd, g)))
    requires NobodyCounted(NextWake(Signaler(s, op, rd, g)), G1(sh), a)
    ensures var o := ActSignaler(sh, s, op, rd, g, c);
            var cur := Current(sh);
            Draining(o.sh, SlotMove(a, SlotWeight(cur, G1(sh), Signaler(s, op, rd, g)), SlotWeight(cur, G1(sh), o.l)),
                     GlobalMove(n, GlobalWeight(cur, Signaler(s, op, rd, g)), GlobalWeight(cur, o.l)))
  {
  }

  lemma DrainingStep(sh: Shared, l: Local, c: Choice, a: SlotCount, n: GlobalCount)
    requires SharedInv(sh) && LocalInv(sh, l) && At(sh.m, G1(sh)).closed && Draining(sh, a, n)
    requires SlotCovers(a, SlotWeight(Current(sh), G1(sh), l)) && GlobalCovers(n, GlobalWeight(Current(sh), l))
    requires !(l.Signaler? && l.s.Advance?)
    requires NobodyCounted(NextWake(l), G1(sh), a)
    ensures var o := Act(sh, l, c);
            Draining(o.sh, SlotMove(a, SlotWeight(Current(sh), G1(sh), l), SlotWeight(Current(sh), G1(sh), o.l)),
                     GlobalMove(n, GlobalWeight(Current(sh), l), GlobalWeight(Current(sh), o.l)))
  {
    match l
    case Waiter(w, pos, g) => DrainingStepWaiter(sh, w, pos, g, c, a, n);
    case Signaler(s, op, rd, g) => DrainingStepSignaler(sh, s, op, rd, g, c, a, n);
    case _ =>
  }
}
