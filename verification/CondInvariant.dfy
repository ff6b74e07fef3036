/** What holds of the shared words, and of each thread's place in the code, in every
    reachable state, and the proof that one step of one thread keeps it. */
module CondInvariant {
  import opened CondMemory
  import opened CondProtocol

  /** The start of the run and every group switch after the first leave a non-empty G1. */
  predicate NonEmptyOrFirst(sh: Shared) {
    sh.m.orig >= 1 || (sh.m.start == 0 && !sh.m.bit)
  }

  /** The group roles and sizes in each phase of a switch. */
  predicate PhaseInv(sh: Shared) {
    var m := sh.m;
    var x := At(m, G1(sh));
    var y := At(m, !G1(sh));
    match sh.phase
    case Open =>
      && m.bit == m.g2 && !x.closed && !y.closed && NonEmptyOrFirst(sh)
      && sh.cut == m.start + m.orig && 0 <= x.size <= m.orig && sh.total == sh.cut - x.size
    case Closing =>
      && m.bit == m.g2 && x.closed && !y.closed && NonEmptyOrFirst(sh)
      && sh.cut == m.start + m.orig && x.size == 0 && sh.total == sh.cut
    case Drained =>
      && m.bit == m.g2 && x.closed && !y.closed && NonEmptyOrFirst(sh)
      && sh.cut == m.start + m.orig && x.size == 0 && sh.total == sh.cut
    case Advanced =>
      && m.bit != m.g2 && !x.closed && y.closed
      && x.size == 0 && m.start == sh.cut == sh.total
    case Reopened =>
      && m.bit != m.g2 && !x.closed && !y.closed
      && x.size == 0 && m.start == sh.cut == sh.total
    case Flipped =>
      && m.bit == m.g2 && !x.closed && !y.closed
      && x.size == 0 && sh.total == m.start < sh.cut
    case Sized =>
      && m.bit == m.g2 && !x.closed && !y.closed
      && x.size == sh.cut - m.start && sh.total == m.start < sh.cut
  }

  predicate SharedInv(sh: Shared) {
    && 0 <= sh.m.start <= sh.cut <= sh.m.next
    && sh.m.s0.signals >= 0 && sh.m.s1.signals >= 0
    && sh.taken >= 0 && sh.extra >= 0 && sh.stray >= 0 && sh.early >= 0
    && At(sh.m, !G1(sh)).size == 0
    && (!sh.m.locked ==> sh.phase == Open)
    && PhaseInv(sh)
  }

  /** Between the advance of g1_start and the flip of wseq new waiters still join the
      group that g1_start already calls G1. */
  predicate Window(sh: Shared) {
    sh.phase == Advanced || sh.phase == Reopened
  }

  /** The partition of the waiters: slot and sequence number agree with the groups. */
  predicate Place(sh: Shared, pos: int, g: bool) {
    && 0 <= pos < sh.m.next
    && if g == G1(sh) then Window(sh) || pos < sh.cut
       else pos < sh.m.start || (!Window(sh) && sh.cut <= pos)
  }

  /** The slot that the switch in progress has drained and not yet reopened. */
  predicate Shut(sh: Shared, g: bool) {
    (sh.phase == Drained && g == G1(sh)) || (sh.phase == Advanced && g != G1(sh))
  }

  predicate WaiterInv(sh: Shared, w: WaiterPc, pos: int, g: bool) {
    && Place(sh, pos, g)
    && match w
       case CheckStart => !Shut(sh, g)
       case Futex => !Shut(sh, g) && sh.m.start <= pos
       case Asleep => !Shut(sh, g) && sh.m.start <= pos
       case Dec(leave) => leave ==> pos < sh.total
       case ClearFlag(leave) => leave ==> pos < sh.total
       case WakeQuiescer(leave) => leave ==> pos < sh.total
       case Consume(v) => v != 0
       case Consumed(ep) => Rank(ep) <= Rank(Current(sh))
       case ReloadSignals(ep, w) => RepairInv(sh, ep, w, pos, g)
       case RepairTest(ep, w, _, sc) => RepairInv(sh, ep, w, pos, g) && SawClosed(sh, w, sc)
       case RepairCas(ep, w, _, sc) => RepairInv(sh, ep, w, pos, g) && SawClosed(sh, w, sc)
       case Leave(took) => !took ==> pos < sh.total
       case _ => true
  }

  predicate RepairInv(sh: Shared, ep: StartWord, w: StartWord, pos: int, g: bool) {
    Rank(ep) <= Rank(w) <= Rank(Current(sh)) && pos < w.start && g == !w.bit
  }

  /** A closed flag seen since g1_start was read stays set until g1_start advances. */
  predicate SawClosed(sh: Shared, w: StartWord, sc: bool) {
    sc && w == Current(sh) ==> At(sh.m, G1(sh)).closed
  }

  /** What the holder of the inner lock knows. */
  predicate SignalerInv(sh: Shared, s: SignalerPc, op: Op, rd: int, g: bool) {
    var size := At(sh.m, g).size;
    && sh.m.locked && rd <= sh.m.next
    && (s.ReopenSlot? || s.Flip? <==> g != G1(sh))
    && match s
       case Post => sh.phase == Open && op == Signal && size > 0
       case PostRest => sh.phase == Open && op == Broadcast && size > 0 && sh.cut <= rd
       case WakeRest => sh.phase == Open && op == Broadcast && size == 0 && sh.cut <= rd
       case Test => sh.phase == Open && size == 0 && sh.cut <= rd
       case CloseG1(os, oo) => sh.phase == Open && size == 0 && Switching(sh, rd, os, oo)
       case ReadRefs(os, oo) => sh.phase == Closing && Switching(sh, rd, os, oo)
       case SetFlag(os, oo) => sh.phase == Closing && Switching(sh, rd, os, oo)
       case QFutex(os, oo, r) => sh.phase == Closing && Switching(sh, rd, os, oo) && r != 0
       case QAsleep(os, oo) => sh.phase == Closing && Switching(sh, rd, os, oo)
       case Reload(os, oo) => sh.phase == Closing && Switching(sh, rd, os, oo)
       case Advance(os, oo) => sh.phase == Drained && Switching(sh, rd, os, oo)
       case ReopenSlot(os, oo) => sh.phase == Advanced && os + oo == sh.m.start < rd
       case Flip(os, oo) => sh.phase == Reopened && os + oo == sh.m.start < rd
       case AddSize(os, oo, sx) => sh.phase == Flipped && os + oo == sh.m.start && sx == sh.cut && rd <= sh.cut
       case SetOrig(os, oo, sx) => sh.phase == Sized && os + oo == sh.m.start && sx == sh.cut && rd <= sh.cut
       case PostAll => sh.phase == Open && op == Broadcast && size > 0 && rd <= sh.cut
       case Unlock(wakes) =>
         && sh.phase == Open
         && (op == Signal && wakes == NoWake ==> sh.total == rd)
         && (op == Broadcast ==> sh.total >= rd)
  }

  predicate Switching(sh: Shared, rd: int, os: int, oo: int) {
    os == sh.m.start && oo == sh.m.orig && sh.cut < rd
  }

  predicate LocalInv(sh: Shared, l: Local) {
    match l
    case Waiter(w, pos, g) => WaiterInv(sh, w, pos, g)
    case ReadSeq(_) => sh.m.locked && sh.phase == Open
    case Signaler(s, op, rd, g) => SignalerInv(sh, s, op, rd, g)
    case Destroyer(d) => d.DFutex? ==> d.r != 0
    case _ => true
  }

  predicate HoldsLock(l: Local) {
    l.ReadSeq? || l.Signaler?
  }

  predicate HoldsRef(l: Local, g: bool) {
    l.Waiter? && l.g == g && (l.w.CheckClosed? || l.w.CheckStart? || l.w.Futex? || l.w.Asleep? || l.w.Dec?)
  }

  // ---------- steps that only move counters ----------

  /** The groups, their sizes and roles are the same in both states. */
  predicate Alike(sh: Shared, sh': Shared) {
    && sh'.m.start == sh.m.start && sh'.m.bit == sh.m.bit && sh'.m.g2 == sh.m.g2
    && sh'.m.orig == sh.m.orig && sh'.m.locked == sh.m.locked && sh'.m.next == sh.m.next
    && sh'.m.s0.size == sh.m.s0.size && sh'.m.s1.size == sh.m.s1.size
    && sh'.m.s0.closed == sh.m.s0.closed && sh'.m.s1.closed == sh.m.s1.closed
    && sh'.cut == sh.cut && sh'.total == sh.total && sh'.phase == sh.phase
  }

  lemma SignalsAlike(sh: Shared, pos: int, g: bool, ep: StartWord)
    ensures Alike(sh, Took(sh, pos, g)) && Alike(sh, Repaired(sh, ep, pos, g))
  {
  }

  lemma CountersAlike(sh: Shared, g: bool, d: int, b: bool)
    ensures Alike(sh, sh.(m := AddWaiters(sh.m, d)))
    ensures Alike(sh, sh.(m := AddRefs(sh.m, g, d)))
    ensures Alike(sh, sh.(m := SetWake(sh.m, g, b)))
  {
  }

  lemma WaiterStepAlike(sh: Shared, w: WaiterPc, pos: int, g: bool, c: Choice)
    ensures Alike(sh, ActWaiter(sh, w, pos, g, c).sh)
  {
    match w
    case Registered => CountersAlike(sh, g, 1, false);
    case TakeRef => CountersAlike(sh, g, 1, false);
    case Dec(_) => CountersAlike(sh, g, -1, false);
    case ClearFlag(_) => CountersAlike(sh, g, 0, false);
    case Leave(_) => CountersAlike(sh, g, -1, false);
    case Consume(_) => SignalsAlike(sh, pos, g, Current(sh));
    case RepairCas(ep, _, _, _) => SignalsAlike(sh, pos, g, ep);
    case _ =>
  }

  lemma AlikeKeeps(sh: Shared, sh': Shared, k: Local)
    requires Alike(sh, sh') && LocalInv(sh, k)
    ensures LocalInv(sh', k)
  {
  }

  // ---------- the shared state ----------

  lemma SharedStepWaiter(sh: Shared, w: WaiterPc, pos: int, g: bool, c: Choice)
    requires SharedInv(sh) && WaiterInv(sh, w, pos, g)
    ensures SharedInv(ActWaiter(sh, w, pos, g, c).sh)
  {
    WaiterStepAlike(sh, w, pos, g, c);
  }

  predicate Posting(s: SignalerPc) {
    s.Post? || s.PostRest? || s.WakeRest? || s.Test? || s.PostAll? || s.Unlock? || s.SetOrig?
  }

  lemma SharedStepPosting(sh: Shared, s: SignalerPc, op: Op, rd: int, g: bool, c: Choice)
    requires SharedInv(sh) && SignalerInv(sh, s, op, rd, g) && Posting(s)
    ensures SharedInv(ActSignaler(sh, s, op, rd, g, c).sh)
  {
  }

  lemma SharedStepSwitching(sh: Shared, s: SignalerPc, op: Op, rd: int, g: bool, c: Choice)
    requires SharedInv(sh) && SignalerInv(sh, s, op, rd, g) && !Posting(s)
    ensures SharedInv(ActSignaler(sh, s, op, rd, g, c).sh)
  {
  }

  lemma SharedStepSignaler(sh: Shared, s: SignalerPc, op: Op, rd: int, g: bool, c: Choice)
    requires SharedInv(sh) && SignalerInv(sh, s, op, rd, g)
    ensures SharedInv(ActSignaler(sh, s, op, rd, g, c).sh)
  {
    if Posting(s) {
      SharedStepPosting(sh, s, op, rd, g, c);
    } else {
      SharedStepSwitching(sh, s, op, rd, g, c);
    }
  }

  lemma SharedStep(sh: Shared, l: Local, c: Choice)
    requires SharedInv(sh) && LocalInv(sh, l)
    ensures SharedInv(Act(sh, l, c).sh)
  {
    match l
    case Waiter(w, pos, g) => SharedStepWaiter(sh, w, pos, g, c);
    case Signaler(s, op, rd, g) => SharedStepSignaler(sh, s, op, rd, g, c);
    case _ =>
  }

  // ---------- the thread itself ----------

  lemma SelfStepWaiter(sh: Shared, w: WaiterPc, pos: int, g: bool, c: Choice)
    requires SharedInv(sh) && WaiterInv(sh, w, pos, g)
    ensures LocalInv(ActWaiter(sh, w, pos, g, c).sh, ActWaiter(sh, w, pos, g, c).l)
  {
    var o := ActWaiter(sh, w, pos, g, c);
    WaiterStepAlike(sh, w, pos, g, c);
    SelfMoveWaiter(sh, w, pos, g, c);
    AlikeKeeps(sh, o.sh, o.l);
  }

  /** A waiter's new place holds already in the state it leaves. */
  lemma SelfMoveWaiter(sh: Shared, w: WaiterPc, pos: int, g: bool, c: Choice)
    requires SharedInv(sh) && WaiterInv(sh, w, pos, g)
    ensures LocalInv(sh, ActWaiter(sh, w, pos, g, c).l)
  {
    if Repairing(w) {
      SelfRepair(sh, w, pos, g, c);
    } else {
      SelfWait(sh, w, pos, g, c);
    }
  }

  predicate Repairing(w: WaiterPc) {
    w.Consumed? || w.ReloadSignals? || w.RepairTest? || w.RepairCas?
  }

  lemma SelfRepair(sh: Shared, w: WaiterPc, pos: int, g: bool, c: Choice)
    requires SharedInv(sh) && WaiterInv(sh, w, pos, g) && Repairing(w)
    ensures LocalInv(sh, ActWaiter(sh, w, pos, g, c).l)
  {
  }

  lemma SelfWait(sh: Shared, w: WaiterPc, pos: int, g: bool, c: Choice)
    requires SharedInv(sh) && WaiterInv(sh, w, pos, g) && !Repairing(w)
    ensures LocalInv(sh, ActWaiter(sh, w, pos, g, c).l)
  {
  }

  lemma SelfStepPosting(sh: Shared, s: SignalerPc, op: Op, rd: int, g: bool, c: Choice)
    requires SharedInv(sh) && SignalerInv(sh, s, op, rd, g) && Posting(s)
    ensures LocalInv(ActSignaler(sh, s, op, rd, g, c).sh, ActSignaler(sh, s, op, rd, g, c).l)
  {
  }

  lemma SelfStepSwitching(sh: Shared, s: SignalerPc, op: Op, rd: int, g: bool, c: Choice)
    requires SharedInv(sh) && SignalerInv(sh, s, op, rd, g) && !Posting(s)
    ensures LocalInv(ActSignaler(sh, s, op, rd, g, c).sh, ActSignaler(sh, s, op, rd, g, c).l)
  {
  }

  lemma SelfStep(sh: Shared, l: Local, c: Choice)
    requires SharedInv(sh) && LocalInv(sh, l)
    ensures LocalInv(Act(sh, l, c).sh, Act(sh, l, c).l)
  {
    match l
    case Waiter(w, pos, g) => SelfStepWaiter(sh, w, pos, g, c);
    case Signaler(s, op, rd, g) =>
      if Posting(s) {
        SelfStepPosting(sh, s, op, rd, g, c);
      } else {
        SelfStepSwitching(sh, s, op, rd, g, c);
      }
    case _ =>
  }

  // ---------- the other threads ----------

  /** A signaler's step leaves every waiter in its group. */
  lemma SignalerKeepsPlaces(sh: Shared, s: SignalerPc, op: Op, rd: int, g: bool, c: Choice, pos: int, h: bool)
    requires SharedInv(sh) && SignalerInv(sh, s, op, rd, g) && Place(sh, pos, h)
    ensures Place(ActSignaler(sh, s, op, rd, g, c).sh, pos, h)
  {
  }

  /** What a signaler's step does to the facts that waiters rely on. */
  predicate Onward(sh: Shared, sh': Shared) {
    && sh.total <= sh'.total
    && Rank(Current(sh)) <= Rank(Current(sh'))
    && (Current(sh') == Current(sh) && At(sh.m, G1(sh)).closed ==> At(sh'.m, G1(sh')).closed)
    && (Current(sh') == Current(sh) || (sh.phase == Drained && sh'.m.start == sh.cut))
    && (forall h :: Shut(sh', h) ==> Shut(sh, h) || (At(sh.m, G1(sh)).refs == 0 && h == G1(sh)))
  }

  lemma SignalerGoesOn(sh: Shared, s: SignalerPc, op: Op, rd: int, g: bool, c: Choice)
    requires SharedInv(sh) && SignalerInv(sh, s, op, rd, g)
    ensures Onward(sh, ActSignaler(sh, s, op, rd, g, c).sh)
  {
  }

  lemma OnwardKeepsWaiters(sh: Shared, sh': Shared, w: WaiterPc, pos: int, h: bool)
    requires SharedInv(sh) && WaiterInv(sh, w, pos, h) && Place(sh', pos, h) && Onward(sh, sh')
    requires At(sh.m, G1(sh)).refs == 0 ==> !HoldsRef(Waiter(w, pos, h), G1(sh))
    ensures WaiterInv(sh', w, pos, h)
  {
  }

  lemma SignalerKeepsWaiters(sh: Shared, s: SignalerPc, op: Op, rd: int, g: bool, c: Choice,
                             w: WaiterPc, pos: int, h: bool)
    requires SharedInv(sh) && SignalerInv(sh, s, op, rd, g) && WaiterInv(sh, w, pos, h)
    requires At(sh.m, G1(sh)).refs == 0 ==> !HoldsRef(Waiter(w, pos, h), G1(sh))
    ensures WaiterInv(ActSignaler(sh, s, op, rd, g, c).sh, w, pos, h)
  {
    SignalerKeepsPlaces(sh, s, op, rd, g, c, pos, h);
    SignalerGoesOn(sh, s, op, rd, g, c);
    OnwardKeepsWaiters(sh, ActSignaler(sh, s, op, rd, g, c).sh, w, pos, h);
  }

  predicate InCall(l: Local) {
    l.Waiter? || l.Signaler?
  }

  /** Outside of their critical parts threads register, take the lock or set the destroying flag. */
  lemma EntryChanges(sh: Shared, l: Local, c: Choice)
    requires !InCall(l)
    ensures var sh' := Act(sh, l, c).sh;
            || sh' == sh
            || sh' == sh.(m := TakeSeq(sh.m))
            || sh' == sh.(m := sh.m.(locked := true))
            || sh' == sh.(m := sh.m.(destroying := true))
  {
  }

  lemma RegisteringKeepsWaiter(sh: Shared, sh': Shared, w: WaiterPc, pos: int, g: bool)
    requires sh' == sh.(m := TakeSeq(sh.m)) && WaiterInv(sh, w, pos, g)
    ensures WaiterInv(sh', w, pos, g)
  {
  }

  lemma RegisteringKeepsSignaler(sh: Shared, sh': Shared, s: SignalerPc, op: Op, rd: int, g: bool)
    requires sh' == sh.(m := TakeSeq(sh.m)) && SignalerInv(sh, s, op, rd, g)
    ensures SignalerInv(sh', s, op, rd, g)
  {
  }

  lemma RegisteringKeeps(sh: Shared, k: Local)
    requires LocalInv(sh, k)
    ensures LocalInv(sh.(m := TakeSeq(sh.m)), k)
  {
    var sh' := sh.(m := TakeSeq(sh.m));
    match k
    case Waiter(w, pos, g) => RegisteringKeepsWaiter(sh, sh', w, pos, g);
    case Signaler(s, op, rd, g) => RegisteringKeepsSignaler(sh, sh', s, op, rd, g);
    case _ =>
  }

  lemma LockingKeeps(sh: Shared, k: Local)
    requires LocalInv(sh, k)
    ensures LocalInv(sh.(m := sh.m.(locked := true)), k)
  {
  }

  lemma DestroyingKeeps(sh: Shared, k: Local)
    requires LocalInv(sh, k)
    ensures LocalInv(sh.(m := sh.m.(destroying := true)), k)
  {
  }

  lemma EntryKeepsOthers(sh: Shared, l: Local, c: Choice, k: Local)
    requires SharedInv(sh) && !InCall(l) && LocalInv(sh, k)
    ensures LocalInv(Act(sh, l, c).sh, k)
  {
    EntryChanges(sh, l, c);
    RegisteringKeeps(sh, k);
    LockingKeeps(sh, k);
    DestroyingKeeps(sh, k);
  }

  /** A thread's facts survive a step of another thread. */
  lemma OtherStep(sh: Shared, l: Local, c: Choice, k: Local)
    requires SharedInv(sh) && LocalInv(sh, l) && LocalInv(sh, k)
    requires !(HoldsLock(l) && HoldsLock(k))
    requires At(sh.m, G1(sh)).refs == 0 ==> !HoldsRef(k, G1(sh))
    ensures LocalInv(Act(sh, l, c).sh, k)
  {
    if !InCall(l) {
      EntryKeepsOthers(sh, l, c, k);
    } else if l.Waiter? {
      WaiterStepAlike(sh, l.w, l.pos, l.g, c);
      AlikeKeeps(sh, Act(sh, l, c).sh, k);
    } else if k.Waiter? {
      SignalerKeepsWaiters(sh, l.s, l.op, l.rd, l.g, c, k.w, k.pos, k.g);
    }
  }
}
