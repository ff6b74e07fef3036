/** Whom the posted signals reach: how many waiters of a group are still to be served, exactly when
    a post finds one of them, and the runs in which every post does. */
module CondService {
  import opened CondMemory
  import opened CondProtocol
  import opened CondInvariant
  import opened CondTally
  import opened CondSafety
  import opened Tally

  /** A member of the group in slot x that blocks or is awake in its loop, and has taken no signal. */
  predicate Unserved(cur: StartWord, l: Local, x: bool) {
    IsAsleep(l, x) || IsAwakeMember(cur, l, x)
  }

  ghost predicate SomebodyUnserved(ths: seq<Local>, cur: StartWord, x: bool) {
    exists u :: 0 <= u < |ths| && Unserved(cur, ths[u], x)
  }

  ghost function UnservedIn(s: State, x: bool): int {
    Sum(SleepW(x), s.ths) + Sum(AwakeW(Current(s.sh), x), s.ths)
  }

  ghost function Owed(s: State): int {
    Sum(ThiefW(Current(s.sh)), s.ths)
  }

  lemma SomebodyIsUnserved(s: State, x: bool)
    ensures UnservedIn(s, x) > 0 <==> SomebodyUnserved(s.ths, Current(s.sh), x)
  {
    var cur := Current(s.sh);
    SumZero(SleepW(x), s.ths);
    SumZero(AwakeW(cur, x), s.ths);
    if u :| 0 <= u < |s.ths| && Unserved(cur, s.ths[u], x) {
      assert SleepW(x)(s.ths[u]) > 0 || AwakeW(cur, x)(s.ths[u]) > 0;
    }
    if Sum(SleepW(x), s.ths) > 0 {
      var u := SumWitness(SleepW(x), s.ths);
      assert Unserved(cur, s.ths[u], x);
    } else if Sum(AwakeW(cur, x), s.ths) > 0 {
      var u := SumWitness(AwakeW(cur, x), s.ths);
      assert Unserved(cur, s.ths[u], x);
    }
  }

  /** Outside a switch, the members of G1 that are still to be served are those not signaled yet and as many as
      there are signals for, in G1 or owed to it, less the signals G1 got in excess and those its members
      took while it was G2. In G2 everybody who registered is still to be served, but for those who took a
      signal there. So there always are signals enough. */
  lemma UnservedAreCounted(run: seq<State>, i: int)
    requires IsRun(run) && 0 <= i < |run| && run[i].sh.phase == Open
    ensures var sh, x := run[i].sh, At(run[i].sh.m, G1(run[i].sh));
            && UnservedIn(run[i], G1(sh)) == x.size + x.signals + Owed(run[i]) - sh.extra - sh.stray
            && UnservedIn(run[i], G1(sh)) <= x.size + x.signals + Owed(run[i])
            && UnservedIn(run[i], !G1(sh)) == sh.m.next - sh.cut - sh.early
  {
    InvRun(run, i);
  }

  predicate Posts(l: Local) {
    l.Signaler? && (l.s.Post? || l.s.PostRest? || l.s.PostAll?)
  }

  /** Those to be served are the same before and after a step of a thread that is not a waiter. */
  lemma SameUnserved(ths: seq<Local>, t: int, l: Local, cur: StartWord, x: bool)
    requires 0 <= t < |ths| && !ths[t].Waiter? && !l.Waiter?
    ensures SomebodyUnserved(ths[t := l], cur, x) <==> SomebodyUnserved(ths, cur, x)
  {
    if u :| 0 <= u < |ths| && Unserved(cur, ths[u], x) {
      assert ths[t := l][u] == ths[u];
    }
  }

  /** Exactly when a post reaches somebody: there is a member to be served just if the surplus G1 got is less than what
      its members can count on. The post makes a signal available to it and is going to wake it if it sleeps. */
  lemma PostReachesExactly(run: seq<State>, i: int, t: int, c: Choice, s': State)
    requires IsRun(run) && 0 <= i < |run| && Solo(run[i], t, c, s') && Posts(run[i].ths[t])
    ensures var sh, x := run[i].sh, At(run[i].sh.m, G1(run[i].sh));
            SomebodyUnserved(s'.ths, Current(s'.sh), G1(s'.sh))
            <==> sh.extra + sh.stray < x.size + x.signals + Owed(run[i])
    ensures At(s'.sh.m, G1(s'.sh)).signals > 0
    ensures WillWakeOne(s'.ths[t], G1(s'.sh)) || WillWakeAll(s'.ths[t], G1(s'.sh))
  {
    var s := run[i];
    InvRun(run, i);
    assert LocalInv(s.sh, s.ths[t]);
    UnservedAreCounted(run, i);
    SomebodyIsUnserved(s, G1(s.sh));
    PosterIsNoWaiter(s.sh, s.ths[t], c);
    SameUnserved(s.ths, t, s'.ths[t], Current(s.sh), G1(s.sh));
  }

  lemma PosterIsNoWaiter(sh: Shared, l: Local, c: Choice)
    requires SharedInv(sh) && LocalInv(sh, l) && Posts(l)
    ensures var o := Act(sh, l, c);
            && !o.l.Waiter? && Current(o.sh) == Current(sh) && At(o.sh.m, G1(sh)).signals > 0
            && (WillWakeOne(o.l, G1(sh)) || WillWakeAll(o.l, G1(sh)))
            && At(sh.m, G1(sh)).size > 0 && sh.phase == Open
  {
  }

  // ---------- runs without late repairs ----------

  /** The step gives a signal back although g1_start has changed since it was taken. */
  predicate LateRepair(sh: Shared, l: Local, c: Choice) {
    l.Waiter? && l.w.RepairCas? && Act(sh, l, c).sh != sh && Current(sh) != l.w.ep
  }

  ghost predicate Punctual(run: seq<State>) {
    forall i, t, c :: 0 <= i < |run| - 1 && Solo(run[i], t, c, run[i + 1]) ==> !LateRepair(run[i].sh, run[i].ths[t], c)
  }

  /** No group ever got a signal that was not posted to it, and nobody took one before its group was G1. */
  predicate Clean(sh: Shared) {
    && sh.extra == sh.stray == sh.early == 0
    && (sh.phase != Advanced ==> At(sh.m, !G1(sh)).signals == 0)
  }

  lemma CleanWaiter(sh: Shared, w: WaiterPc, pos: int, g: bool, c: Choice)
    requires SharedInv(sh) && WaiterInv(sh, w, pos, g) && Clean(sh) && !LateRepair(sh, Waiter(w, pos, g), c)
    ensures Clean(ActWaiter(sh, w, pos, g, c).sh)
  {
  }

  lemma CleanSignaler(sh: Shared, s: SignalerPc, op: Op, rd: int, g: bool, c: Choice)
    requires SharedInv(sh) && SignalerInv(sh, s, op, rd, g) && Clean(sh)
    ensures Clean(ActSignaler(sh, s, op, rd, g, c).sh)
  {
  }

  lemma CleanStep(sh: Shared, l: Local, c: Choice)
    requires SharedInv(sh) && LocalInv(sh, l) && Clean(sh) && !LateRepair(sh, l, c)
    ensures Clean(Act(sh, l, c).sh)
  {
    match l
    case Waiter(w, pos, g) => CleanWaiter(sh, w, pos, g, c);
    case Signaler(s, op, rd, g) => CleanSignaler(sh, s, op, rd, g, c);
    case _ =>
  }

  lemma {:induction false} PunctualIsClean(run: seq<State>, i: int)
    requires IsRun(run) && Punctual(run) && 0 <= i < |run|
    ensures Clean(run[i].sh)
  {
    if i > 0 {
      PunctualIsClean(run, i - 1);
      InvRun(run, i - 1);
      var s, s' := run[i - 1], run[i - 1 + 1];
      assert Next(s, s');
      if t, c :| Solo(s, t, c, s') {
        assert LocalInv(s.sh, s.ths[t]);
        CleanStep(s.sh, s.ths[t], c);
      }
    }
  }

  /** Without late repairs every post of every signal and broadcast reaches a waiter that is still to be served. */
  lemma PunctualPostsReach(run: seq<State>, i: int, t: int, c: Choice, s': State) returns (u: int)
    requires IsRun(run) && Punctual(run) && 0 <= i < |run| && Solo(run[i], t, c, s') && Posts(run[i].ths[t])
    ensures 0 <= u < |s'.ths| && Unserved(Current(s'.sh), s'.ths[u], G1(s'.sh))
  {
    InvRun(run, i);
    assert LocalInv(run[i].sh, run[i].ths[t]);
    PunctualIsClean(run, i);
    PosterIsNoWaiter(run[i].sh, run[i].ths[t], c);
    PostReachesExactly(run, i, t, c, s');
    u :| 0 <= u < |s'.ths| && Unserved(Current(s'.sh), s'.ths[u], G1(s'.sh));
  }

  /** Without late repairs each signal posted since the start has served one waiter, or lies in G1, or is owed
      to it: those still to be served are all that ever registered but for the signals used. */
  lemma PunctualSignalsServe(run: seq<State>, i: int)
    requires IsRun(run) && Punctual(run) && 0 <= i < |run| && run[i].sh.phase == Open
    ensures var sh := run[i].sh;
            UnservedIn(run[i], true) + UnservedIn(run[i], false)
            == sh.m.next - (sh.total - At(sh.m, G1(sh)).signals - Owed(run[i]))
  {
    InvRun(run, i);
    PunctualIsClean(run, i);
    UnservedAreCounted(run, i);
  }
}
