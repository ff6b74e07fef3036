/** Calls of kernel_futex_wait and kernel_futex_wake: undisturbed ones, from every place in the code to their end,
    and in any run the one step at which a call takes effect. */
module FutexAlone {
  import opened QueueWalk
  import opened FutexKernel
  import opened FutexTheorems

  /** k steps of thread t as the bucket and the thread see them. */
  function ActN(early: bool, sh: Shared, t: int, l: Local, c: Call, k: nat): Out
    decreases k
  {
    if k == 0 then Out(sh, l)
    else ActN(early, Act(early, sh, t, l, c).sh, t, Act(early, sh, t, l, c).l, c, k - 1)
  }

  lemma StepFirst(early: bool, sh: Shared, t: int, l: Local, c: Call, o: Out, k: nat)
    requires Act(early, sh, t, l, c) == o
    ensures ActN(early, sh, t, l, c, k + 1) == ActN(early, o.sh, t, o.l, c, k)
  {
  }

  // ---------- wake ----------

  /** Where a walk in progress ends: the rest is taken and woken, and the lock is free. */
  function WalkEnd(sh: Shared): Shared {
    sh.(chain := RestKept(sh), waiters := sh.waiters - (|sh.chain| - |RestKept(sh)|),
        pending := sh.pending + Owners(RestTaken(sh)), spin := false, inside := Neither)
  }

  predicate InWalk(l: Local) {
    l.KWalk? || l.KWake? || l.KUnlock?
  }

  function WalkRank(sh: Shared, l: Local): nat {
    match l
    case KWalk(_, _, k, _) => if 0 <= k <= |sh.chain| then 3 * (|sh.chain| - k) + 2 else 0
    case KWake(_, _, k, _, _) => if 0 <= k <= |sh.chain| then 3 * (|sh.chain| - k) + 3 else 0
    case _ => 1
  }

  ghost predicate ProperWalk(sh: Shared, t: int, l: Local) {
    InWalk(l) && sh.inside == InsideOf(t, l) && (!l.KUnlock? ==> 0 <= l.k <= |sh.chain|)
  }

  lemma SameWalkEnd(sh: Shared, sh': Shared)
    requires RestKept(sh') == RestKept(sh) && sh'.words == sh.words
    requires sh'.pending + Owners(RestTaken(sh')) == sh.pending + Owners(RestTaken(sh))
    requires sh'.waiters - |sh'.chain| == sh.waiters - |sh.chain|
    ensures WalkEnd(sh') == WalkEnd(sh)
  {
  }

  lemma WalkStep(sh: Shared, t: int, a: int, n: int, k: int, ret: int)
    requires 0 <= k <= |sh.chain| && sh.inside == Walking(a, k, n - ret, [])
    ensures var o := WalkOn(sh, a, n, k, ret);
            && WalkRank(o.sh, o.l) < WalkRank(sh, KWalk(a, n, k, ret)) && ProperWalk(o.sh, t, o.l)
            && o.sh.waiters - |o.sh.chain| == sh.waiters - |sh.chain|
            && o.sh.words == sh.words && o.sh.pending == sh.pending
  {
  }

  lemma UnlockStep(early: bool, sh: Shared, t: int, c: Call)
    requires sh.inside == Neither
    ensures Act(early, sh, t, KUnlock, c) == Out(WalkEnd(sh), Idle)
  {
    assert sh.pending + Owners([]) == sh.pending;
  }

  lemma WakeGoesOn(sh: Shared, a: int, k: int, left: int, q: Entry, sh': Shared)
    requires 0 <= k <= |sh.chain| && sh.inside == Walking(a, k, left, [q]) && sh' == Woken(sh, a, k, left, q)
    ensures WalkEnd(sh') == WalkEnd(sh) && |sh'.chain| == |sh.chain| && sh'.inside == Walking(a, k, left, [])
  {
    WakeIsUnderWay(sh, a, k, left, q, sh');
    SameWalkEnd(sh, sh');
  }

  /** A step of the walk, or the end of it. */
  lemma WalkGoesOn(early: bool, sh: Shared, t: int, l: Local, c: Call)
    requires ProperWalk(sh, t, l)
    ensures var o := Act(early, sh, t, l, c);
            if l.KUnlock? then o == Out(WalkEnd(sh), Idle)
            else ProperWalk(o.sh, t, o.l) && WalkRank(o.sh, o.l) < WalkRank(sh, l) && WalkEnd(o.sh) == WalkEnd(sh)
  {
    match l
    case KWalk(a, n, k, ret) =>
      var sh' := WalkOn(sh, a, n, k, ret).sh;
      WalkStep(sh, t, a, n, k, ret);
      WalkIsUnderWay(sh, a, n, k, ret, sh');
      SameWalkEnd(sh, sh');
    case KWake(a, n, k, ret, q) => WakeGoesOn(sh, a, k, n - ret - 1, q, Woken(sh, a, k, n - ret - 1, q));
    case KUnlock => UnlockStep(early, sh, t, c);
  }

  /** A walk, wherever it is, ends with what it still has to take taken and woken and the lock free. */
  lemma {:induction false} WalkEnds(early: bool, sh: Shared, t: int, l: Local, c: Call) returns (k: nat)
    requires ProperWalk(sh, t, l)
    ensures k <= WalkRank(sh, l) && ActN(early, sh, t, l, c, k) == Out(WalkEnd(sh), Idle)
    decreases WalkRank(sh, l)
  {
    WalkGoesOn(early, sh, t, l, c);
    var o := Act(early, sh, t, l, c);
    if l.KUnlock? {
      k := 0;
    } else {
      k := WalkEnds(early, o.sh, t, o.l, c);
    }
    StepFirst(early, sh, t, l, c, o, k);
    k := k + 1;
  }

  lemma BeforeWalk(early: bool, sh: Shared, t: int, a: int, n: int, c: Call, k: nat, o: Out)
    requires !sh.spin && sh.waiters != 0
    requires ActN(early, Entered(sh, a, n), t, KWalk(a, n, 0, 0), c, k) == o
    ensures ActN(early, sh, t, KFast(a, n), c, k + 2) == o
  {
    StepFirst(early, sh, t, KLock(a, n), c, Out(Entered(sh, a, n), KWalk(a, n, 0, 0)), k);
    StepFirst(early, sh, t, KFast(a, n), c, Out(sh, KLock(a, n)), k + 1);
  }

  /** The words of a bucket from which the first n nodes on the address have been woken. */
  function WokenUp(sh: Shared, a: int, n: int): Shared {
    sh.(chain := Kept(sh.chain, On(a), n), waiters := sh.waiters - |Taken(sh.chain, On(a), n)|,
        pending := sh.pending + Owners(Taken(sh.chain, On(a), n)))
  }

  lemma FastEnds(early: bool, sh: Shared, t: int, a: int, n: int, c: Call) returns (k: nat)
    requires !sh.spin && sh.inside == Neither && sh.waiters != 0
    ensures k <= 3 * |sh.chain| + 4 && ActN(early, sh, t, KFast(a, n), c, k) == Out(WokenUp(sh, a, n), Idle)
  {
    EnteredEnds(sh, a, n);
    k := WalkEnds(early, Entered(sh, a, n), t, KWalk(a, n, 0, 0), c);
    BeforeWalk(early, sh, t, a, n, c, k, Out(WalkEnd(Entered(sh, a, n)), Idle));
    k := k + 2;
  }

  /** A whole call of wake with somebody counted and the lock free takes out the first n nodes on the address, wakes
      exactly their owners, and leaves the lock free. */
  lemma UninterruptedWake(early: bool, sh: Shared, t: int, a: int, n: int) returns (k: nat)
    requires !sh.spin && sh.inside == Neither && sh.waiters != 0
    ensures k <= 3 * |sh.chain| + 5
    ensures ActN(early, sh, t, Idle, CallWake(a, n), k) == Out(WokenUp(sh, a, n), Idle)
  {
    k := FastEnds(early, sh, t, a, n, CallWake(a, n));
    StepFirst(early, sh, t, Idle, CallWake(a, n), Out(sh, KFast(a, n)), k);
    k := k + 1;
  }

  /** A store with its wake of all changes the word and wakes everybody on it. */
  lemma UninterruptedStore(early: bool, sh: Shared, t: int, a: int, v: int) returns (k: nat)
    requires !sh.spin && sh.inside == Neither && sh.waiters != 0
    ensures k <= 3 * |sh.chain| + 5
    ensures ActN(early, sh, t, Idle, CallStoreAndWake(a, v), k)
         == Out(WokenUp(sh.(words := sh.words[a := v]), a, INT_MAX), Idle)
  {
    var sh1, c := sh.(words := sh.words[a := v]), CallStoreAndWake(a, v);
    k := FastEnds(early, sh1, t, a, INT_MAX, c);
    StepFirst(early, sh, t, Idle, c, Out(sh1, KFast(a, INT_MAX)), k);
    k := k + 1;
  }

  /** With nobody counted it does nothing. */
  lemma UninterruptedFast(early: bool, sh: Shared, t: int, a: int, n: int)
    requires sh.waiters == 0
    ensures ActN(early, sh, t, Idle, CallWake(a, n), 2) == Out(sh, Idle)
  {
    assert Act(early, sh, t, Idle, CallWake(a, n)) == Out(sh, KFast(a, n));
    assert Act(early, sh, t, KFast(a, n), CallWake(a, n)) == Out(sh, Idle);
  }

  lemma EnteredEnds(sh: Shared, a: int, n: int)
    requires !sh.spin && sh.inside == Neither
    ensures WalkEnd(Entered(sh, a, n)) == WokenUp(sh, a, n)
  {
    var e := Entered(sh, a, n);
    WalkConserves(sh.chain, On(a), n);
    assert sh.chain[..0] == [] && sh.chain[0..] == sh.chain;
    assert RestKept(e) == Kept(sh.chain, On(a), n) && RestTaken(e) == Taken(sh.chain, On(a), n);
  }

  /** While the lock is held, a call that wants it stays where it is. */
  lemma LockIsAwaited(early: bool, sh: Shared, t: int, a: int, v: int, c: Call)
    requires sh.spin
    ensures Act(early, sh, t, KLock(a, v), c) == Out(sh, KLock(a, v))
    ensures Act(early, sh, t, WLock(a, v), c) == Out(sh, WLock(a, v))
  {
  }

  // ---------- wait ----------

  predicate InWait(l: Local) {
    l.WRaise? || l.WLock? || l.WCompare? || l.WMiss? || l.WLink? || l.WCount? || l.WUnlock? || l.WSchedule?
  }

  /** What a wait still adds to the count: with early counting what has been raised is taken back on a miss. */
  function Added(early: bool, l: Local, misses: bool): int {
    if misses then (if early && !l.WRaise? then -1 else 0)
    else if l.WRaise? || (!early && !l.WUnlock? && !l.WSchedule?) then 1 else 0
  }

  /** Whether the wait is not going to be queued. */
  predicate Misses(sh: Shared, l: Local) {
    l.WMiss? || ((l.WRaise? || l.WLock? || l.WCompare?) && Read(sh.words, l.a) != l.v)
  }

  /** Where a wait ends: it returns without a node in the chain if the value differs; it returns with its wake-up
      used up; or it has its node at the front of the chain and sleeps. The lock is free. */
  function WaitEnd(early: bool, sh: Shared, t: int, l: Local): Out
    requires InWait(l)
  {
    var sh' := sh.(spin := if l.WSchedule? then sh.spin else false,
                   waiters := sh.waiters + Added(early, l, Misses(sh, l)),
                   inside := if l.WSchedule? then sh.inside else Neither);
    if Misses(sh, l) then Out(sh', Idle)
    else if l.WCount? || l.WUnlock? || l.WSchedule? then
      if t in sh.pending then Out(sh'.(pending := sh.pending - {t}), Idle) else Out(sh', WSchedule(l.a, l.v))
    else Out(sh'.(chain := [Entry(t, l.a, l.v)] + sh.chain), WSchedule(l.a, l.v))
  }

  function WaitRank(l: Local): nat {
    match l
    case WRaise(_, _) => 7
    case WLock(_, _) => 6
    case WCompare(_, _) => 5
    case WLink(_, _) => 4
    case WCount(_, _) => 3
    case WUnlock(_, _) => 2
    case _ => 1
  }

  /** The wait has the lock, or the lock is free, or it sleeps. */
  predicate ProperWait(early: bool, sh: Shared, t: int, l: Local) {
    && InWait(l) && (!Queued(l) ==> t !in sh.pending) && (l.WCount? ==> !early) && (l.WRaise? ==> early)
    && (HoldsSpin(l) ==> sh.inside == InsideOf(t, l))
    && (l.WRaise? || l.WLock? ==> !sh.spin && sh.inside == Neither)
  }

  /** A step of the wait does not change where it ends. */
  lemma WaitGoesOn(early: bool, sh: Shared, t: int, l: Local, c: Call)
    requires ProperWait(early, sh, t, l)
    ensures var o := Act(early, sh, t, l, c);
            if o.l == Idle || l.WSchedule? then o == WaitEnd(early, sh, t, l)
            else && ProperWait(early, o.sh, t, o.l) && WaitRank(o.l) < WaitRank(l)
                 && WaitEnd(early, o.sh, t, o.l) == WaitEnd(early, sh, t, l)
  {
  }

  /** A wait that nobody disturbs ends as WaitEnd says within seven steps. */
  lemma {:induction false} WaitEnds(early: bool, sh: Shared, t: int, l: Local, c: Call) returns (k: nat)
    requires ProperWait(early, sh, t, l)
    ensures k <= WaitRank(l) <= 7 && ActN(early, sh, t, l, c, k) == WaitEnd(early, sh, t, l)
    decreases WaitRank(l)
  {
    WaitGoesOn(early, sh, t, l, c);
    var o := Act(early, sh, t, l, c);
    if o.l == Idle || l.WSchedule? {
      k := 0;
    } else {
      k := WaitEnds(early, o.sh, t, o.l, c);
    }
    StepFirst(early, sh, t, l, c, o, k);
    k := k + 1;
  }

  /** A whole call of wait with the lock free: if the value differs nothing has changed; if not the thread sleeps
      with its node in front and one more waiter counted. The lock is free again. */
  lemma UninterruptedWait(early: bool, sh: Shared, t: int, a: int, v: int) returns (k: nat)
    requires !sh.spin && sh.inside == Neither && t !in sh.pending
    ensures k <= 8
    ensures ActN(early, sh, t, Idle, CallWait(a, v), k)
         == if Read(sh.words, a) != v then Out(sh, Idle)
            else Out(sh.(chain := [Entry(t, a, v)] + sh.chain, waiters := sh.waiters + 1), WSchedule(a, v))
  {
    var l := if early then WRaise(a, v) else WLock(a, v);
    k := WaitEnds(early, sh, t, l, CallWait(a, v));
    StepFirst(early, sh, t, Idle, CallWait(a, v), Out(sh, l), k);
    k := k + 1;
  }

  // ---------- whole calls in a run ----------

  /** Thread t, idle in state i of the run, makes the call in the step from there and has first returned in state j.
      (The number of threads is the same in all states of a run.) */
  ghost predicate IsCall(early: bool, run: seq<State>, i: int, j: int, t: int, c: Call) {
    && IsRun(early, run) && 0 <= i < j < |run| && 0 <= t < |run[i].ths| && run[i].ths[t] == Idle
    && Step(early, run[i], t, c, run[i + 1])
    && (forall k :: i <= k <= j ==> |run[k].ths| == |run[i].ths|)
    && (forall k :: i < k < j ==> run[k].ths[t] != Idle)
    && run[j].ths[t] == Idle
  }

  /** The step of the atomic futex that the call is for. */
  function EffectOf(t: int, c: Call): SpecStep {
    match c
    case CallWait(a, v) => Wait(t, a, v)
    case CallStoreAndWake(a, _) => WakeUp(a, INT_MAX)
    case CallWake(a, n) => WakeUp(a, n)
  }

  /** The places of the call before it takes effect, and after. */
  predicate Before(c: Call, l: Local) {
    match c
    case CallWait(a, v) => l == WRaise(a, v) || l == WLock(a, v) || l == WCompare(a, v)
    case CallStoreAndWake(a, _) => l == KFast(a, INT_MAX) || l == KLock(a, INT_MAX)
    case CallWake(a, n) => l == KFast(a, n) || l == KLock(a, n)
  }

  predicate After(c: Call, l: Local) {
    if c.CallWait? then l.WMiss? || l.WLink? || l.WCount? || l.WUnlock? || l.WSchedule?
    else l.KWalk? || l.KWake? || l.KUnlock?
  }

  /** What a step of the thread from a place inside its call is to the atomic futex. */
  function EffectAt(sh: Shared, t: int, l: Local): SpecStep {
    SpecStepOf(sh, t, l, CallWake(0, 0))
  }

  predicate CallStep(c: Call, sh: Shared, t: int, l: Local, l': Local) {
    && (Before(c, l) ==> if Before(c, l') then EffectAt(sh, t, l) == Nothing
                         else (After(c, l') || l' == Idle) && EffectAt(sh, t, l) == EffectOf(t, c))
    && (After(c, l) ==> && (After(c, l') || l' == Idle)
                        && (EffectAt(sh, t, l) == Nothing || EffectAt(sh, t, l) == Return(t)))
  }

  lemma TakesCallStep(early: bool, c: Call, sh: Shared, t: int, l: Local, d: Call)
    requires Act(early, sh, t, l, d).l != l
    ensures CallStep(c, sh, t, l, Act(early, sh, t, l, d).l)
  {
  }

  /** The thread's own step from state k has an effect of the call. */
  ghost predicate HasEffect(run: seq<State>, k: int, t: int)
    requires 0 <= k < |run| - 1 && 0 <= t < |run[k].ths| && t < |run[k + 1].ths|
  {
    run[k + 1].ths[t] != run[k].ths[t]
    && (EffectAt(run[k].sh, t, run[k].ths[t]).Wait? || EffectAt(run[k].sh, t, run[k].ths[t]).WakeUp?)
  }

  /** The step of the run from state m is not the thread's, or one of its call. */
  ghost predicate StepOk(run: seq<State>, m: int, t: int, c: Call)
    requires 0 <= m < |run| - 1 && 0 <= t < |run[m].ths| && t < |run[m + 1].ths|
  {
    run[m + 1].ths[t] == run[m].ths[t] || CallStep(c, run[m].sh, t, run[m].ths[t], run[m + 1].ths[t])
  }

  ghost predicate OnPath(run: seq<State>, i: int, k: int, t: int, c: Call)
    requires 0 <= i < k < |run| && 0 <= t && forall m :: i <= m <= k ==> t < |run[m].ths|
  {
    forall m :: i < m < k ==> StepOk(run, m, t, c)
  }

  /** In the states before k no step of the call had an effect, or exactly that from state p. */
  ghost predicate SoFar(run: seq<State>, i: int, k: int, t: int, c: Call, p: int)
    requires 0 <= i < k < |run| && 0 <= t && forall m :: i <= m <= k ==> t < |run[m].ths|
  {
    if Before(c, run[k].ths[t]) then forall m :: i < m < k ==> !HasEffect(run, m, t)
    else (After(c, run[k].ths[t]) || run[k].ths[t] == Idle) && EffectOnlyAt(run, i, k, t, c, p)
  }

  ghost predicate EffectOnlyAt(run: seq<State>, i: int, k: int, t: int, c: Call, p: int)
    requires 0 <= i < k < |run| && 0 <= t && forall m :: i <= m <= k ==> t < |run[m].ths|
  {
    && i < p < k && run[p + 1].ths[t] != run[p].ths[t] && EffectAt(run[p].sh, t, run[p].ths[t]) == EffectOf(t, c)
    && forall m :: i < m < k && m != p ==> !HasEffect(run, m, t)
  }

  lemma TrackNext(run: seq<State>, i: int, k: int, t: int, c: Call, p: int) returns (p': int)
    requires 0 <= i < k < |run| - 1 && 0 <= t && forall m :: i <= m <= k + 1 ==> t < |run[m].ths|
    requires SoFar(run, i, k, t, c, p) && run[k].ths[t] != Idle
    requires StepOk(run, k, t, c)
    ensures SoFar(run, i, k + 1, t, c, p')
  {
    p' := if Before(c, run[k].ths[t]) && !Before(c, run[k + 1].ths[t]) then k else p;
    assert HasEffect(run, k, t) ==> p' == k;
  }

  lemma {:induction false} Track(run: seq<State>, i: int, k: int, t: int, c: Call) returns (p: int)
    requires 0 <= i < k < |run| && 0 <= t && forall m :: i <= m <= k ==> t < |run[m].ths|
    requires OnPath(run, i, k, t, c) && Before(c, run[i + 1].ths[t])
    requires forall m :: i < m < k ==> run[m].ths[t] != Idle
    ensures SoFar(run, i, k, t, c, p)
  {
    p := 0;
    if k > i + 1 {
      p := Track(run, i, k - 1, t, c);
      assert StepOk(run, k - 1, t, c);
      p := TrackNext(run, i, k - 1, t, c, p);
    }
  }

  lemma PathOfRun(early: bool, run: seq<State>, m: int, t: int, c: Call)
    requires IsRun(early, run) && 0 <= m < |run| - 1 && 0 <= t < |run[m].ths| && t < |run[m + 1].ths|
    ensures StepOk(run, m, t, c)
  {
    assert Next(early, run[m], run[m + 1]);
    var u, d :| Step(early, run[m], u, d, run[m + 1]);
    if u == t && run[m + 1].ths[t] != run[m].ths[t] {
      TakesCallStep(early, c, run[m].sh, t, run[m].ths[t], d);
    }
  }

  /** Between a call and its return exactly one step of the thread has an effect on the atomic futex, and it is the
      one the call is for: the compare-and-enqueue of a wait, or the wake-up of the address for the number of
      threads asked for. */
  lemma CallHasOneEffect(early: bool, run: seq<State>, i: int, j: int, t: int, c: Call) returns (p: int)
    requires IsCall(early, run, i, j, t, c)
    ensures EffectOnlyAt(run, i, j, t, c, p)
  {
    forall m | i < m < j ensures StepOk(run, m, t, c) {
      PathOfRun(early, run, m, t, c);
    }
    p := Track(run, i, j, t, c);
  }

  /** With early counting that step is the atomic futex's step. */
  lemma EffectIsAtomic(run: seq<State>, i: int, j: int, t: int, c: Call, p: int)
    requires IsCall(true, run, i, j, t, c) && EffectOnlyAt(run, i, j, t, c, p) && run[p].ths[t] != Idle
    ensures SpecNext(Abs(run[p].sh), EffectOf(t, c), Abs(run[p + 1].sh))
  {
    assert Next(true, run[p], run[p + 1]);
    var u, d :| Step(true, run[p], u, d, run[p + 1]);
    assert u == t;
    EarlyCountingRefines(run, p, t, d, run[p + 1]);
  }
}
