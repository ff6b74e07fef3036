/** What the kernel side of the futex guarantees, for every run. */
module FutexTheorems {
  import opened QueueWalk
  import opened Tally
  import opened FutexKernel

  // ---------- the bucket ----------

  /** Whenever the bucket lock is free the code's waiter count is the length of the chain. */
  lemma WaitersIsChainLength(run: seq<State>, i: int)
    requires IsRun(false, run) && 0 <= i < |run| && !run[i].sh.spin
    ensures run[i].sh.waiters == |run[i].sh.chain|
  {
    InvRun(false, run, i);
    SumMonotone(CountW(), SpinW(), run[i].ths);
  }

  /** The bucket lock has at most one holder. */
  lemma BucketLockExcludes(early: bool, run: seq<State>, i: int, t: int, u: int)
    requires IsRun(early, run) && 0 <= i < |run| && 0 <= t < |run[i].ths| && 0 <= u < |run[i].ths| && t != u
    ensures !(HoldsSpin(run[i].ths[t]) && HoldsSpin(run[i].ths[u]))
  {
    InvRun(early, run, i);
    OneHolder(early, run[i], t, u);
  }

  /** A futex_q in the chain, or in the waker's hands, belongs to one thread that is inside
      kernel_futex_wait and has not been woken; the node of a thread that is about to return from schedule is
      neither; and a thread that is to sleep has either its node there or its wake-up pending, never both. */
  lemma StackNodeOwnership(early: bool, run: seq<State>, i: int, t: int)
    requires IsRun(early, run) && 0 <= i < |run| && 0 <= t < |run[i].ths|
    ensures var sh, l := run[i].sh, run[i].ths[t];
            && (forall e :: e in Held(sh) && e.t == t ==> Queued(l) && e == Entry(t, l.a, l.v) && t !in sh.pending)
            && (Queued(l) ==> (Entry(t, l.a, l.v) in Held(sh) <==> t !in sh.pending))
            && (t in sh.pending ==> Queued(l) && t !in Owners(Held(sh)))
  {
    InvRun(early, run, i);
    assert LocalInv(early, run[i].sh, t, run[i].ths[t]);
  }

  /** The walk never stands behind a node that is out of the chain, and the node it takes out stays its
      owner's, who cannot return, until it is woken; it is in the chain no more. */
  lemma WalkerStaysInChain(early: bool, run: seq<State>, i: int, t: int)
    requires IsRun(early, run) && 0 <= i < |run| && 0 <= t < |run[i].ths|
    requires run[i].ths[t].KWalk? || run[i].ths[t].KWake?
    ensures var s, l := run[i], run[i].ths[t];
            && 0 <= l.k <= |s.sh.chain|
            && (l.k > 0 ==> var e := s.sh.chain[l.k - 1];
                            0 <= e.t < |s.ths| && Queued(s.ths[e.t]) && e.t !in s.sh.pending)
            && (l.KWake? ==> 0 <= l.q.t < |s.ths| && Queued(s.ths[l.q.t]) && l.q.t !in s.sh.pending
                             && l.q.t !in Owners(s.sh.chain))
  {
    InvRun(early, run, i);
    var s, l := run[i], run[i].ths[t];
    assert LocalInv(early, s.sh, t, l);
    if l.k > 0 {
      assert s.sh.chain[l.k - 1] in Held(s.sh);
    }
    if l.KWake? {
      FrontTakenAway(l.q, s.sh.chain);
      assert l.q in Held(s.sh);
    }
  }

  /** A thread gets out of schedule only by a wake-up; a wake-up that comes between its unlock and its
      schedule is kept for it; and only a walk for its address wakes it. */
  lemma WakePendingIsKept(early: bool, run: seq<State>, i: int, t: int, u: int, c: Call, s': State)
    requires IsRun(early, run) && 0 <= i < |run| && Step(early, run[i], u, c, s') && 0 <= t < |run[i].ths|
    requires Queued(run[i].ths[t])
    ensures t in run[i].sh.pending && t !in s'.sh.pending ==> t == u && run[i].ths[t].WSchedule?
    ensures run[i].ths[t].WSchedule? && s'.ths[t] == Idle ==> t == u && t in run[i].sh.pending
    ensures t !in run[i].sh.pending && t in s'.sh.pending ==> run[i].ths[u].KWake? && run[i].ths[u].a == run[i].ths[t].a
  {
    InvRun(early, run, i);
    assert LocalInv(early, run[i].sh, t, run[i].ths[t]);
    assert LocalInv(early, run[i].sh, u, run[i].ths[u]);
    if run[i].ths[u].KWake? {
      assert run[i].ths[u].q in Held(run[i].sh);
    }
  }

  // ---------- refinement of the atomic futex ----------

  /** The step is a fast-path return of kernel_futex_wake. */
  predicate ReturnsFast(sh: Shared, l: Local) {
    l.KFast? && sh.waiters == 0
  }

  /** The step of the specification that a step of the code stands for. */
  function SpecStepOf(sh: Shared, t: int, l: Local, c: Call): SpecStep {
    match l
    case Idle => if c.CallStoreAndWake? then Store(c.a, c.v) else Nothing
    case WCompare(a, v) => Wait(t, a, v)
    case KLock(a, n) => if sh.spin then Nothing else WakeUp(a, n)
    case KFast(a, n) => if sh.waiters == 0 then WakeUp(a, n) else Nothing
    case WSchedule(a, v) => if t in sh.pending then Return(t) else Nothing
    case _ => Nothing
  }

  /** A round of the walk does what the rest of the walk was going to do anyway. */
  lemma WalkIsUnderWay(sh: Shared, a: int, n: int, k: int, ret: int, sh': Shared)
    requires 0 <= k <= |sh.chain| && sh.inside == Walking(a, k, n - ret, [])
    requires sh' == WalkOn(sh, a, n, k, ret).sh
    ensures Abs(sh') == Abs(sh) && RestKept(sh') == RestKept(sh) && RestTaken(sh') == RestTaken(sh)
  {
    var rest := sh.chain[k..];
    if k < |sh.chain| && ret < n {
      assert rest[1..] == sh.chain[k + 1..];
      if sh.chain[k].a != a {
        assert sh.chain[..k] + [rest[0]] == sh.chain[..k + 1];
      } else {
        assert sh'.chain[..k] == sh.chain[..k] && sh'.chain[k..] == rest[1..];
      }
    } else {
      assert sh.chain == sh.chain[..k] + rest;
    }
    assert RestKept(sh') == RestKept(sh) && RestTaken(sh') == RestTaken(sh);
  }

  lemma WakeIsUnderWay(sh: Shared, a: int, k: int, left: int, q: Entry, sh': Shared)
    requires 0 <= k <= |sh.chain| && sh.inside == Walking(a, k, left, [q])
    requires sh' == Woken(sh, a, k, left, q)
    ensures Abs(sh') == Abs(sh) && RestKept(sh') == RestKept(sh)
    ensures sh'.pending + Owners(RestTaken(sh')) == sh.pending + Owners(RestTaken(sh))
  {
    var later := Taken(sh.chain[k..], On(a), left);
    assert RestTaken(sh) == [q] + later;
    assert Owners([q] + later) == {q.t} + Owners(later);
  }

  lemma {:induction false} TakenAreMembers(q: seq<Entry>, a: int, n: int)
    ensures forall e :: e in Taken(q, On(a), n) ==> e in q && e.a == a
    ensures forall e :: e in q ==> e in Taken(q, On(a), n) || e in Kept(q, On(a), n)
  {
    if q != [] && n > 0 {
      TakenAreMembers(q[1..], a, if q[0].a == a then n - 1 else n);
    }
  }

  /** What the walk is still going to wake are nodes of its address, in the chain or in its hands. */
  lemma RestIsHeld(early: bool, s: State)
    requires Inv(early, s)
    ensures forall e :: e in RestTaken(s.sh) ==> e in Held(s.sh) && s.sh.inside.Walking? && e.a == s.sh.inside.a
    ensures forall e :: e in Held(s.sh) ==> e in RestKept(s.sh) || e in RestTaken(s.sh)
  {
    if s.sh.inside.Walking? {
      var h := SumWitness(SpinW(), s.ths);
      assert LocalInv(early, s.sh, h, s.ths[h]);
      var k := s.sh.inside.k;
      TakenAreMembers(s.sh.chain[k..], s.sh.inside.a, s.sh.inside.left);
      assert s.sh.chain == s.sh.chain[..k] + s.sh.chain[k..];
    }
  }

  /** Returning from schedule takes nothing off the walk in progress. */
  lemma ReturnRefines(early: bool, s: State, t: int)
    requires Inv(early, s) && t in s.sh.pending
    ensures Abs(s.sh.(pending := s.sh.pending - {t})) == Abs(s.sh).(woken := Abs(s.sh).woken - {t})
  {
    RestIsHeld(early, s);
    assert t !in Owners(RestTaken(s.sh));
  }

  /** The node of a waiter is in the abstract queue from its comparison on. */
  lemma LinkRefines(sh: Shared, e: Entry, sh': Shared)
    requires sh.inside == Linking(e)
    requires sh'.chain == [e] + sh.chain && sh'.inside == Neither && sh'.words == sh.words && sh'.pending == sh.pending
    ensures Abs(sh') == Abs(sh)
  {
    assert [] + sh'.chain == sh'.chain;
  }

  lemma CompareRefines(sh: Shared, e: Entry, sh': Shared)
    requires sh.inside == Neither && sh' == sh.(inside := Linking(e))
    ensures Abs(sh') == Abs(sh).(queue := [e] + Abs(sh).queue)
  {
    assert [] + sh.chain == sh.chain;
  }

  lemma WakeUpStarts(sh: Shared, a: int, n: int, sh': Shared)
    requires sh.inside == Neither && sh' == Entered(sh, a, n)
    ensures SpecNext(Abs(sh), WakeUp(a, n), Abs(sh'))
    ensures Abs(sh).queue == sh.chain
  {
    assert sh.chain[..0] == [] && sh.chain[0..] == sh.chain;
    assert RestKept(sh') == Kept(sh.chain, On(a), n) && RestTaken(sh') == Taken(sh.chain, On(a), n);
    assert [] + sh.chain == sh.chain && [] + RestKept(sh') == RestKept(sh');
  }

  lemma AbsIgnores(sh: Shared, sh': Shared)
    requires sh'.chain == sh.chain && sh'.inside == sh.inside && sh'.pending == sh.pending
    ensures Abs(sh') == Abs(sh).(words := sh'.words)
  {
  }

  /** Steps that concern neither the chain nor what the lock's holder is doing. */
  predicate Aside(l: Local) {
    !l.WLink? && !l.WCompare? && !l.KLock? && !l.KWalk? && !l.KWake? && !l.WSchedule?
  }

  lemma AsideRefines(early: bool, sh: Shared, t: int, l: Local, c: Call)
    requires LocalInv(early, sh, t, l) && Aside(l) && !ReturnsFast(sh, l)
    ensures SpecNext(Abs(sh), SpecStepOf(sh, t, l, c), Abs(Act(early, sh, t, l, c).sh))
  {
    AbsIgnores(sh, Act(early, sh, t, l, c).sh);
  }

  /** Every step but a fast-path return is a step of the atomic futex, with or without early counting: the wake-up
      takes effect when its walk gets the bucket lock. */
  lemma LockedStepsRefine(early: bool, s: State, t: int, c: Call, s': State)
    requires Inv(early, s) && Step(early, s, t, c, s') && !ReturnsFast(s.sh, s.ths[t])
    ensures SpecNext(Abs(s.sh), SpecStepOf(s.sh, t, s.ths[t], c), Abs(s'.sh))
  {
    var l := s.ths[t];
    assert LocalInv(early, s.sh, t, l);
    if Aside(l) {
      AsideRefines(early, s.sh, t, l, c);
    } else {
      match l
      case WLink(a, v) => LinkRefines(s.sh, Entry(t, a, v), s'.sh);
      case WCompare(a, v) =>
        if Read(s.sh.words, a) == v {
          CompareRefines(s.sh, Entry(t, a, v), s'.sh);
        }
      case KLock(a, n) =>
        if !s.sh.spin {
          WakeUpStarts(s.sh, a, n, s'.sh);
        }
      case KWalk(a, n, k, ret) => WalkIsUnderWay(s.sh, a, n, k, ret, s'.sh);
      case KWake(a, n, k, ret, q) => WakeIsUnderWay(s.sh, a, k, n - ret - 1, q, s'.sh);
      case _ =>
        if t in s.sh.pending {
          ReturnRefines(early, s, t);
        }
    }
  }

  /** A wake-up with nobody on the address does nothing. */
  lemma {:induction false} NobodyOnAddress(q: seq<Entry>, a: int, n: int)
    requires forall e :: e in q ==> e.a != a
    ensures Taken(q, On(a), n) == [] && Kept(q, On(a), n) == q
  {
    if q != [] {
      NobodyOnAddress(q[1..], a, n);
    }
  }

  /** A wake-up of at least one takes somebody who is there. */
  lemma {:induction false} SomebodyOnAddress(q: seq<Entry>, a: int, n: int, e: Entry)
    requires e in q && e.a == a && n > 0
    ensures |Kept(q, On(a), n)| < |q|
  {
    WalkConserves(q, On(a), n);
    if !On(a)(q[0]) {
      SomebodyOnAddress(q[1..], a, n, e);
    }
  }

  /** The history variable tells what the thread that holds the lock is doing. */
  lemma InsideHasOwner(early: bool, s: State) returns (h: int)
    requires Inv(early, s) && s.sh.inside != Neither
    ensures 0 <= h < |s.ths| && HoldsSpin(s.ths[h]) && s.sh.inside == InsideOf(h, s.ths[h])
  {
    h := SumWitness(SpinW(), s.ths);
    assert LocalInv(early, s.sh, h, s.ths[h]);
  }

  /** With early counting a zero count means that nobody waits or is past its comparison. */
  lemma EarlyZeroMeansEmpty(s: State)
    requires Inv(true, s) && s.sh.waiters == 0
    ensures Between(s.sh) + RestKept(s.sh) == []
  {
    if s.sh.inside.Linking? {
      var h := InsideHasOwner(true, s);
      SumAtLeast(RaisedW(), s.ths, h);
    }
  }

  /** With early counting kernel_futex_wait and kernel_futex_wake refine the atomic futex in every step of
      every run. */
  lemma EarlyCountingRefines(run: seq<State>, i: int, t: int, c: Call, s': State)
    requires IsRun(true, run) && 0 <= i < |run| && Step(true, run[i], t, c, s')
    ensures SpecNext(Abs(run[i].sh), SpecStepOf(run[i].sh, t, run[i].ths[t], c), Abs(s'.sh))
  {
    InvRun(true, run, i);
    if ReturnsFast(run[i].sh, run[i].ths[t]) {
      EarlyZeroMeansEmpty(run[i]);
    } else {
      LockedStepsRefine(true, run[i], t, c, s');
    }
  }

  /** Between its comparison and the raise of the count a waiter is not seen by the fast path. */
  predicate Unseen(l: Local, a: int) {
    (l.WLink? || l.WCount?) && l.a == a
  }

  /** The fast path of the code as it is refines a wake-up exactly when no waiter on the address is between
      its comparison and the raise of the count. */
  lemma LiteralFastPathExactly(run: seq<State>, i: int, t: int, c: Call, s': State)
    requires IsRun(false, run) && 0 <= i < |run| && Step(false, run[i], t, c, s')
    requires ReturnsFast(run[i].sh, run[i].ths[t]) && run[i].ths[t].n > 0
    ensures SpecNext(Abs(run[i].sh), WakeUp(run[i].ths[t].a, run[i].ths[t].n), Abs(s'.sh))
            <==> forall u :: 0 <= u < |run[i].ths| ==> !Unseen(run[i].ths[u], run[i].ths[t].a)
  {
    var s, a, n := run[i], run[i].ths[t].a, run[i].ths[t].n;
    InvRun(false, run, i);
    var q := Between(s.sh) + RestKept(s.sh);
    if u :| 0 <= u < |s.ths| && Unseen(s.ths[u], a) {
      assert LocalInv(false, s.sh, u, s.ths[u]);
      SomebodyOnAddress(q, a, n, Entry(u, a, s.ths[u].v));
    } else {
      forall e | e in q ensures e.a != a {
        WaitingIsUnseen(s, e);
      }
      NobodyOnAddress(q, a, n);
    }
  }

  /** Whoever waits while the count is zero is in that window. */
  lemma WaitingIsUnseen(s: State, e: Entry)
    requires Inv(false, s) && s.sh.waiters == 0 && e in Between(s.sh) + RestKept(s.sh)
    ensures 0 <= e.t < |s.ths| && Unseen(s.ths[e.t], e.a) && s.ths[e.t].v == e.v
  {
    if s.sh.inside.Linking? {
      var h := InsideHasOwner(false, s);
      SumMonotone(CountW(), SpinW(), s.ths);
      if Sum(CountW(), s.ths) > 0 {
        var u := SumWitness(CountW(), s.ths);
        OneHolder(false, s, h, u);
      }
      assert Unseen(s.ths[h], e.a);
    } else {
      // The chain has no more nodes than there are holders of the bucket lock that have yet to count.
      assert s.sh.chain != [];
      SumMonotone(CountW(), SpinW(), s.ths);
      var u := SumWitness(CountW(), s.ths);
      assert LocalInv(false, s.sh, u, s.ths[u]);
      assert Entry(u, s.ths[u].a, s.ths[u].v) == s.sh.chain[0] == e;
    }
  }

  // ---------- no lost wake-up ----------

  /** The thread is going to wake all on the address. */
  predicate WillWakeAll(l: Local, a: int) {
    (l.KFast? || l.KLock?) && l.a == a && l.n == INT_MAX
  }

  /** A waiter that waits on a value the word no longer has is going to be woken. */
  ghost predicate StaleAreCovered(s: State) {
    forall e :: e in Abs(s.sh).queue && Read(s.sh.words, e.a) != e.v
      ==> exists u :: 0 <= u < |s.ths| && WillWakeAll(s.ths[u], e.a)
  }

  /** The queue is no longer than there are threads. */
  lemma QueueFits(early: bool, s: State)
    requires Inv(early, s) && s.sh.inside == Neither
    ensures |s.sh.chain| <= INT_MAX
  {
    assert Held(s.sh) == s.sh.chain;
    OwnersFit(s.sh.chain, |s.ths|);
  }

  lemma OwnersFit(q: seq<Entry>, n: nat)
    requires OwnersDiffer(q) && forall e :: e in q ==> 0 <= e.t < n
    ensures |q| <= n
  {
    var owners := seq(|q|, i requires 0 <= i < |q| => q[i].t);
    forall i | 0 <= i < |owners| ensures 0 <= owners[i] < n {
      assert q[i] in q;
    }
    DifferentBelow(owners, n);
  }

  /** Different numbers below a bound are no more than the bound. */
  lemma {:induction false} DifferentBelow(q: seq<int>, n: nat)
    requires forall i :: 0 <= i < |q| ==> 0 <= q[i] < n
    requires forall i, j :: 0 <= i < j < |q| ==> q[i] != q[j]
    ensures |q| <= n
  {
    if q != [] {
      assert q[0] < n;
      if k :| 0 <= k < |q| && q[k] == n - 1 {
        var rest := q[..k] + q[k + 1..];
        DifferentBelow(rest, n - 1);
      } else {
        assert forall i :: 0 <= i < |q| ==> q[i] != n - 1;
        DifferentBelow(q, n - 1);
      }
    }
  }

  /** A wake of all that gets the lock takes effect on everybody who is on the address. */
  lemma WakeUpOfAll(early: bool, s: State, t: int, c: Call, s': State)
    requires Inv(early, s) && Step(early, s, t, c, s') && s.ths[t].KLock? && !s.sh.spin
    ensures forall e :: e in Abs(s'.sh).queue ==> e in Abs(s.sh).queue && !WillWakeAll(s.ths[t], e.a)
    ensures s'.sh.words == s.sh.words
  {
    var l := s.ths[t];
    WakeUpStarts(s.sh, l.a, l.n, s'.sh);
    KeptAreMembers(s.sh.chain, l.a, l.n);
    if l.n == INT_MAX {
      QueueFits(early, s);
      WalkOfAll(s.sh.chain, On(l.a), l.n);
    }
  }

  lemma {:induction false} KeptAreMembers(q: seq<Entry>, a: int, n: int)
    ensures forall e :: e in Kept(q, On(a), n) ==> e in q
  {
    if q != [] && n > 0 {
      KeptAreMembers(q[1..], a, if q[0].a == a then n - 1 else n);
    }
  }

  /** Other steps add at most a waiter whose value is the word's, and wakers stay on their way. */
  lemma OthersStay(early: bool, s: State, t: int, c: Call, s': State)
    requires Inv(early, s) && Step(early, s, t, c, s') && !SpecStepOf(s.sh, t, s.ths[t], c).WakeUp?
    ensures forall e :: e in Abs(s'.sh).queue ==> e in Abs(s.sh).queue || Read(s'.sh.words, e.a) == e.v
    ensures forall a :: WillWakeAll(s.ths[t], a) ==> WillWakeAll(s'.ths[t], a)
  {
    LockedStepsRefine(early, s, t, c, s');
  }

  lemma WordsNext(early: bool, s: State, t: int, c: Call, s': State, a: int)
    requires Step(early, s, t, c, s') && Read(s'.sh.words, a) != Read(s.sh.words, a)
    ensures WillWakeAll(s'.ths[t], a)
  {
  }

  /** A stale entry after the step of thread t was stale and covered before, or t covers it. */
  ghost predicate Passes(s: State, t: int, s': State) {
    && 0 <= t < |s.ths| == |s'.ths|
    && (forall u :: 0 <= u < |s.ths| && u != t ==> s'.ths[u] == s.ths[u])
    && forall e :: e in Abs(s'.sh).queue && Read(s'.sh.words, e.a) != e.v ==>
         || WillWakeAll(s'.ths[t], e.a)
         || (e in Abs(s.sh).queue && Read(s.sh.words, e.a) != e.v && !WillWakeAll(s.ths[t], e.a))
  }

  lemma StepPasses(early: bool, s: State, t: int, c: Call, s': State)
    requires Inv(early, s) && Step(early, s, t, c, s') && !ReturnsFast(s.sh, s.ths[t])
    ensures Passes(s, t, s')
  {
    if SpecStepOf(s.sh, t, s.ths[t], c).WakeUp? {
      WakeUpOfAll(early, s, t, c, s');
    } else {
      OthersStay(early, s, t, c, s');
      forall e | e in Abs(s'.sh).queue && Read(s'.sh.words, e.a) != e.v
        ensures WillWakeAll(s'.ths[t], e.a) || (Read(s.sh.words, e.a) != e.v && !WillWakeAll(s.ths[t], e.a))
      {
        if Read(s'.sh.words, e.a) != Read(s.sh.words, e.a) {
          WordsNext(early, s, t, c, s', e.a);
        }
      }
    }
  }

  lemma StaleNext(s: State, t: int, s': State)
    requires StaleAreCovered(s) && Passes(s, t, s')
    ensures StaleAreCovered(s')
  {
    forall e | e in Abs(s'.sh).queue && Read(s'.sh.words, e.a) != e.v
      ensures exists u :: 0 <= u < |s'.ths| && WillWakeAll(s'.ths[u], e.a)
    {
      if !WillWakeAll(s'.ths[t], e.a) {
        var u :| 0 <= u < |s.ths| && WillWakeAll(s.ths[u], e.a);
        assert WillWakeAll(s'.ths[u], e.a);
      }
    }
  }

  /** The wake of all on address a returns on the fast path although a waiter that it does not see waits there on an
      old value, and no other thread is going to wake all on it. */
  ghost predicate Overlooks(s: State, t: int) {
    && 0 <= t < |s.ths| && ReturnsFast(s.sh, s.ths[t]) && s.ths[t].n == INT_MAX
    && (exists u :: 0 <= u < |s.ths| && Unseen(s.ths[u], s.ths[t].a)
                    && Read(s.sh.words, s.ths[t].a) != s.ths[u].v)
    && forall v :: 0 <= v < |s.ths| && v != t ==> !WillWakeAll(s.ths[v], s.ths[t].a)
  }

  /** A fast-path return leaves words, queue and all other threads alone. */
  lemma FastReturn(early: bool, s: State, t: int, c: Call, s': State)
    requires Step(early, s, t, c, s') && ReturnsFast(s.sh, s.ths[t])
    ensures s' == State(s.sh, s.ths[t := Idle])
  {
  }

  lemma FastReturnCovers(early: bool, s: State, t: int, s': State)
    requires Inv(early, s) && StaleAreCovered(s) && 0 <= t < |s.ths| && s' == State(s.sh, s.ths[t := Idle])
    requires ReturnsFast(s.sh, s.ths[t]) && (early || !Overlooks(s, t))
    ensures StaleAreCovered(s')
  {
    forall e | e in Abs(s.sh).queue && Read(s.sh.words, e.a) != e.v
      ensures exists u :: 0 <= u < |s'.ths| && WillWakeAll(s'.ths[u], e.a)
    {
      var u :| 0 <= u < |s.ths| && WillWakeAll(s.ths[u], e.a);
      if u == t {
        if early {
          EarlyZeroMeansEmpty(s);
        } else {
          WaitingIsUnseen(s, e);
          assert exists v :: 0 <= v < |s.ths| && v != t && WillWakeAll(s.ths[v], e.a);
          u :| 0 <= u < |s.ths| && u != t && WillWakeAll(s.ths[u], e.a);
        }
      }
      assert s'.ths[u] == s.ths[u];
    }
  }

  lemma OverlookedIsLost(s: State, t: int, s': State)
    requires Inv(false, s) && Overlooks(s, t) && s' == State(s.sh, s.ths[t := Idle])
    ensures !StaleAreCovered(s')
  {
    var a := s.ths[t].a;
    var u :| 0 <= u < |s.ths| && Unseen(s.ths[u], a) && Read(s.sh.words, a) != s.ths[u].v;
    assert LocalInv(false, s.sh, u, s.ths[u]);
    assert Entry(u, a, s.ths[u].v) in Abs(s'.sh).queue;
  }

  /** Exactly when a step of the code as it is loses a wake-up: all waiters on old values that were going to be woken
      still are, just if the step is no fast-path return that overlooks one. */
  lemma WakeupIsKeptExactly(run: seq<State>, i: int, t: int, c: Call, s': State)
    requires IsRun(false, run) && 0 <= i < |run| && Step(false, run[i], t, c, s') && StaleAreCovered(run[i])
    ensures StaleAreCovered(s') <==> !Overlooks(run[i], t)
  {
    InvRun(false, run, i);
    CoveredNext(false, run[i], t, c, s');
    if Overlooks(run[i], t) {
      FastReturn(false, run[i], t, c, s');
      OverlookedIsLost(run[i], t, s');
    }
  }

  lemma CoveredNext(early: bool, s: State, t: int, c: Call, s': State)
    requires Inv(early, s) && Step(early, s, t, c, s') && StaleAreCovered(s)
    ensures early || !Overlooks(s, t) ==> StaleAreCovered(s')
  {
    if !ReturnsFast(s.sh, s.ths[t]) {
      StepPasses(early, s, t, c, s');
      StaleNext(s, t, s');
    } else if early || !Overlooks(s, t) {
      FastReturn(early, s, t, c, s');
      FastReturnCovers(early, s, t, s');
    }
  }

  ghost predicate StepOverlooks(s: State, s': State) {
    exists t, c :: Step(false, s, t, c, s') && Overlooks(s, t)
  }

  /** No step of the run is a fast-path return that overlooks a waiter. */
  ghost predicate NeverOverlooks(run: seq<State>) {
    forall i :: 0 <= i < |run| - 1 ==> !StepOverlooks(run[i], run[i + 1])
  }

  lemma {:induction false} StaleRun(early: bool, run: seq<State>, i: int)
    requires IsRun(early, run) && 0 <= i < |run| && (early || NeverOverlooks(run))
    ensures StaleAreCovered(run[i])
  {
    if i > 0 {
      StaleRun(early, run, i - 1);
      InvRun(early, run, i - 1);
      var s, s' := run[i - 1], run[i - 1 + 1];
      assert Next(early, s, s');
      var t, c :| Step(early, s, t, c, s');
      assert !early ==> !StepOverlooks(s, s');
      CoveredNext(early, s, t, c, s');
    }
  }

  /** Past its comparison and not woken yet. */
  predicate Waits(sh: Shared, t: int, l: Local) {
    l.WLink? || (Queued(l) && t !in sh.pending)
  }

  /** Thread u is on its way to wake all on the address t waits on, or its walk is going to take t's node. */
  predicate WillWake(s: State, u: int, t: int)
    requires 0 <= t < |s.ths| && 0 <= u < |s.ths| && (s.ths[t].WLink? || Queued(s.ths[t]))
  {
    var l, k := s.ths[t], s.ths[u];
    || WillWakeAll(k, l.a)
    || ((k.KWalk? || k.KWake?) && k.a == l.a && Entry(t, l.a, l.v) in RestTaken(s.sh))
  }

  lemma CoveredIsWoken(early: bool, s: State, t: int) returns (u: int)
    requires Inv(early, s) && StaleAreCovered(s) && 0 <= t < |s.ths|
    requires Waits(s.sh, t, s.ths[t]) && Read(s.sh.words, s.ths[t].a) != s.ths[t].v
    ensures 0 <= u < |s.ths| && WillWake(s, u, t)
  {
    var e := Entry(t, s.ths[t].a, s.ths[t].v);
    assert LocalInv(early, s.sh, t, s.ths[t]);
    RestIsHeld(early, s);
    if e in RestTaken(s.sh) {
      u := InsideHasOwner(early, s);
    } else {
      assert e in Abs(s.sh).queue;
      u :| 0 <= u < |s.ths| && WillWakeAll(s.ths[u], e.a);
    }
  }

  /** With early counting no wake-up is lost: in every state of every run, a waiter asleep or about to be on a
      value that its word no longer has will be woken by a thread on its way to wake all on that word, or by the
      walk in progress, which is going to take its node. So a store followed by a wake of all never leaves a
      waiter behind. */
  lemma NoLostWakeup(run: seq<State>, i: int, t: int) returns (u: int)
    requires IsRun(true, run) && 0 <= i < |run| && 0 <= t < |run[i].ths|
    requires Waits(run[i].sh, t, run[i].ths[t]) && Read(run[i].sh.words, run[i].ths[t].a) != run[i].ths[t].v
    ensures 0 <= u < |run[i].ths| && WillWake(run[i], u, t)
  {
    InvRun(true, run, i);
    StaleRun(true, run, i);
    u := CoveredIsWoken(true, run[i], t);
  }

  /** The code as it is loses no wake-up in runs whose fast-path returns overlook nobody. */
  lemma LiteralRunsThatSee(run: seq<State>, i: int, t: int) returns (u: int)
    requires IsRun(false, run) && NeverOverlooks(run) && 0 <= i < |run| && 0 <= t < |run[i].ths|
    requires Waits(run[i].sh, t, run[i].ths[t]) && Read(run[i].sh.words, run[i].ths[t].a) != run[i].ths[t].v
    ensures 0 <= u < |run[i].ths| && WillWake(run[i], u, t)
  {
    InvRun(false, run, i);
    StaleRun(false, run, i);
    u := CoveredIsWoken(false, run[i], t);
  }

  // ---------- the run of the code as it is that loses a wake-up ----------

  function Words(v: int): map<int, int> { map[64 := v] }

  const QUEUE := [Entry(0, 64, 5)]

  /** Thread 0 waits for word 64 to change from 5; thread 1 stores 6 and wakes all while thread 0 is between
      its comparison and the raise of the count. */
  function LosingRun(): seq<State> {
    [ State(Shared(Words(5), false, 0, [], {}, Neither), [Idle, Idle]),
      State(Shared(Words(5), false, 0, [], {}, Neither), [WLock(64, 5), Idle]),
      State(Shared(Words(5), true, 0, [], {}, Neither), [WCompare(64, 5), Idle]),
      State(Shared(Words(5), true, 0, [], {}, Linking(Entry(0, 64, 5))), [WLink(64, 5), Idle]),
      State(Shared(Words(6), true, 0, [], {}, Linking(Entry(0, 64, 5))), [WLink(64, 5), KFast(64, INT_MAX)]),
      State(Shared(Words(6), true, 0, [], {}, Linking(Entry(0, 64, 5))), [WLink(64, 5), Idle]),
      State(Shared(Words(6), true, 0, QUEUE, {}, Neither), [WCount(64, 5), Idle]),
      State(Shared(Words(6), true, 1, QUEUE, {}, Neither), [WUnlock(64, 5), Idle]),
      State(Shared(Words(6), false, 1, QUEUE, {}, Neither), [WSchedule(64, 5), Idle]) ]
  }

  /** The thread and, where it is idle, the call of each step. */
  function LosingSchedule(): seq<(int, Call)> {
    var w, k := CallWait(64, 5), CallStoreAndWake(64, 6);
    [(0, w), (0, w), (0, w), (1, k), (1, k), (0, w), (0, w), (0, w)]
  }

  /** The code as it is can leave a waiter asleep on an old value with nobody on the way to wake it. */
  lemma LiteralCodeLosesWakeup()
    ensures IsRun(false, LosingRun())
    ensures var s := LosingRun()[|LosingRun()| - 1];
            && Waits(s.sh, 0, s.ths[0]) && Read(s.sh.words, s.ths[0].a) != s.ths[0].v
            && forall u :: 0 <= u < |s.ths| && u != 0 ==> s.ths[u] == Idle
  {
    var run, how := LosingRun(), LosingSchedule();
    forall i | 0 <= i < |run| - 1 ensures Next(false, run[i], run[i + 1]) {
      assert Words(5)[64 := 6] == Words(6);
      assert Step(false, run[i], how[i].0, how[i].1, run[i + 1]);
    }
  }
}
