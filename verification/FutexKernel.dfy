/** kernel_futex_wait and kernel_futex_wake of k_futex.h as an interleaving of their steps: any
    number of threads wait, store and wake on the words of one hash bucket. The parameter `early`
    selects the code: `false` is the code as it is, which raises the bucket's waiter count after
    the comparison; `true` raises it before the bucket lock is taken, as the comment at lines
    219-220 has it (and takes it back when the values differ). */
module FutexKernel {
  import opened QueueWalk
  import opened Tally
  import opened Numbers

  const INT_MAX := 0x7fff_ffff

  /** A futex_q in the queue: its owner, the address, and the value the owner waits on. */
  datatype Entry = Entry(t: int, a: int, v: int)

  datatype Local =
    | Idle
    | WRaise(a: int, v: int)      // only with early counting
    | WLock(a: int, v: int)       // 177
    | WCompare(a: int, v: int)    // 183
    | WMiss                       // 184
    | WLink(a: int, v: int)       // 194-197
    | WCount(a: int, v: int)      // 198
    | WUnlock(a: int, v: int)     // 201
    | WSchedule(a: int, v: int)   // 202
    | KFast(a: int, n: int)       // 221
    | KLock(a: int, n: int)       // 225
    | KWalk(a: int, n: int, k: int, ret: int)             // 227-242, pp in front of place k
    | KWake(a: int, n: int, k: int, ret: int, q: Entry)   // 246
    | KUnlock                     // 251

  /** A history variable: what the holder of the bucket lock is in the middle of. Linking: a waiter has compared
      and has yet to insert its node. Walking: a walk for `a` stands in front of place k; `lifted` is the node it
      has taken out and not woken yet, if any, and it may take `left` more. */
  datatype Inside = Neither | Linking(e: Entry) | Walking(a: int, k: int, left: int, lifted: seq<Entry>)

  /** The user words and the bucket. `pending` are the threads whose wake_pending is set. */
  datatype Shared = Shared(words: map<int, int>, spin: bool, waiters: int, chain: seq<Entry>,
                           pending: set<int>, inside: Inside)

  datatype State = State(sh: Shared, ths: seq<Local>)

  /** What an idle thread calls: a wait, a store followed by a wake of all, or a wake alone. */
  datatype Call = CallWait(a: int, v: int) | CallStoreAndWake(a: int, v: int) | CallWake(a: int, n: int)

  datatype Out = Out(sh: Shared, l: Local)

  function Read(words: map<int, int>, a: int): int {
    if a in words then words[a] else 0
  }

  function On(a: int): Entry -> bool { (e: Entry) => e.a == a }

  function Owners(q: seq<Entry>): set<int> {
    set e | e in q :: e.t
  }

  /** Lines 227-242: one round of the walk, up to the wake-up. */
  function WalkOn(sh: Shared, a: int, n: int, k: int, ret: int): Out {
    if 0 <= k < |sh.chain| && ret < n then
      if sh.chain[k].a != a then
        Out(sh.(inside := Walking(a, k + 1, n - ret, [])), KWalk(a, n, k + 1, ret))
      else
        Out(sh.(chain := sh.chain[..k] + sh.chain[k + 1..], waiters := sh.waiters - 1,
                inside := Walking(a, k, n - ret - 1, [sh.chain[k]])),
            KWake(a, n, k, ret, sh.chain[k]))
    else Out(sh.(inside := Neither), KUnlock)
  }

  /** Line 225: the walk gets the bucket lock. */
  function Entered(sh: Shared, a: int, n: int): Shared {
    sh.(spin := true, inside := Walking(a, 0, n, []))
  }

  /** Line 246: the owner of the node is woken. */
  function Woken(sh: Shared, a: int, k: int, left: int, q: Entry): Shared {
    sh.(pending := sh.pending + {q.t}, inside := Walking(a, k, left, []))
  }

  function Act(early: bool, sh: Shared, t: int, l: Local, c: Call): Out {
    match l
    case Idle =>
      (match c
       case CallWait(a, v) => Out(sh, if early then WRaise(a, v) else WLock(a, v))
       case CallStoreAndWake(a, v) => Out(sh.(words := sh.words[a := v]), KFast(a, INT_MAX))
       case CallWake(a, n) => Out(sh, KFast(a, n)))
    case WRaise(a, v) => Out(sh.(waiters := sh.waiters + 1), WLock(a, v))
    case WLock(a, v) => if sh.spin then Out(sh, l) else Out(sh.(spin := true), WCompare(a, v))
    case WCompare(a, v) =>
      if Read(sh.words, a) != v then Out(sh, WMiss) else Out(sh.(inside := Linking(Entry(t, a, v))), WLink(a, v))
    case WMiss => Out(sh.(spin := false, waiters := if early then sh.waiters - 1 else sh.waiters), Idle)
    case WLink(a, v) =>
      Out(sh.(chain := [Entry(t, a, v)] + sh.chain, inside := Neither), if early then WUnlock(a, v) else WCount(a, v))
    case WCount(a, v) => Out(sh.(waiters := sh.waiters + 1), WUnlock(a, v))
    case WUnlock(a, v) => Out(sh.(spin := false), WSchedule(a, v))
    case WSchedule(a, v) =>
      if t in sh.pending then Out(sh.(pending := sh.pending - {t}), Idle) else Out(sh, l)
    case KFast(a, n) => Out(sh, if sh.waiters == 0 then Idle else KLock(a, n))
    case KLock(a, n) => if sh.spin then Out(sh, l) else Out(Entered(sh, a, n), KWalk(a, n, 0, 0))
    case KWalk(a, n, k, ret) => WalkOn(sh, a, n, k, ret)
    case KWake(a, n, k, ret, q) =>
      Out(Woken(sh, a, k, n - ret - 1, q), KWalk(a, n, k, ret + 1))
    case KUnlock => Out(sh.(spin := false), Idle)
  }

  ghost predicate Step(early: bool, s: State, t: int, c: Call, s': State) {
    && 0 <= t < |s.ths|
    && s'.sh == Act(early, s.sh, t, s.ths[t], c).sh
    && s'.ths == s.ths[t := Act(early, s.sh, t, s.ths[t], c).l]
  }

  ghost predicate Init(s: State) {
    && s.sh == Shared(s.sh.words, false, 0, [], {}, Neither)
    && |s.ths| <= INT_MAX
    && forall i :: 0 <= i < |s.ths| ==> s.ths[i] == Idle
  }

  ghost predicate Next(early: bool, s: State, s': State) {
    exists t, c :: Step(early, s, t, c, s')
  }

  ghost predicate IsRun(early: bool, run: seq<State>) {
    && |run| > 0 && Init(run[0])
    && forall i :: 0 <= i < |run| - 1 ==> Next(early, run[i], run[i + 1])
  }

  // ---------- the atomic specification ----------

  /** A futex as its users see it: comparing and going to sleep is one step, and so is waking. */
  datatype Spec = Spec(words: map<int, int>, queue: seq<Entry>, woken: set<int>)

  datatype SpecStep =
    | Store(a: int, v: int)
    | Wait(t: int, a: int, v: int)
    | WakeUp(a: int, n: int)
    | Return(t: int)
    | Nothing

  predicate SpecNext(s: Spec, step: SpecStep, s': Spec) {
    match step
    case Store(a, v) => s' == s.(words := s.words[a := v])
    case Wait(t, a, v) => s' == if Read(s.words, a) == v then s.(queue := [Entry(t, a, v)] + s.queue) else s
    case WakeUp(a, n) =>
      s' == s.(queue := Kept(s.queue, On(a), n), woken := s.woken + Owners(Taken(s.queue, On(a), n)))
    case Return(t) => t in s.woken && s' == s.(woken := s.woken - {t})
    case Nothing => s' == s
  }

  /** The node of a waiter that has compared and is about to be put in the chain. */
  function Between(sh: Shared): seq<Entry> {
    if sh.inside.Linking? then [sh.inside.e] else []
  }

  /** The node that the walk has taken out and not woken yet. */
  function Lifted(sh: Shared): seq<Entry> {
    if sh.inside.Walking? then sh.inside.lifted else []
  }

  /** The nodes that are in the chain or being woken. */
  function Held(sh: Shared): seq<Entry> {
    Lifted(sh) + sh.chain
  }

  predicate InMidWalk(sh: Shared) {
    sh.inside.Walking? && 0 <= sh.inside.k <= |sh.chain|
  }

  /** The chain as the walk in progress is going to leave it. */
  function RestKept(sh: Shared): seq<Entry> {
    if InMidWalk(sh) then sh.chain[..sh.inside.k] + Kept(sh.chain[sh.inside.k..], On(sh.inside.a), sh.inside.left)
    else sh.chain
  }

  /** The nodes that the walk in progress is still going to wake. */
  function RestTaken(sh: Shared): seq<Entry> {
    if InMidWalk(sh) then sh.inside.lifted + Taken(sh.chain[sh.inside.k..], On(sh.inside.a), sh.inside.left) else []
  }

  /** A wake-up takes effect when its walk starts. */
  function Abs(sh: Shared): Spec {
    Spec(sh.words, Between(sh) + RestKept(sh), sh.pending + Owners(RestTaken(sh)))
  }

  // ---------- the invariant ----------

  predicate HoldsSpin(l: Local) {
    l.WCompare? || l.WMiss? || l.WLink? || l.WCount? || l.WUnlock? || l.KWalk? || l.KWake? || l.KUnlock?
  }

  /** The thread's node is in the chain, or being woken, or its wake-up is pending. */
  predicate Queued(l: Local) {
    l.WCount? || l.WUnlock? || l.WSchedule?
  }

  /** With early counting, the thread is counted though its node is not in the chain. */
  predicate Raised(l: Local) {
    l.WLock? || l.WCompare? || l.WMiss? || l.WLink?
  }

  function SpinW(): Local -> nat { (l: Local) => One(HoldsSpin(l)) }
  function RaisedW(): Local -> nat { (l: Local) => One(Raised(l)) }
  function CountW(): Local -> nat { (l: Local) => One(l.WCount?) }

  /** What the history variable says while the thread holds the bucket lock. */
  function InsideOf(t: int, l: Local): Inside {
    match l
    case WLink(a, v) => Linking(Entry(t, a, v))
    case KWalk(a, n, k, ret) => Walking(a, k, n - ret, [])
    case KWake(a, n, k, ret, q) => Walking(a, k, n - ret - 1, [q])
    case _ => Neither
  }

  predicate LocalInv(early: bool, sh: Shared, t: int, l: Local) {
    && (Queued(l) ==> (Entry(t, l.a, l.v) in Held(sh) <==> t !in sh.pending))
    && (!Queued(l) ==> t !in sh.pending)
    && (HoldsSpin(l) ==> sh.spin && sh.inside == InsideOf(t, l))
    && (l.WCount? ==> !early && t !in sh.pending)
    && (l.KWalk? || l.KWake? ==> 0 <= l.k <= |sh.chain|)
    && (l.KWake? ==> l.q.a == l.a && l.ret < l.n)
    && (!early ==> !l.WRaise?)
  }

  predicate OwnerWaits(l: Local, e: Entry, pending: set<int>) {
    e.t !in pending && Queued(l) && l.a == e.a && l.v == e.v
  }

  predicate OwnersDiffer(q: seq<Entry>) {
    forall i, j :: 0 <= i < j < |q| ==> q[i].t != q[j].t
  }

  /** The nodes in the chain and the one being woken belong to different threads that are inside
      kernel_futex_wait. */
  ghost predicate ChainInv(s: State) {
    && (forall e :: e in Held(s.sh) ==> 0 <= e.t < |s.ths| && OwnerWaits(s.ths[e.t], e, s.sh.pending))
    && OwnersDiffer(Held(s.sh))
  }

  ghost predicate CountInv(early: bool, s: State) {
    && Sum(SpinW(), s.ths) == One(s.sh.spin)
    && s.sh.waiters == if early then |s.sh.chain| + Sum(RaisedW(), s.ths) else |s.sh.chain| - Sum(CountW(), s.ths)
  }

  ghost predicate Inv(early: bool, s: State) {
    && |s.ths| <= INT_MAX
    && (!s.sh.spin ==> s.sh.inside == Neither)
    && (forall t :: 0 <= t < |s.ths| ==> LocalInv(early, s.sh, t, s.ths[t]))
    && ChainInv(s)
    && CountInv(early, s)
  }

  /** At most one thread holds the bucket lock. */
  lemma OneHolder(early: bool, s: State, t: int, u: int)
    requires Inv(early, s) && 0 <= t < |s.ths| && 0 <= u < |s.ths| && t != u
    ensures !(HoldsSpin(s.ths[t]) && HoldsSpin(s.ths[u]))
  {
    SumOfTwo(SpinW(), s.ths, t, u);
  }

  lemma CountMoves(early: bool, sh: Shared, t: int, l: Local, c: Call)
    requires LocalInv(early, sh, t, l)
    ensures var o := Act(early, sh, t, l, c);
            && One(o.sh.spin) - One(sh.spin) == One(HoldsSpin(o.l)) - One(HoldsSpin(l))
            && var more := (o.sh.waiters - |o.sh.chain|) - (sh.waiters - |sh.chain|);
            more == if early then One(Raised(o.l)) - One(Raised(l)) else One(l.WCount?) - One(o.l.WCount?)
  {
  }

  lemma CountNext(early: bool, s: State, t: int, c: Call, s': State)
    requires Inv(early, s) && Step(early, s, t, c, s')
    ensures CountInv(early, s')
  {
    var l' := s'.ths[t];
    assert LocalInv(early, s.sh, t, s.ths[t]);
    CountMoves(early, s.sh, t, s.ths[t], c);
    SumUpdate(SpinW(), s.ths, t, l');
    SumUpdate(RaisedW(), s.ths, t, l');
    SumUpdate(CountW(), s.ths, t, l');
  }

  /** A step adds the thread's own node, brings a node to the front, or takes away the one in front. */
  lemma HeldNext(early: bool, sh: Shared, t: int, l: Local, c: Call)
    requires LocalInv(early, sh, t, l) && (!sh.spin ==> sh.inside == Neither)
    ensures var held := Held(Act(early, sh, t, l, c).sh);
            match l
            case WLink(a, v) => held == [Entry(t, a, v)] + Held(sh)
            case KWalk(a, n, k, ret) => held == Held(WalkOn(sh, a, n, k, ret).sh)
            case KWake(_, _, _, _, q) => Held(sh) == [q] + held
            case _ => held == Held(sh)
  {
  }

  lemma HeldWalk(sh: Shared, a: int, n: int, k: int, ret: int)
    requires 0 <= k <= |sh.chain| && Lifted(sh) == []
    ensures Held(WalkOn(sh, a, n, k, ret).sh)
         == if k < |sh.chain| && ret < n && sh.chain[k].a == a
            then [Held(sh)[k]] + Held(sh)[..k] + Held(sh)[k + 1..] else Held(sh)
  {
    assert Held(sh) == sh.chain;
  }

  lemma OneMoreOwner(q: seq<Entry>, e: Entry)
    requires OwnersDiffer(q) && forall f :: f in q ==> f.t != e.t
    ensures OwnersDiffer([e] + q)
  {
    var r := [e] + q;
    forall i, j | 0 <= i < j < |r| ensures r[i].t != r[j].t {
      assert r[j] == q[j - 1] && (i > 0 ==> r[i] == q[i - 1]);
    }
  }

  lemma BroughtToFront(q: seq<Entry>, k: int)
    requires OwnersDiffer(q) && 0 <= k < |q|
    ensures OwnersDiffer([q[k]] + q[..k] + q[k + 1..])
    ensures forall e :: e in [q[k]] + q[..k] + q[k + 1..] <==> e in q
  {
    var rest := q[..k] + q[k + 1..];
    forall i | 0 <= i < |rest| ensures rest[i] == q[if i < k then i else i + 1] {
    }
    OneMoreOwner(rest, q[k]);
    assert [q[k]] + rest == [q[k]] + q[..k] + q[k + 1..];
    assert q == q[..k] + [q[k]] + q[k + 1..];
  }

  lemma FrontTakenAway(e: Entry, q: seq<Entry>)
    requires OwnersDiffer([e] + q)
    ensures OwnersDiffer(q) && forall f :: f in q ==> f.t != e.t
  {
    forall i, j | 0 <= i < j < |q| ensures q[i].t != q[j].t {
      assert ([e] + q)[i + 1] == q[i] && ([e] + q)[j + 1] == q[j];
    }
    forall f | f in q ensures f.t != e.t {
      var i :| 0 <= i < |q| && q[i] == f;
      assert ([e] + q)[0] == e && ([e] + q)[i + 1] == f;
    }
  }

  /** The same for a whole step, as a set of nodes. */
  lemma MembersNext(early: bool, s: State, t: int, c: Call, s': State)
    requires Inv(early, s) && Step(early, s, t, c, s')
    ensures MembersMove(s.sh, t, s.ths[t], s'.sh) && OwnersDiffer(Held(s'.sh))
  {
    var l := s.ths[t];
    assert LocalInv(early, s.sh, t, l);
    HeldNext(early, s.sh, t, l, c);
    if l.WLink? {
      OneMoreOwner(Held(s.sh), Entry(t, l.a, l.v));
    } else if l.KWake? {
      FrontTakenAway(l.q, Held(s'.sh));
    } else if l.KWalk? {
      HeldWalk(s.sh, l.a, l.n, l.k, l.ret);
      if l.k < |s.sh.chain| {
        BroughtToFront(Held(s.sh), l.k);
      }
    }
  }

  ghost predicate MembersMove(sh: Shared, t: int, l: Local, sh': Shared) {
    match l
    case WLink(a, v) => forall e :: e in Held(sh') <==> e in Held(sh) || e == Entry(t, a, v)
    case KWake(_, _, _, _, q) =>
      && q in Held(sh) && (forall e :: e in Held(sh') <==> e in Held(sh) && e != q)
      && forall e :: e in Held(sh') ==> e.t != q.t
    case _ => forall e :: e in Held(sh') <==> e in Held(sh)
  }

  predicate Wakes(l: Local) {
    l.KFast? || l.KLock? || l.KWalk? || l.KWake? || l.KUnlock?
  }

  lemma SelfEnters(early: bool, sh: Shared, t: int, l: Local, c: Call)
    requires LocalInv(early, sh, t, l) && !Wakes(l) && !Queued(l)
    requires MembersMove(sh, t, l, Act(early, sh, t, l, c).sh)
    requires !sh.spin ==> sh.inside == Neither
    ensures var o := Act(early, sh, t, l, c);
            LocalInv(early, o.sh, t, o.l)
  {
  }

  lemma SelfSleeps(early: bool, sh: Shared, t: int, l: Local, c: Call)
    requires LocalInv(early, sh, t, l) && Queued(l)
    requires MembersMove(sh, t, l, Act(early, sh, t, l, c).sh)
    ensures var o := Act(early, sh, t, l, c);
            LocalInv(early, o.sh, t, o.l)
  {
  }

  lemma SelfWakes(early: bool, sh: Shared, t: int, l: Local, c: Call)
    requires LocalInv(early, sh, t, l) && Wakes(l)
    requires l.KWake? ==> l.q.t != t
    ensures var o := Act(early, sh, t, l, c);
            LocalInv(early, o.sh, t, o.l)
  {
  }

  lemma OtherNext(early: bool, sh: Shared, t: int, l: Local, c: Call, u: int, k: Local)
    requires LocalInv(early, sh, t, l) && LocalInv(early, sh, u, k) && t != u
    requires !sh.spin ==> sh.inside == Neither
    requires !(HoldsSpin(l) && HoldsSpin(k))
    requires MembersMove(sh, t, l, Act(early, sh, t, l, c).sh)
    requires l.KWake? && l.q.t == u ==> OwnerWaits(k, l.q, sh.pending)
    ensures LocalInv(early, Act(early, sh, t, l, c).sh, u, k)
  {
  }

  /** The owner of a node goes on waiting, whoever takes a step, until it is woken. */
  lemma OwnerNext(early: bool, sh: Shared, t: int, l: Local, c: Call, e: Entry, k: Local)
    requires OwnerWaits(k, e, sh.pending) && (e.t == t ==> k == l)
    requires l.KWake? ==> e.t != l.q.t
    ensures var o := Act(early, sh, t, l, c);
            OwnerWaits(if e.t == t then o.l else k, e, o.sh.pending)
  {
  }

  lemma ChainNext(early: bool, s: State, t: int, c: Call, s': State)
    requires Inv(early, s) && Step(early, s, t, c, s')
    ensures ChainInv(s')
  {
    var l := s.ths[t];
    assert LocalInv(early, s.sh, t, l);
    MembersNext(early, s, t, c, s');
    forall e | e in Held(s'.sh) ensures 0 <= e.t < |s'.ths| && OwnerWaits(s'.ths[e.t], e, s'.sh.pending) {
      if e in Held(s.sh) {
        OwnerNext(early, s.sh, t, l, c, e, s.ths[e.t]);
      }
    }
  }

  lemma LocalsNext(early: bool, s: State, t: int, c: Call, s': State)
    requires Inv(early, s) && Step(early, s, t, c, s')
    ensures forall u :: 0 <= u < |s'.ths| ==> LocalInv(early, s'.sh, u, s'.ths[u])
  {
    MembersNext(early, s, t, c, s');
    forall u | 0 <= u < |s'.ths| ensures LocalInv(early, s'.sh, u, s'.ths[u]) {
      assert LocalInv(early, s.sh, u, s.ths[u]) && LocalInv(early, s.sh, t, s.ths[t]);
      if u == t {
        if Wakes(s.ths[t]) {
          SelfWakes(early, s.sh, t, s.ths[t], c);
        } else if Queued(s.ths[t]) {
          SelfSleeps(early, s.sh, t, s.ths[t], c);
        } else {
          SelfEnters(early, s.sh, t, s.ths[t], c);
        }
      } else {
        OneHolder(early, s, t, u);
        OtherNext(early, s.sh, t, s.ths[t], c, u, s.ths[u]);
      }
    }
  }

  lemma InvNext(early: bool, s: State, s': State)
    requires Inv(early, s) && Next(early, s, s')
    ensures Inv(early, s')
  {
    var t, c :| Step(early, s, t, c, s');
    CountNext(early, s, t, c, s');
    ChainNext(early, s, t, c, s');
    LocalsNext(early, s, t, c, s');
    assert LocalInv(early, s.sh, t, s.ths[t]);
  }

  lemma {:induction false} InvRun(early: bool, run: seq<State>, i: int)
    requires IsRun(early, run) && 0 <= i < |run|
    ensures Inv(early, run[i])
  {
    if i == 0 {
      SumZero(SpinW(), run[0].ths);
      SumZero(RaisedW(), run[0].ths);
      SumZero(CountW(), run[0].ths);
    } else {
      InvRun(early, run, i - 1);
      assert Next(early, run[i - 1], run[i - 1 + 1]);
      InvNext(early, run[i - 1], run[i]);
    }
  }
}
