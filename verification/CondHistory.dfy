/** Whole calls in a run with any number of other threads: what holds when a thread that called wait, signal, broadcast
    or destroy has returned. */
module CondHistory {
  import opened CondMemory
  import opened CondProtocol
  import opened CondInvariant
  import opened CondTally
  import opened CondSafety
  import opened CondTheorems
  import opened Tally

  /** Thread t, idle in state i of the run, makes the call in the step from there and has first returned in state j.
      (The number of threads is the same in all states of a run.) */
  ghost predicate IsCall(run: seq<State>, i: int, j: int, t: int, call: Call) {
    && IsRun(run) && 0 <= i < j < |run| && 0 <= t < |run[i].ths| && run[i].ths[t] == Idle
    && (exists c: Choice :: c.call == call && Solo(run[i], t, c, run[i + 1]))
    && (forall k :: i <= k <= j ==> |run[k].ths| == |run[i].ths|)
    && (forall k :: i < k < j ==> run[k].ths[t] != Idle)
    && run[j].ths[t] == Idle
  }

  /** The thread's part in a step of the run: none, or the step is its own, or it is the waker or the sleeper of a
      wake-up, which leaves the words alone. */
  ghost predicate Moved(s: State, s': State, t: int)
    requires 0 <= t < |s.ths| == |s'.ths|
  {
    s'.ths[t] == s.ths[t] || exists c :: Act(s.sh, s.ths[t], c) == Out(s'.sh, s'.ths[t])
  }

  lemma SoloMoves(s: State, u: int, c: Choice, s': State, t: int)
    requires Solo(s, u, c, s') && 0 <= t < |s.ths|
    ensures |s'.ths| == |s.ths| && Moved(s, s', t)
  {
    if u == t {
      assert Act(s.sh, s.ths[t], c) == Out(s'.sh, s'.ths[t]);
    }
  }

  lemma WakeMoves(s: State, w: int, u: int, c: Choice, s': State, t: int)
    requires WakeStep(s, w, u, c, s') && 0 <= t < |s.ths|
    ensures |s'.ths| == |s.ths| && Moved(s, s', t)
  {
    SleeperReturns(s.sh, s.ths[u], NextWake(s.ths[w]).a, c);
    WakerReturns(s.sh, s.ths[w], c);
    if u == t || (w == t && !NextWake(s.ths[w]).all) {
      assert Act(s.sh, s.ths[t], c) == Out(s'.sh, s'.ths[t]);
    }
  }

  lemma NextMoves(s: State, s': State, t: int)
    requires Next(s, s') && 0 <= t < |s.ths|
    ensures |s'.ths| == |s.ths| && Moved(s, s', t)
  {
    if u, c :| Solo(s, u, c, s') {
      SoloMoves(s, u, c, s', t);
    } else {
      var w, u, c :| WakeStep(s, w, u, c, s');
      WakeMoves(s, w, u, c, s', t);
    }
  }

  // ---------- signal and broadcast ----------

  /** One step of a thread in a call of `op`, as far as the call's history needs it. */
  predicate PathStep(op: Op, sh: Shared, l: Local, sh': Shared, l': Local) {
    match l
    case Fast(o) => o == op && (if sh.m.wcount == 0 then l' == Idle else l' == Acquire(op))
    case Acquire(o) => o == op && (l' == l || l' == ReadSeq(op))
    case ReadSeq(o) => o == op && l'.Signaler? && l'.op == op && l'.rd == sh.m.next && !l'.s.Unlock?
    case Signaler(s, o, rd, _) =>
      && o == op
      && if s.Unlock? then l' == Idle || l'.Waking?
         else && l'.Signaler? && l'.op == op && l'.rd == rd
              && (op == Signal && l'.s.Unlock? && l'.s.wakes != NoWake ==> sh'.total == sh.total + 1)
    case Waking(_, _) => l' == Idle
    case _ => false
  }

  predicate InCallOf(op: Op, l: Local) {
    match l
    case Fast(o) => o == op
    case Acquire(o) => o == op
    case ReadSeq(o) => o == op
    case Signaler(_, o, _, _) => o == op
    case Waking(_, _) => true
    case _ => false
  }

  lemma TakesPath(op: Op, sh: Shared, l: Local, c: Choice)
    requires LocalInv(sh, l) && InCallOf(op, l)
    ensures PathStep(op, sh, l, Act(sh, l, c).sh, Act(sh, l, c).l)
  {
  }

  /** What has happened in a call of `op` by thread t since state i, when it is at l in state k: in state r it read
      wseq, in state p it posted its signal, in state u it was at its unlock or took the fast path. */
  ghost predicate SoFar(run: seq<State>, i: int, k: int, t: int, op: Op, r: int, p: int, u: int)
    requires 0 <= i < k < |run| && 0 <= t && forall m :: i <= m <= k ==> t < |run[m].ths|
  {
    match run[k].ths[t]
    case Fast(o) => o == op
    case Acquire(o) => o == op
    case ReadSeq(o) => o == op
    case Signaler(s, o, rd, _) =>
      && o == op && HasRead(run, i, k, t, op, r, rd)
      && (s.Unlock? ==> HasSignaled(run, k, t, op, s.wakes, r, p))
    case Waking(_, _) => HasUnlocked(run, i, k, t, op, r, p, u)
    case Idle =>
      || HasUnlocked(run, i, k, t, op, r, p, u)
      || (i < u < k && run[u].ths[t] == Fast(op) && run[u].sh.m.wcount == 0)
    case _ => false
  }

  ghost predicate HasRead(run: seq<State>, i: int, k: int, t: int, op: Op, r: int, rd: int)
    requires 0 <= i < k < |run| && 0 <= t && forall m :: i <= m <= k ==> t < |run[m].ths|
  {
    i < r < k && run[r].ths[t] == ReadSeq(op) && rd == run[r].sh.m.next
  }

  ghost predicate HasSignaled(run: seq<State>, k: int, t: int, op: Op, wakes: Wakes, r: int, p: int)
    requires 0 <= r < k < |run| && 0 <= t && forall m :: r <= m <= k ==> t < |run[m].ths|
  {
    op == Signal && wakes != NoWake
    ==> r < p < k && run[p].ths[t].Signaler? && run[p + 1].sh.total == run[p].sh.total + 1
        && run[p + 1].ths[t] != run[p].ths[t]
  }

  ghost predicate HasUnlocked(run: seq<State>, i: int, k: int, t: int, op: Op, r: int, p: int, u: int)
    requires 0 <= i < k < |run| && 0 <= t && forall m :: i <= m <= k ==> t < |run[m].ths|
  {
    && i < r < u < k && run[u].ths[t].Signaler? && run[u].ths[t].s.Unlock? && run[u].ths[t].op == op
    && HasRead(run, i, k, t, op, r, run[u].ths[t].rd)
    && HasSignaled(run, u, t, op, run[u].ths[t].s.wakes, r, p)
  }

  lemma SoFarNext(run: seq<State>, i: int, k: int, t: int, op: Op, r: int, p: int, u: int)
      returns (r': int, p': int, u': int)
    requires 0 <= i < k < |run| - 1 && 0 <= t && forall m :: i <= m <= k + 1 ==> t < |run[m].ths|
    requires SoFar(run, i, k, t, op, r, p, u) && run[k].ths[t] != Idle
    requires run[k + 1].ths[t] == run[k].ths[t]
             || PathStep(op, run[k].sh, run[k].ths[t], run[k + 1].sh, run[k + 1].ths[t])
    ensures SoFar(run, i, k + 1, t, op, r', p', u')
  {
    var l := run[k].ths[t];
    r', p', u' := r, p, u;
    if run[k + 1].ths[t] != l {
      r' := if l.ReadSeq? then k else r;
      p' := if l.Signaler? && !l.s.Unlock? then k else p;
      u' := if l.Fast? || (l.Signaler? && l.s.Unlock?) then k else u;
    }
  }

  lemma StepOnPath(run: seq<State>, k: int, t: int, op: Op)
    requires IsRun(run) && 0 <= k < |run| - 1 && 0 <= t < |run[k].ths| == |run[k + 1].ths|
    requires InCallOf(op, run[k].ths[t])
    ensures run[k + 1].ths[t] == run[k].ths[t]
            || PathStep(op, run[k].sh, run[k].ths[t], run[k + 1].sh, run[k + 1].ths[t])
  {
    var s, s' := run[k], run[k + 1];
    InvRun(run, k);
    assert Next(s, s') && LocalInv(s.sh, s.ths[t]);
    NextMoves(s, s', t);
    if s'.ths[t] != s.ths[t] {
      var c :| Act(s.sh, s.ths[t], c) == Out(s'.sh, s'.ths[t]);
      TakesPath(op, s.sh, s.ths[t], c);
    }
  }

  /** Every step of the call in states i + 1 to k is none of the thread's or one on its path. */
  ghost predicate OnPath(run: seq<State>, i: int, k: int, t: int, op: Op)
    requires 0 <= i < k < |run| && 0 <= t && forall m :: i <= m <= k ==> t < |run[m].ths|
  {
    forall m :: i < m < k && InCallOf(op, run[m].ths[t])
      ==> run[m + 1].ths[t] == run[m].ths[t] || PathStep(op, run[m].sh, run[m].ths[t], run[m + 1].sh, run[m + 1].ths[t])
  }

  lemma {:induction false} Track(run: seq<State>, i: int, k: int, t: int, op: Op) returns (r: int, p: int, u: int)
    requires 0 <= i < k < |run| && 0 <= t && forall m :: i <= m <= k ==> t < |run[m].ths|
    requires OnPath(run, i, k, t, op)
    requires run[i + 1].ths[t] == Fast(op) && forall m :: i < m < k ==> run[m].ths[t] != Idle
    ensures SoFar(run, i, k, t, op, r, p, u)
  {
    r, p, u := 0, 0, 0;
    if k > i + 1 {
      r, p, u := Track(run, i, k - 1, t, op);
      assert InCallOf(op, run[k - 1].ths[t]);
      assert run[k - 1 + 1] == run[k];
      r, p, u := SoFarNext(run, i, k - 1, t, op, r, p, u);
    }
  }

  lemma CallIsOnPath(run: seq<State>, i: int, j: int, t: int, op: Op)
    requires IsRun(run) && 0 <= i < j < |run| && 0 <= t < |run[i].ths|
    requires forall k :: i <= k <= j ==> |run[k].ths| == |run[i].ths|
    ensures OnPath(run, i, j, t, op)
  {
    forall m | i < m < j && InCallOf(op, run[m].ths[t])
      ensures run[m + 1].ths[t] == run[m].ths[t]
              || PathStep(op, run[m].sh, run[m].ths[t], run[m + 1].sh, run[m + 1].ths[t])
    {
      StepOnPath(run, m, t, op);
    }
  }

  ghost predicate NobodyInside(s: State) {
    forall v :: 0 <= v < |s.ths| ==> !IsCounted(s.ths[v])
  }

  lemma CountIsZero(run: seq<State>, k: int)
    requires IsRun(run) && 0 <= k < |run| && run[k].sh.m.wcount == 0
    ensures NobodyInside(run[k])
  {
    WaitersAreCounted(run, k);
    SumZero(CountedW(), run[k].ths);
    forall v | 0 <= v < |run[k].ths| ensures !IsCounted(run[k].ths[v]) {
      assert CountedW()(run[k].ths[v]) == 0;
    }
  }

  function OpOf(call: Call): Op
    requires call == CallSignal || call == CallBroadcast
  {
    if call == CallSignal then Signal else Broadcast
  }

  /** The thread was at its unlock in state u, having read wseq in state r. */
  ghost predicate UnlocksAt(run: seq<State>, i: int, j: int, t: int, r: int, u: int)
    requires 0 <= i < j < |run| && 0 <= t && forall m :: i <= m <= j ==> t < |run[m].ths|
  {
    i < r < u < j && run[r].ths[t].ReadSeq? && run[u].ths[t].Signaler? && run[u].ths[t].s.Unlock?
  }

  /** The thread took the fast path in state u, and nobody was between stage 2 and stage 5 of a wait. */
  ghost predicate FastAt(run: seq<State>, i: int, j: int, t: int, u: int)
    requires 0 <= i < j < |run| && 0 <= t && forall m :: i <= m <= j ==> t < |run[m].ths|
  {
    i < u < j && run[u].ths[t].Fast? && NobodyInside(run[u])
  }

  lemma CallStarts(run: seq<State>, i: int, j: int, t: int, call: Call)
    requires IsCall(run, i, j, t, call) && (call == CallSignal || call == CallBroadcast)
    ensures i + 1 < j && run[i + 1].ths[t] == Fast(OpOf(call))
  {
  }

  /** A whole call of broadcast, whatever the other threads do: it returns on the fast path with nobody counted, or
      at its unlock everybody who had registered when it read wseq has been signaled. */
  lemma BroadcastCall(run: seq<State>, i: int, j: int, t: int) returns (r: int, u: int)
    requires IsCall(run, i, j, t, CallBroadcast)
    ensures FastAt(run, i, j, t, u) || (UnlocksAt(run, i, j, t, r, u) && run[u].sh.total >= run[r].sh.m.next)
  {
    CallStarts(run, i, j, t, CallBroadcast);
    var p;
    CallIsOnPath(run, i, j, t, Broadcast);
    r, p, u := Track(run, i, j, t, Broadcast);
    if HasUnlocked(run, i, j, t, Broadcast, r, p, u) {
      CallOutcome(run, u, t);
    } else {
      CountIsZero(run, u);
    }
  }

  /** A whole call of signal, whatever the other threads do: it returns on the fast path with nobody counted, or at
      its unlock everybody who had registered when it read wseq has been signaled, or in a step of its own between
      the two it posted one signal. */
  lemma SignalCall(run: seq<State>, i: int, j: int, t: int) returns (r: int, p: int, u: int)
    requires IsCall(run, i, j, t, CallSignal)
    ensures || FastAt(run, i, j, t, u)
            || (UnlocksAt(run, i, j, t, r, u)
                && (|| run[u].sh.total == run[r].sh.m.next
                    || (r < p < u && run[p].ths[t].Signaler? && run[p + 1].ths[t] != run[p].ths[t]
                        && run[p + 1].sh.total == run[p].sh.total + 1)))
  {
    CallStarts(run, i, j, t, CallSignal);
    CallIsOnPath(run, i, j, t, Signal);
    r, p, u := Track(run, i, j, t, Signal);
    if HasUnlocked(run, i, j, t, Signal, r, p, u) {
      CallOutcome(run, u, t);
    } else {
      CountIsZero(run, u);
    }
  }

  // ---------- destroy ----------

  lemma DestroyingStays(s: State, s': State)
    requires Next(s, s') && s.sh.m.destroying
    ensures s'.sh.m.destroying
  {
    if u, c :| Solo(s, u, c, s') {
      NeverUnset(s.sh, s.ths[u], c);
    }
  }

  lemma WaiterNeverUnsets(sh: Shared, w: WaiterPc, pos: int, g: bool, c: Choice)
    ensures ActWaiter(sh, w, pos, g, c).sh.m.destroying == sh.m.destroying
  {
  }

  lemma SignalerNeverUnsets(sh: Shared, s: SignalerPc, op: Op, rd: int, g: bool, c: Choice)
    ensures ActSignaler(sh, s, op, rd, g, c).sh.m.destroying == sh.m.destroying
  {
  }

  lemma NeverUnset(sh: Shared, l: Local, c: Choice)
    ensures sh.m.destroying ==> Act(sh, l, c).sh.m.destroying
  {
    match l
    case Waiter(w, pos, g) => WaiterNeverUnsets(sh, w, pos, g, c);
    case Signaler(s, op, rd, g) => SignalerNeverUnsets(sh, s, op, rd, g, c);
    case _ =>
  }

  /** In a call of destroy: the flag is set unless the next step sets it. */
  predicate Destroying(sh: Shared, l: Local) {
    l.Destroyer? && (l.d.SetDestroying? || sh.m.destroying)
  }

  lemma DestroyStep(sh: Shared, l: Local, c: Choice)
    requires Destroying(sh, l)
    ensures var o := Act(sh, l, c);
            Destroying(o.sh, o.l) || (o.l == Idle && o.sh.m.destroying && o.sh.m.wcount == 0)
  {
  }

  lemma DestroyNext(run: seq<State>, k: int, t: int)
    requires IsRun(run) && 0 <= k < |run| - 1 && 0 <= t < |run[k].ths| == |run[k + 1].ths|
    requires Destroying(run[k].sh, run[k].ths[t])
    ensures var sh, l := run[k + 1].sh, run[k + 1].ths[t];
            Destroying(sh, l) || (l == Idle && sh.m.destroying && sh.m.wcount == 0)
  {
    var s, s' := run[k], run[k + 1];
    assert Next(s, s');
    NextMoves(s, s', t);
    if s.sh.m.destroying {
      DestroyingStays(s, s');
    }
    if s'.ths[t] != s.ths[t] {
      var c :| Act(s.sh, s.ths[t], c) == Out(s'.sh, s'.ths[t]);
      DestroyStep(s.sh, s.ths[t], c);
    }
  }

  /** What holds after each step of the call. */
  ghost predicate DestroySteps(run: seq<State>, i: int, j: int, t: int)
    requires 0 <= i < j < |run| && 0 <= t && forall m :: i <= m <= j ==> t < |run[m].ths|
  {
    forall m :: i < m < j && Destroying(run[m].sh, run[m].ths[t])
      ==> Destroying(run[m + 1].sh, run[m + 1].ths[t])
          || (run[m + 1].ths[t] == Idle && run[m + 1].sh.m.destroying && run[m + 1].sh.m.wcount == 0)
  }

  lemma {:induction false} DestroyTrack(run: seq<State>, i: int, k: int, t: int)
    requires 0 <= i < k < |run| && 0 <= t && forall m :: i <= m <= k ==> t < |run[m].ths|
    requires DestroySteps(run, i, k, t) && Destroying(run[i + 1].sh, run[i + 1].ths[t])
    requires forall m :: i < m < k ==> run[m].ths[t] != Idle
    ensures var sh, l := run[k].sh, run[k].ths[t];
            Destroying(sh, l) || (l == Idle && sh.m.destroying && sh.m.wcount == 0)
  {
    if k > i + 1 {
      DestroyTrack(run, i, k - 1, t);
      assert run[k - 1 + 1] == run[k];
    }
  }

  /** A whole call of destroy, whatever the other threads do: when it has returned the flag is set and nobody is
      between stage 2 and stage 5 of a wait. */
  lemma DestroyCall(run: seq<State>, i: int, j: int, t: int)
    requires IsCall(run, i, j, t, CallDestroy)
    ensures run[j].sh.m.destroying && NobodyInside(run[j])
  {
    forall m | i < m < j && Destroying(run[m].sh, run[m].ths[t])
      ensures Destroying(run[m + 1].sh, run[m + 1].ths[t])
              || (run[m + 1].ths[t] == Idle && run[m + 1].sh.m.destroying && run[m + 1].sh.m.wcount == 0)
    {
      DestroyNext(run, m, t);
    }
    DestroyTrack(run, i, j, t);
    CountIsZero(run, j);
  }

  // ---------- wait ----------

  /** The waiter has taken a signal. */
  predicate HasSignal(w: WaiterPc) {
    w.Consumed? || w.ReloadSignals? || w.RepairTest? || w.RepairCas? || w.RepairWake? || w == Leave(true)
  }

  /** The waiter takes a signal out of its slot. */
  predicate Takes(sh: Shared, l: Local, sh': Shared, l': Local) {
    && l.Waiter? && l.w.Consume? && l'.Waiter? && l'.w.Consumed? && l'.g == l.g
    && At(sh'.m, l.g).signals == At(sh.m, l.g).signals - 1
  }

  /** One step of a thread in a call of wait. */
  predicate WaitStep(sh: Shared, l: Local, sh': Shared, l': Local) {
    match l
    case Waiter(w, pos, g) =>
      if w.Leave? then l' == Idle || l' == WakeDestroyer
      else l'.Waiter? && l'.pos == pos && l'.g == g && (HasSignal(l'.w) ==> HasSignal(w) || Takes(sh, l, sh', l'))
    case WakeDestroyer => l' == Idle
    case _ => false
  }

  lemma TakesWaitStep(sh: Shared, l: Local, c: Choice)
    requires l.Waiter? || l.WakeDestroyer?
    ensures WaitStep(sh, l, Act(sh, l, c).sh, Act(sh, l, c).l)
  {
  }

  /** What has happened in a call of wait with number pos and slot g: in state p the waiter took its signal, in
      state u it was leaving. */
  ghost predicate WaitSoFar(run: seq<State>, i: int, k: int, t: int, pos: int, g: bool, p: int, u: int)
    requires 0 <= i < k < |run| && 0 <= t && forall m :: i <= m <= k ==> t < |run[m].ths|
  {
    match run[k].ths[t]
    case Waiter(w, pos', g') => pos' == pos && g' == g && (HasSignal(w) ==> TookAt(run, i, k, t, p))
    case WakeDestroyer => LeftAt(run, i, k, t, pos, g, p, u)
    case Idle => LeftAt(run, i, k, t, pos, g, p, u)
    case _ => false
  }

  ghost predicate TookAt(run: seq<State>, i: int, k: int, t: int, p: int)
    requires 0 <= i < k < |run| && 0 <= t && forall m :: i <= m <= k ==> t < |run[m].ths|
  {
    i < p < k && Takes(run[p].sh, run[p].ths[t], run[p + 1].sh, run[p + 1].ths[t])
  }

  ghost predicate LeftAt(run: seq<State>, i: int, k: int, t: int, pos: int, g: bool, p: int, u: int)
    requires 0 <= i < k < |run| && 0 <= t && forall m :: i <= m <= k ==> t < |run[m].ths|
  {
    && i < u < k && run[u].ths[t].Waiter? && run[u].ths[t].w.Leave? && run[u].ths[t].pos == pos && run[u].ths[t].g == g
    && (run[u].ths[t].w.took ==> TookAt(run, i, u, t, p))
  }

  ghost predicate OnWaitPath(run: seq<State>, i: int, k: int, t: int)
    requires 0 <= i < k < |run| && 0 <= t && forall m :: i <= m <= k ==> t < |run[m].ths|
  {
    forall m :: i < m < k && (run[m].ths[t].Waiter? || run[m].ths[t].WakeDestroyer?)
      ==> run[m + 1].ths[t] == run[m].ths[t] || WaitStep(run[m].sh, run[m].ths[t], run[m + 1].sh, run[m + 1].ths[t])
  }

  lemma {:induction false} WaitTrack(run: seq<State>, i: int, k: int, t: int, pos: int, g: bool)
      returns (p: int, u: int)
    requires 0 <= i < k < |run| && 0 <= t && forall m :: i <= m <= k ==> t < |run[m].ths|
    requires OnWaitPath(run, i, k, t)
    requires run[i + 1].ths[t] == Waiter(Registered, pos, g) && forall m :: i < m < k ==> run[m].ths[t] != Idle
    ensures WaitSoFar(run, i, k, t, pos, g, p, u)
  {
    p, u := 0, 0;
    if k > i + 1 {
      p, u := WaitTrack(run, i, k - 1, t, pos, g);
      var l, l' := run[k - 1].ths[t], run[k - 1 + 1].ths[t];
      if l' != l {
        assert WaitStep(run[k - 1].sh, l, run[k - 1 + 1].sh, l');
        if l.Waiter? && l.w.Leave? {
          u := k - 1;
        } else if l.Waiter? && !HasSignal(l.w) {
          p := k - 1;
        }
      }
    }
  }

  lemma WaitIsOnPath(run: seq<State>, i: int, j: int, t: int)
    requires IsRun(run) && 0 <= i < j < |run| && 0 <= t < |run[i].ths|
    requires forall k :: i <= k <= j ==> |run[k].ths| == |run[i].ths|
    ensures OnWaitPath(run, i, j, t)
  {
    forall m | i < m < j && (run[m].ths[t].Waiter? || run[m].ths[t].WakeDestroyer?)
      ensures run[m + 1].ths[t] == run[m].ths[t]
              || WaitStep(run[m].sh, run[m].ths[t], run[m + 1].sh, run[m + 1].ths[t])
    {
      WaitStepOfRun(run, m, t);
    }
  }

  lemma WaitStepOfRun(run: seq<State>, m: int, t: int)
    requires IsRun(run) && 0 <= m < |run| - 1 && 0 <= t < |run[m].ths| == |run[m + 1].ths|
    requires run[m].ths[t].Waiter? || run[m].ths[t].WakeDestroyer?
    ensures run[m + 1].ths[t] == run[m].ths[t]
            || WaitStep(run[m].sh, run[m].ths[t], run[m + 1].sh, run[m + 1].ths[t])
  {
    var s, s' := run[m], run[m + 1];
    assert Next(s, s');
    NextMoves(s, s', t);
    if s'.ths[t] != s.ths[t] {
      var c :| Act(s.sh, s.ths[t], c) == Out(s'.sh, s'.ths[t]);
      TakesWaitStep(s.sh, s.ths[t], c);
    }
  }

  lemma WaitStarts(run: seq<State>, i: int, j: int, t: int)
    requires IsCall(run, i, j, t, CallWait)
    ensures i + 1 < j && run[i + 1].ths[t] == Waiter(Registered, run[i].sh.m.next, run[i].sh.m.g2)
    ensures run[i + 1].sh.m.next == run[i].sh.m.next + 1
  {
  }

  /** A whole call of wait, whatever the other threads do: it has the number and the slot that wseq held when it was
      made, and before it returns it has taken a signal out of that slot, or all up to its number have been
      signaled. */
  lemma WaitCall(run: seq<State>, i: int, j: int, t: int) returns (p: int, u: int)
    requires IsCall(run, i, j, t, CallWait)
    ensures LeftAt(run, i, j, t, run[i].sh.m.next, run[i].sh.m.g2, p, u)
    ensures run[u].ths[t].w.took || run[i].sh.m.next < run[u].sh.total
  {
    WaitStarts(run, i, j, t);
    WaitIsOnPath(run, i, j, t);
    p, u := WaitTrack(run, i, j, t, run[i].sh.m.next, run[i].sh.m.g2);
    if !run[u].ths[t].w.took {
      LeavesOnlyWhenPosted(run, u, t);
    }
  }
}
