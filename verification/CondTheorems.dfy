/** The properties of the condition variable, for every state of every run. */
module CondTheorems {
  import opened CondMemory
  import opened CondProtocol
  import opened CondInvariant
  import opened CondTally
  import opened CondSafety
  import opened Tally

  // ---------- groups and sequence numbers ----------

  ghost predicate Distinct(ths: seq<Local>) {
    forall i, j :: 0 <= i < j < |ths| && ths[i].Waiter? && ths[j].Waiter? ==> ths[i].pos != ths[j].pos
  }

  lemma StepKeepsPlace(sh: Shared, l: Local, c: Choice)
    ensures var l' := Act(sh, l, c).l;
            l'.Waiter? ==> (l.Waiter? && l'.pos == l.pos && l'.g == l.g) || (l == Idle && l'.pos == sh.m.next)
  {
  }

  lemma DistinctUpdate(ths: seq<Local>, t: int, l: Local, next: int)
    requires 0 <= t < |ths| && Distinct(ths)
    requires forall i :: 0 <= i < |ths| && ths[i].Waiter? ==> ths[i].pos < next
    requires l.Waiter? ==> (ths[t].Waiter? && l.pos == ths[t].pos) || l.pos == next
    ensures Distinct(ths[t := l])
  {
  }

  lemma PlacesBelowNext(s: State)
    requires Inv(s)
    ensures forall i :: 0 <= i < |s.ths| && s.ths[i].Waiter? ==> s.ths[i].pos < s.sh.m.next
  {
    forall i | 0 <= i < |s.ths| && s.ths[i].Waiter? ensures s.ths[i].pos < s.sh.m.next {
      assert LocalInv(s.sh, s.ths[i]);
    }
  }

  lemma WakeKeepsPlace(sh: Shared, l: Local, c: Choice, a: Address)
    requires SleepsOn(l, a) || NextWake(l).Duty?
    ensures var l' := Act(sh, l, c).l;
            l'.Waiter? ==> l.Waiter? && l'.pos == l.pos
  {
    StepKeepsPlace(sh, l, c);
  }

  lemma DistinctWake(s: State, t: int, u: int, c: Choice, s': State)
    requires Inv(s) && Distinct(s.ths) && WakeStep(s, t, u, c, s')
    ensures Distinct(s'.ths)
  {
    PlacesBelowNext(s);
    var a := NextWake(s.ths[t]).a;
    WakeKeepsPlace(s.sh, s.ths[t], c, a);
    WakeKeepsPlace(s.sh, s.ths[u], c, a);
    var mid := s.ths[t := s'.ths[t]];
    DistinctUpdate(s.ths, t, s'.ths[t], s.sh.m.next);
    DistinctUpdate(mid, u, s'.ths[u], s.sh.m.next);
    assert s'.ths == mid[u := s'.ths[u]];
  }

  lemma DistinctNext(s: State, s': State)
    requires Inv(s) && Distinct(s.ths) && Next(s, s')
    ensures Distinct(s'.ths)
  {
    if t, c :| Solo(s, t, c, s') {
      PlacesBelowNext(s);
      StepKeepsPlace(s.sh, s.ths[t], c);
      DistinctUpdate(s.ths, t, Act(s.sh, s.ths[t], c).l, s.sh.m.next);
    } else {
      var t, u, c :| WakeStep(s, t, u, c, s');
      DistinctWake(s, t, u, c, s');
    }
  }

  lemma {:induction false} DistinctRun(run: seq<State>, i: int)
    requires IsRun(run) && 0 <= i < |run|
    ensures Distinct(run[i].ths)
  {
    if i > 0 {
      DistinctRun(run, i - 1);
      InvRun(run, i - 1);
      assert Next(run[i - 1], run[i - 1 + 1]);
      DistinctNext(run[i - 1], run[i]);
    } else {
      assert forall j :: 0 <= j < |run[0].ths| ==> run[0].ths[j] == Idle;
    }
  }

  /** With the inner lock free, G1 has the sequence numbers from g1_start on, as many as its
      original size, G2 those from there up to wseq, and a waiter's slot is the slot of its
      group; sequence numbers are not shared. Older waiters are past their group. */
  lemma Partition(run: seq<State>, i: int, t: int)
    requires IsRun(run) && 0 <= i < |run| && 0 <= t < |run[i].ths|
    requires !run[i].sh.m.locked && run[i].ths[t].Waiter?
    ensures var m, l := run[i].sh.m, run[i].ths[t];
            && l.pos < m.next
            && (m.start <= l.pos < m.start + m.orig ==> l.g == !m.g2)
            && (m.start + m.orig <= l.pos ==> l.g == m.g2)
            && forall u :: 0 <= u < |run[i].ths| && u != t && run[i].ths[u].Waiter? ==> run[i].ths[u].pos != l.pos
  {
    InvRun(run, i);
    DistinctRun(run, i);
    assert LocalInv(run[i].sh, run[i].ths[t]);
  }

  /** The group words with the inner lock free. */
  lemma GroupWords(run: seq<State>, i: int)
    requires IsRun(run) && 0 <= i < |run| && !run[i].sh.m.locked
    ensures var m := run[i].sh.m;
            && m.bit == m.g2
            && 0 <= m.start && m.start + m.orig <= m.next
            && At(m, m.g2).size == 0 && 0 <= At(m, !m.g2).size <= m.orig
            && !m.s0.closed && !m.s1.closed
  {
    InvRun(run, i);
  }

  /** The xor of wseq cuts exactly: all waiters of the new G1 have registered before it, all
      later ones go to the other slot. */
  lemma FlipIsExactCut(run: seq<State>, i: int, t: int, c: Choice, s': State, u: int)
    requires IsRun(run) && 0 <= i < |run| && Solo(run[i], t, c, s')
    requires run[i].ths[t].Signaler? && run[i].ths[t].s.Flip?
    requires 0 <= u < |s'.ths| && s'.ths[u].Waiter?
    ensures s'.sh.cut == s'.sh.m.next == run[i].sh.m.next && s'.sh.m.g2 != run[i].sh.m.g2
    ensures s'.ths[u].pos >= s'.sh.m.start ==> s'.ths[u].g == !s'.sh.m.g2
  {
    InvRun(run, i);
    assert LocalInv(run[i].sh, run[i].ths[t]);
    assert LocalInv(run[i].sh, run[i].ths[u]);
  }

  /** g1_start never goes back: a switch adds exactly the old original size to the position and
      toggles the index, and all other steps leave the word alone. */
  lemma StartWordGrows(run: seq<State>, i: int, t: int, c: Choice, s': State)
    requires IsRun(run) && 0 <= i < |run| && Solo(run[i], t, c, s')
    ensures Rank(Current(s'.sh)) >= Rank(Current(run[i].sh))
    ensures Current(s'.sh) != Current(run[i].sh) ==>
              && Advancing(run[i].ths[t])
              && s'.sh.m.start == run[i].sh.m.start + run[i].sh.m.orig && s'.sh.m.bit == !run[i].sh.m.bit
              && (run[i].sh.m.orig >= 1 || Current(run[i].sh) == StartWord(0, false))
  {
    InvRun(run, i);
    assert LocalInv(run[i].sh, run[i].ths[t]);
    if Advancing(run[i].ths[t]) {
      RankGrows(run[i].sh, run[i].ths[t], c);
    } else {
      OnlyAdvanceMovesStart(run[i].sh, run[i].ths[t], c);
    }
  }

  // ---------- blocking ----------

  /** A thread that is about to block or blocked on a group futex has a reference on it and
      belongs to a group that has not been closed for good. */
  lemma NoBlockingInReusedSlot(run: seq<State>, i: int, t: int)
    requires IsRun(run) && 0 <= i < |run| && 0 <= t < |run[i].ths|
    requires run[i].ths[t].Waiter? && (run[i].ths[t].w.Futex? || run[i].ths[t].w.Asleep?)
    ensures var l := run[i].ths[t];
            run[i].sh.m.start <= l.pos && At(run[i].sh.m, l.g).refs >= 1
  {
    InvRun(run, i);
    assert LocalInv(run[i].sh, run[i].ths[t]);
    SumAtLeast(RefsW(run[i].ths[t].g), run[i].ths, t);
  }

  /** When the quiescing loop is over and until the slot is reopened nobody sleeps on it and
      nobody is about to. */
  lemma DrainedSlotIsEmpty(run: seq<State>, i: int, t: int, u: int)
    requires IsRun(run) && 0 <= i < |run| && 0 <= t < |run[i].ths| && 0 <= u < |run[i].ths|
    requires run[i].ths[t].Signaler? && (run[i].ths[t].s.Advance? || run[i].ths[t].s.ReopenSlot?)
    ensures run[i].ths[u].Waiter? && run[i].ths[u].g == run[i].ths[t].g
            ==> !run[i].ths[u].w.CheckStart? && !run[i].ths[u].w.Futex? && !run[i].ths[u].w.Asleep?
  {
    InvRun(run, i);
    assert LocalInv(run[i].sh, run[i].ths[t]);
    assert LocalInv(run[i].sh, run[i].ths[u]);
  }

  // ---------- posting ----------

  /** With the inner lock free, the signals ever posted are the members of all closed groups and those
      of G1 that are not counted in its size, never more than the waiters ever registered. */
  lemma PostingConservation(run: seq<State>, i: int)
    requires IsRun(run) && 0 <= i < |run| && !run[i].sh.m.locked
    ensures var m := run[i].sh.m;
            run[i].sh.total == m.start + m.orig - At(m, !m.g2).size <= m.next
  {
    InvRun(run, i);
  }

  /** A signal that gets the lock posts nothing only if every waiter it could see has been
      signaled; a broadcast that gets the lock leaves every waiter it could see signaled. */
  lemma CallOutcome(run: seq<State>, i: int, t: int)
    requires IsRun(run) && 0 <= i < |run| && 0 <= t < |run[i].ths|
    requires run[i].ths[t].Signaler? && run[i].ths[t].s.Unlock?
    ensures var l := run[i].ths[t];
            && (l.op == Signal && l.s.wakes == NoWake ==> run[i].sh.total == l.rd)
            && (l.op == Broadcast ==> run[i].sh.total >= l.rd)
  {
    InvRun(run, i);
    assert LocalInv(run[i].sh, run[i].ths[t]);
  }

  /** `total` counts what is added to g_signals by posting: a step of the lock holder adds to it
      exactly what it adds to the G1 slot and takes off its size; a signal adds one. */
  lemma PostingStep(run: seq<State>, i: int, t: int, c: Choice, s': State)
    requires IsRun(run) && 0 <= i < |run| && Solo(run[i], t, c, s')
    ensures var sh, sh', l := run[i].sh, s'.sh, run[i].ths[t];
            && sh'.total >= sh.total
            && (sh'.total != sh.total ==>
                  && l.Signaler? && G1(sh') == G1(sh) == l.g
                  && sh'.total - sh.total == At(sh'.m, l.g).signals - At(sh.m, l.g).signals
                                          == At(sh.m, l.g).size - At(sh'.m, l.g).size
                  && (l.op == Signal ==> sh'.total == sh.total + 1))
  {
    InvRun(run, i);
    var l := run[i].ths[t];
    assert LocalInv(run[i].sh, l);
    if l.Waiter? {
      WaiterStepAlike(run[i].sh, l.w, l.pos, l.g, c);
    }
  }

  /** The thread has nothing left to post in its call. */
  predicate HasPosted(l: Local) {
    (l.Signaler? && l.s.Unlock?) || l.Waking?
  }

  lemma PostedStays(s: State, s': State, t: int)
    requires Next(s, s') && 0 <= t < |s.ths| && HasPosted(s.ths[t])
    ensures |s'.ths| == |s.ths| && (HasPosted(s'.ths[t]) || s'.ths[t] == Idle)
  {
  }

  lemma {:induction false} StaysUntilIdle(ls: seq<Local>)
    requires ls != [] && HasPosted(ls[0])
    requires forall k :: 0 < k < |ls| ==> ls[k] != Idle
    requires forall k :: 0 < k < |ls| && HasPosted(ls[k - 1]) ==> HasPosted(ls[k]) || ls[k] == Idle
    ensures HasPosted(ls[|ls| - 1])
  {
    if |ls| > 1 {
      StaysUntilIdle(ls[..|ls| - 1]);
    }
  }

  lemma NextKeepsThreads(s: State, s': State)
    requires Next(s, s')
    ensures |s'.ths| == |s.ths|
  {
  }

  /** The number of threads is the same in all states of a run. */
  lemma {:induction false} SameThreads(run: seq<State>, k: int)
    requires IsRun(run) && 0 <= k < |run|
    ensures |run[k].ths| == |run[0].ths|
  {
    if k > 0 {
      SameThreads(run, k - 1);
      NextKeepsThreads(run[k - 1], run[k - 1 + 1]);
    }
  }

  lemma StepOfRun(run: seq<State>, k: int, t: int)
    requires IsRun(run) && 0 < k < |run| && 0 <= t < |run[k - 1].ths| == |run[k].ths| && HasPosted(run[k - 1].ths[t])
    ensures HasPosted(run[k].ths[t]) || run[k].ths[t] == Idle
  {
    assert Next(run[k - 1], run[k - 1 + 1]);
    PostedStays(run[k - 1], run[k], t);
  }

  lemma PostedUntilIdle(run: seq<State>, i: int, j: int, t: int)
    requires 0 <= i <= j < |run| && forall k :: i <= k <= j ==> 0 <= t < |run[k].ths|
    requires forall k :: i < k <= j && HasPosted(run[k - 1].ths[t])
               ==> HasPosted(run[k].ths[t]) || run[k].ths[t] == Idle
    requires HasPosted(run[i].ths[t]) && forall k :: i < k <= j ==> run[k].ths[t] != Idle
    ensures HasPosted(run[j].ths[t])
  {
    StaysUntilIdle(seq(j - i + 1, k requires 0 <= k < j - i + 1 => run[i + k].ths[t]));
  }

  lemma PostsNoMore(sh: Shared, l: Local, c: Choice)
    requires HasPosted(l)
    ensures Act(sh, l, c).sh.total == sh.total
  {
  }

  /** A call of signal posts at most once: after a step of it that posts, and until it has returned, no step of the
      thread posts. */
  lemma SignalPostsOnce(run: seq<State>, i: int, j: int, t: int, c: Choice, d: Choice, s': State)
    requires IsRun(run) && 0 <= i < j < |run| && Solo(run[i], t, c, run[i + 1]) && Solo(run[j], t, d, s')
    requires run[i].ths[t].Signaler? && run[i].ths[t].op == Signal && run[i + 1].sh.total != run[i].sh.total
    requires forall k :: i < k <= j ==> t < |run[k].ths| && run[k].ths[t] != Idle
    ensures run[i + 1].sh.total == run[i].sh.total + 1
    ensures s'.sh.total == run[j].sh.total
  {
    PostingStep(run, i, t, c, run[i + 1]);
    OneSignalIsAll(run, i, t, c);
    forall k | i < k <= j && HasPosted(run[k - 1].ths[t])
      ensures HasPosted(run[k].ths[t]) || run[k].ths[t] == Idle
    {
      SameThreads(run, k - 1);
      SameThreads(run, k);
      StepOfRun(run, k, t);
    }
    PostedUntilIdle(run, i + 1, j, t);
    PostsNoMore(run[j].sh, run[j].ths[t], d);
  }

  lemma OneSignalIsAll(run: seq<State>, i: int, t: int, c: Choice)
    requires IsRun(run) && 0 <= i < |run| - 1 && Solo(run[i], t, c, run[i + 1])
    requires run[i].ths[t].Signaler? && run[i].ths[t].op == Signal && run[i + 1].sh.total != run[i].sh.total
    ensures HasPosted(run[i + 1].ths[t])
  {
    InvRun(run, i);
    assert LocalInv(run[i].sh, run[i].ths[t]);
    SignalIsDone(run[i].sh, run[i].ths[t], c);
  }

  lemma SignalIsDone(sh: Shared, l: Local, c: Choice)
    requires LocalInv(sh, l) && l.Signaler? && l.op == Signal && Act(sh, l, c).sh.total != sh.total
    ensures HasPosted(Act(sh, l, c).l)
  {
  }

  /** A wait that returns without having taken a signal had its own turn posted. */
  lemma LeavesOnlyWhenPosted(run: seq<State>, i: int, t: int)
    requires IsRun(run) && 0 <= i < |run| && 0 <= t < |run[i].ths|
    requires run[i].ths[t].Waiter? && run[i].ths[t].w == Leave(false)
    ensures run[i].ths[t].pos < run[i].sh.total
  {
    InvRun(run, i);
    assert LocalInv(run[i].sh, run[i].ths[t]);
  }

  /** A signal of G1 is never taken by a waiter registered after the roles were switched. */
  lemma NewcomerNeverTakes(run: seq<State>, i: int, t: int, c: Choice, s': State)
    requires IsRun(run) && 0 <= i < |run| && Solo(run[i], t, c, s')
    requires s'.ths[t].Waiter? && s'.ths[t].w.Consumed?
    requires run[i].ths[t].w.Consume?
    requires run[i].ths[t].g == !run[i].sh.m.g2 == G1(run[i].sh)
    ensures run[i].ths[t].pos < run[i].sh.cut
    ensures run[i].sh.phase == Open ==> run[i].ths[t].pos < run[i].sh.m.start + run[i].sh.m.orig
  {
    InvRun(run, i);
    assert LocalInv(run[i].sh, run[i].ths[t]);
  }

  // ---------- stolen signals ----------

  /** While G1 is open, the signals it holds, those its members took and those thieves still owe
      it are all those posted to it, and some in excess. */
  lemma StolenSignalsAreNotLost(run: seq<State>, i: int)
    requires IsRun(run) && 0 <= i < |run| && !At(run[i].sh.m, G1(run[i].sh)).closed
    ensures var sh := run[i].sh;
            var owed := Sum(ThiefW(Current(sh)), run[i].ths);
            && At(sh.m, G1(sh)).signals + sh.taken + owed == sh.total - sh.m.start + sh.extra
            && At(sh.m, G1(sh)).signals + sh.taken + owed >= sh.total - sh.m.start
  {
    InvRun(run, i);
  }

  /** A signal that lies unused while a waiter sleeps on its slot will be looked at: a wake-up is on
      its way, or another member of the slot is awake in its loop. */
  lemma SleeperIsNotForgotten(run: seq<State>, i: int, t: int, x: bool) returns (u: int)
    requires IsRun(run) && 0 <= i < |run| && 0 <= t < |run[i].ths| && IsAsleep(run[i].ths[t], x)
    requires !At(run[i].sh.m, x).closed && At(run[i].sh.m, x).signals > 0
    ensures 0 <= u < |run[i].ths|
    ensures var l := run[i].ths[u];
            WillWakeOne(l, x) || WillWakeAll(l, x) || IsAwakeMember(Current(run[i].sh), l, x)
  {
    var s := run[i];
    InvRun(run, i);
    SumAtLeast(SleepW(x), s.ths, t);
    var n := SlotTotal(Current(s.sh), x, s.ths);
    assert SlotInv(At(s.sh.m, x), n);
    if n.pendAll > 0 {
      u := SumWitness(PendAllW(x), s.ths);
    } else if n.pend > 0 {
      u := SumWitness(PendW(x), s.ths);
    } else {
      u := SumWitness(AwakeW(Current(s.sh), x), s.ths);
    }
  }

  // ---------- the quiescing signaler ----------

  /** A thread on its way through the last part of dec_grefs, or that will get there. */
  lemma QuiescerIsNeverStranded(run: seq<State>, i: int, t: int)
    requires IsRun(run) && 0 <= i < |run| && 0 <= t < |run[i].ths|
    requires run[i].ths[t].Signaler? && run[i].ths[t].s.QAsleep?
    ensures var g := run[i].ths[t].g;
            || (At(run[i].sh.m, g).wake && At(run[i].sh.m, g).refs >= 1)
            || exists u :: 0 <= u < |run[i].ths| && IsInDec(run[i].ths[u], g)
  {
    var s, g := run[i], run[i].ths[t].g;
    InvRun(run, i);
    SumAtLeast(QSleepW(g), s.ths, t);
    var n := SlotTotal(Current(s.sh), g, s.ths);
    assert SlotInv(At(s.sh.m, g), n);
    if n.inDec > 0 {
      var u := SumWitness(InDecW(g), s.ths);
    }
  }

  /** While G1 is being drained, every member that still sleeps has a wake-up of its own: a wake-all
      is on its way, or there are as many single ones, executed or still owed by thieves. */
  lemma DrainIsCovered(run: seq<State>, i: int)
    requires IsRun(run) && 0 <= i < |run| && run[i].sh.phase == Closing
    ensures var cur, g, ths := Current(run[i].sh), G1(run[i].sh), run[i].ths;
            || Sum(PendAllW(g), ths) > 0
            || Sum(SleepW(g), ths) <= Sum(PendW(g), ths) + Sum(ThiefW(cur), ths)
  {
    InvRun(run, i);
  }

  /** Can take a step now: neither asleep nor waiting for the inner lock. */
  predicate Runs(l: Local) {
    !l.Acquire? && !(l.Waiter? && l.w.Asleep?) && !(l.Signaler? && l.s.QAsleep?) && !(l.Destroyer? && l.d.DAsleep?)
  }

  /** Holds the quiescer up on slot g, or will wake somebody who does. */
  predicate Concerned(cur: StartWord, l: Local, g: bool) {
    HoldsRef(l, g) || IsInDec(l, g) || WillWakeOne(l, g) || WillWakeAll(l, g) || IsThief(cur, l)
  }

  /** Quiescing never deadlocks: whenever the quiescer sleeps, another thread that can run holds it up
      or will wake a thread that does. */
  lemma QuiesceNeverDeadlocks(run: seq<State>, i: int, t: int) returns (u: int)
    requires IsRun(run) && 0 <= i < |run| && 0 <= t < |run[i].ths|
    requires run[i].ths[t].Signaler? && run[i].ths[t].s.QAsleep?
    ensures 0 <= u < |run[i].ths| && u != t
    ensures Runs(run[i].ths[u]) && Concerned(Current(run[i].sh), run[i].ths[u], run[i].ths[t].g)
  {
    var s, g := run[i], run[i].ths[t].g;
    InvRun(run, i);
    assert LocalInv(s.sh, s.ths[t]);
    QuiescerIsNeverStranded(run, i, t);
    if v :| 0 <= v < |s.ths| && IsInDec(s.ths[v], g) {
      u := v;
    } else {
      DrainIsCovered(run, i);
      var h := SumWitness(RefsW(g), s.ths);
      if Runs(s.ths[h]) {
        u := h;
      } else {
        SumAtLeast(SleepW(g), s.ths, h);
        u := WakerOf(Current(s.sh), s.ths, g);
      }
    }
  }

  lemma WakerOf(cur: StartWord, ths: seq<Local>, g: bool) returns (u: int)
    requires Sum(PendAllW(g), ths) > 0 || 0 < Sum(SleepW(g), ths) <= Sum(PendW(g), ths) + Sum(ThiefW(cur), ths)
    ensures 0 <= u < |ths| && Runs(ths[u])
    ensures WillWakeOne(ths[u], g) || WillWakeAll(ths[u], g) || IsThief(cur, ths[u])
  {
    if Sum(PendAllW(g), ths) > 0 {
      u := SumWitness(PendAllW(g), ths);
    } else if Sum(PendW(g), ths) > 0 {
      u := SumWitness(PendW(g), ths);
    } else {
      u := SumWitness(ThiefW(cur), ths);
    }
  }

  // ---------- destroying and the fast path ----------

  /** wrefs counts the threads between stage 2 and stage 5. */
  lemma WaitersAreCounted(run: seq<State>, i: int)
    requires IsRun(run) && 0 <= i < |run|
    ensures run[i].sh.m.wcount == Sum(CountedW(), run[i].ths)
  {
    InvRun(run, i);
  }

  /** Destroy returns, and signal and broadcast take their fast path, only when no thread is between
      stage 2 and stage 5 of a wait. */
  lemma ReturnsOnlyWhenNobodyWaits(run: seq<State>, i: int, t: int, c: Choice, s': State, u: int)
    requires IsRun(run) && 0 <= i < |run| && Solo(run[i], t, c, s')
    requires run[i].ths[t].Destroyer? || run[i].ths[t].Fast?
    requires s'.ths[t] == Idle
    requires 0 <= u < |s'.ths|
    ensures !IsCounted(s'.ths[u])
  {
    InvRun(run, i);
    SumZero(CountedW(), run[i].ths);
    assert u == t || CountedW()(run[i].ths[u]) == 0;
  }

  /** A destroyer that sleeps will be woken: waiters are still counted and know that they have to, or
      the last one has left and is about to wake it. */
  lemma DestroyerIsNeverStranded(run: seq<State>, i: int, t: int)
    requires IsRun(run) && 0 <= i < |run| && 0 <= t < |run[i].ths| && IsDestroyerAsleep(run[i].ths[t])
    ensures || (run[i].sh.m.destroying && run[i].sh.m.wcount >= 1)
            || exists u :: 0 <= u < |run[i].ths| && run[i].ths[u].WakeDestroyer?
  {
    InvRun(run, i);
    SumAtLeast(DSleepW(), run[i].ths, t);
    if Sum(DPendW(), run[i].ths) > 0 {
      var u := SumWitness(DPendW(), run[i].ths);
    }
  }

  // ---------- bounds ----------

  /** The counts that the packed words have room for: references and waiters never exceed the number of threads,
      group sizes never the number of waiters ever registered, and none is negative. */
  lemma CountersFit(run: seq<State>, i: int, g: bool)
    requires IsRun(run) && 0 <= i < |run|
    ensures var m, n := run[i].sh.m, |run[i].ths|;
            && 0 <= At(m, g).refs <= n && 0 <= m.wcount <= n
            && 0 <= At(m, g).size <= m.next && 0 <= At(m, g).signals && m.start <= m.next
  {
    InvRun(run, i);
    var s := run[i];
    assert SlotInv(At(s.sh.m, g), SlotTotal(Current(s.sh), g, s.ths));
    SumBounded(RefsW(g), s.ths);
    SumBounded(CountedW(), s.ths);
  }
}
