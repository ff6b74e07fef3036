/** three_states_lock_t.h: a futex lock in the two low bits of a word whose upper 30 bits
    belong to somebody else, as an interleaving of the atomic steps of any number of threads.
    The holder may replace the upper bits with the compare-and-exchange loop of
    pthread_cond.h:205-210. Parameter `retry` selects the code: `false` is the code as it is,
    `true` the one in which every failed exchange of the slow path starts the loop again. */
module ThreeStateLock {
  import opened Tally
  import opened Numbers

  // The states of the lock bits.
  const UNLOCKED := 0
  const LOCKED := 1
  const WAITERS := 2

  function LockBits(word: int): int { word % 4 }

  function Upper(word: int): int { word / 4 }

  function WithBits(word: int, bits: int): int { word - word % 4 + bits }

  datatype Local =
    | Out
    | Load                        // 19
    | FastCas(e: int)             // 22-24
    | SlowCas(e: int)             // 31-34
    | Futex(e: int)               // 46
    | Asleep(e: int)              // inside the futex call of 46
    | Reload                      // 49
    | Held                        // the critical section
    | Resize(e: int, n: int)      // the loop that replaces the upper bits
    | Wake                        // 56

  datatype State = State(word: int, ths: seq<Local>)

  /** What a thread does next when it has a choice, and whether a weak exchange fails spuriously. */
  datatype Choice = Choice(unlock: bool, n: nat, fail: bool)

  datatype Outcome = Outcome(word: int, l: Local)

  /** Line 31: the slow path with a freshly seen value. */
  function Slow(e: int): Local {
    if LockBits(e) != WAITERS then SlowCas(e) else Futex(e)
  }

  /** Line 22: the fast path with a freshly seen value. */
  function Entered(e: int): Local {
    if LockBits(e) == UNLOCKED then FastCas(e) else Slow(e)
  }

  function Act(retry: bool, word: int, l: Local, c: Choice): Outcome {
    match l
    case Out => Outcome(word, Load)
    case Load => Outcome(word, Entered(word))
    case FastCas(e) =>
      if !c.fail && word == e then Outcome(WithBits(e, LOCKED), Held) else Outcome(word, Entered(word))
    case SlowCas(e) =>
      if !c.fail && word == e then
        Outcome(WithBits(e, WAITERS), if LockBits(e) == UNLOCKED then Held else Futex(WithBits(e, WAITERS)))
      else if retry || LockBits(word) == UNLOCKED then Outcome(word, Slow(word))
      else Outcome(word, Futex(word))
    case Futex(e) => Outcome(word, if word == e then Asleep(e) else Reload)
    case Asleep(_) => Outcome(word, Reload)
    case Reload => Outcome(word, Slow(word))
    case Held =>
      if c.unlock then Outcome(WithBits(word, UNLOCKED), if LockBits(word) == WAITERS then Wake else Out)
      else Outcome(word, Resize(word, c.n))
    case Resize(e, n) =>
      if !c.fail && word == e then Outcome(n * 4 + LockBits(e), Held) else Outcome(word, Resize(word, n))
    case Wake => Outcome(word, Out)
  }

  /** A step of thread t alone. The wake call ends this way when nobody sleeps on the word. */
  ghost predicate Solo(retry: bool, s: State, t: int, c: Choice, s': State) {
    && 0 <= t < |s.ths|
    && (s.ths[t].Wake? ==> forall i :: 0 <= i < |s.ths| ==> !s.ths[i].Asleep?)
    && var o := Act(retry, s.word, s.ths[t], c);
    && s'.word == o.word && s'.ths == s.ths[t := o.l]
  }

  /** The wake call of thread t returns the sleeper u. */
  ghost predicate WakeOne(s: State, t: int, u: int, s': State) {
    && 0 <= t < |s.ths| && 0 <= u < |s.ths| && s.ths[t].Wake? && s.ths[u].Asleep?
    && s'.word == s.word && s'.ths == s.ths[t := Out][u := Reload]
  }

  ghost predicate Next(retry: bool, s: State, s': State) {
    || (exists t, c :: Solo(retry, s, t, c, s'))
    || (exists t, u :: WakeOne(s, t, u, s'))
  }

  ghost predicate Init(s: State) {
    s.word >= 0 && LockBits(s.word) == UNLOCKED && forall i :: 0 <= i < |s.ths| ==> s.ths[i] == Out
  }

  ghost predicate IsRun(retry: bool, run: seq<State>) {
    && |run| > 0 && Init(run[0])
    && forall i :: 0 <= i < |run| - 1 ==> Next(retry, run[i], run[i + 1])
  }

  // ---------- what is counted ----------

  predicate Holds(l: Local) {
    l.Held? || l.Resize?
  }

  /** Awake in the slow path. */
  predicate InSlowPath(l: Local) {
    l.SlowCas? || l.Futex? || l.Reload?
  }

  function HoldW(): Local -> nat { (l: Local) => One(Holds(l)) }
  function SleepW(): Local -> nat { (l: Local) => One(l.Asleep?) }
  function SlowW(): Local -> nat { (l: Local) => One(InSlowPath(l)) }
  function WakeW(): Local -> nat { (l: Local) => One(l.Wake?) }

  datatype Count = Count(hold: int, sleep: int, slow: int, wake: int)

  function Weight(l: Local): Count {
    Count(One(Holds(l)), One(l.Asleep?), One(InSlowPath(l)), One(l.Wake?))
  }

  function Total(ths: seq<Local>): Count {
    Count(Sum(HoldW(), ths), Sum(SleepW(), ths), Sum(SlowW(), ths), Sum(WakeW(), ths))
  }

  function Move(n: Count, o: Count, w: Count): Count {
    Count(n.hold - o.hold + w.hold, n.sleep - o.sleep + w.sleep, n.slow - o.slow + w.slow, n.wake - o.wake + w.wake)
  }

  predicate AtLeast(n: Count, w: Count) {
    n.hold >= w.hold && n.sleep >= w.sleep && n.slow >= w.slow && n.wake >= w.wake
  }

  lemma TotalUpdate(ths: seq<Local>, t: int, l: Local)
    requires 0 <= t < |ths|
    ensures Total(ths[t := l]) == Move(Total(ths), Weight(ths[t]), Weight(l))
    ensures AtLeast(Total(ths), Weight(ths[t]))
  {
    SumUpdate(HoldW(), ths, t, l);
    SumUpdate(SleepW(), ths, t, l);
    SumUpdate(SlowW(), ths, t, l);
    SumUpdate(WakeW(), ths, t, l);
    SumAtLeast(HoldW(), ths, t);
    SumAtLeast(SleepW(), ths, t);
    SumAtLeast(SlowW(), ths, t);
    SumAtLeast(WakeW(), ths, t);
  }

  // ---------- the invariant ----------

  predicate LocalInv(retry: bool, l: Local) {
    match l
    case FastCas(e) => LockBits(e) == UNLOCKED && e >= 0
    case SlowCas(e) => LockBits(e) != WAITERS && 0 <= LockBits(e) <= 2 && e >= 0
    case Futex(e) => LockBits(e) != UNLOCKED && (retry ==> LockBits(e) == WAITERS)
    case Resize(e, n) => n >= 0 && e >= 0 && LockBits(e) <= 2
    case _ => true
  }

  /** At most one thread holds the lock, just when the lock bits say so; they are never 3. */
  predicate Exclusive(word: int, n: Count) {
    word >= 0 && LockBits(word) <= WAITERS && n.hold == One(LockBits(word) != UNLOCKED)
  }

  /** A sleeper is noted in the word, or somebody awake will take care of it. */
  predicate Covered(word: int, n: Count) {
    n.sleep > 0 ==> LockBits(word) == WAITERS || n.wake > 0 || n.slow > 0
  }

  ghost predicate Inv(retry: bool, s: State) {
    && (forall i :: 0 <= i < |s.ths| ==> LocalInv(retry, s.ths[i]))
    && Exclusive(s.word, Total(s.ths))
    && (retry ==> Covered(s.word, Total(s.ths)))
  }

  lemma StepLocal(retry: bool, word: int, l: Local, c: Choice)
    requires LocalInv(retry, l) && word >= 0 && LockBits(word) <= WAITERS
    ensures LocalInv(retry, Act(retry, word, l, c).l)
  {
  }

  lemma BitsOf(word: int, bits: int)
    requires word >= 0 && 0 <= bits <= 2
    ensures WithBits(word, bits) >= 0 && LockBits(WithBits(word, bits)) == bits
    ensures Upper(WithBits(word, bits)) == Upper(word)
  {
  }

  lemma BitsOfResized(e: int, n: nat)
    requires e >= 0
    ensures LockBits(n * 4 + LockBits(e)) == LockBits(e) && Upper(n * 4 + LockBits(e)) == n
  {
  }

  /** The lock bits of the word after a step, case by case. */
  lemma BitsAfter(retry: bool, word: int, l: Local, c: Choice)
    requires LocalInv(retry, l) && word >= 0 && LockBits(word) <= WAITERS
    ensures var o := Act(retry, word, l, c);
            && o.word >= 0
            && (o.word == word || LockBits(o.word) == match l
                                                      case FastCas(_) => LOCKED
                                                      case SlowCas(_) => WAITERS
                                                      case Held => UNLOCKED
                                                      case _ => LockBits(word))
  {
    match l
    case FastCas(e) => BitsOf(e, LOCKED);
    case SlowCas(e) => BitsOf(e, WAITERS);
    case Held => BitsOf(word, UNLOCKED);
    case Resize(e, n) => BitsOfResized(e, n);
    case _ =>
  }

  lemma StepExclusive(retry: bool, word: int, l: Local, c: Choice, n: Count)
    requires LocalInv(retry, l) && Exclusive(word, n) && AtLeast(n, Weight(l))
    ensures var o := Act(retry, word, l, c);
            Exclusive(o.word, Move(n, Weight(l), Weight(o.l)))
  {
    BitsAfter(retry, word, l, c);
    if l.FastCas? || l.SlowCas? {
      BitsOf(l.e, LOCKED);
      BitsOf(l.e, WAITERS);
    }
    BitsOf(word, UNLOCKED);
  }

  lemma StepCovered(word: int, l: Local, c: Choice, n: Count)
    requires LocalInv(true, l) && Exclusive(word, n) && AtLeast(n, Weight(l)) && Covered(word, n)
    requires l.Wake? ==> n.sleep == 0
    ensures var o := Act(true, word, l, c);
            Covered(o.word, Move(n, Weight(l), Weight(o.l)))
  {
  }

  lemma SoloNext(retry: bool, s: State, t: int, c: Choice, s': State)
    requires Inv(retry, s) && Solo(retry, s, t, c, s')
    ensures Inv(retry, s')
  {
    var o := Act(retry, s.word, s.ths[t], c);
    TotalUpdate(s.ths, t, o.l);
    StepLocal(retry, s.word, s.ths[t], c);
    StepExclusive(retry, s.word, s.ths[t], c, Total(s.ths));
    if s.ths[t].Wake? {
      SumZero(SleepW(), s.ths);
    }
    if retry {
      StepCovered(s.word, s.ths[t], c, Total(s.ths));
    }
  }

  lemma WakeNext(retry: bool, s: State, t: int, u: int, s': State)
    requires Inv(retry, s) && WakeOne(s, t, u, s')
    ensures Inv(retry, s')
  {
    TotalUpdate(s.ths, t, Out);
    TotalUpdate(s.ths[t := Out], u, Reload);
  }

  lemma InvNext(retry: bool, s: State, s': State)
    requires Inv(retry, s) && Next(retry, s, s')
    ensures Inv(retry, s')
  {
    if t, c :| Solo(retry, s, t, c, s') {
      SoloNext(retry, s, t, c, s');
    } else {
      var t, u :| WakeOne(s, t, u, s');
      WakeNext(retry, s, t, u, s');
    }
  }

  lemma {:induction false} InvRun(retry: bool, run: seq<State>, i: int)
    requires IsRun(retry, run) && 0 <= i < |run|
    ensures Inv(retry, run[i])
  {
    if i == 0 {
      SumZero(HoldW(), run[0].ths);
      SumZero(SleepW(), run[0].ths);
    } else {
      InvRun(retry, run, i - 1);
      assert Next(retry, run[i - 1], run[i - 1 + 1]);
      InvNext(retry, run[i - 1], run[i]);
    }
  }

  // ---------- mutual exclusion and the packed word ----------

  /** At most one thread holds the lock. */
  lemma MutualExclusion(retry: bool, run: seq<State>, i: int, t: int, u: int)
    requires IsRun(retry, run) && 0 <= i < |run|
    requires 0 <= t < |run[i].ths| && 0 <= u < |run[i].ths| && t != u
    ensures !(Holds(run[i].ths[t]) && Holds(run[i].ths[u]))
  {
    InvRun(retry, run, i);
    SumOfTwo(HoldW(), run[i].ths, t, u);
  }

  /** The word says whether there is a holder, and its lock bits are never 3. */
  lemma WordTellsHolder(retry: bool, run: seq<State>, i: int)
    requires IsRun(retry, run) && 0 <= i < |run|
    ensures LockBits(run[i].word) != 3
    ensures LockBits(run[i].word) != UNLOCKED <==> exists h :: 0 <= h < |run[i].ths| && Holds(run[i].ths[h])
  {
    InvRun(retry, run, i);
    SumZero(HoldW(), run[i].ths);
    if h :| 0 <= h < |run[i].ths| && Holds(run[i].ths[h]) {
      assert HoldW()(run[i].ths[h]) > 0;
    }
    if LockBits(run[i].word) != UNLOCKED {
      var h := SumWitness(HoldW(), run[i].ths);
    }
  }

  /** A lock with an owner and a number that only the owner changes. */
  datatype Abstract = Free(size: int) | Owned(owner: int, size: int)

  datatype AbstractStep = Acquire(t: int) | Release(t: int) | Replace(t: int, n: int) | Nothing

  predicate AbstractNext(a: Abstract, step: AbstractStep, a': Abstract) {
    match step
    case Acquire(t) => a.Free? && a' == Owned(t, a.size)
    case Release(t) => a == Owned(t, a.size) && a' == Free(a.size)
    case Replace(t, n) => a == Owned(t, a.size) && a' == Owned(t, n)
    case Nothing => a' == a
  }

  /** The packed word and the threads stand for an abstract lock. */
  ghost predicate Abstracts(s: State, a: Abstract) {
    && a.size == Upper(s.word)
    && match a
       case Free(_) => LockBits(s.word) == UNLOCKED
       case Owned(t, _) => LockBits(s.word) != UNLOCKED && 0 <= t < |s.ths| && Holds(s.ths[t])
  }

  /** Every step of the packed lock is a step of the abstract one: contention that moves the lock
      bits while the holder replaces the upper bits loses neither. */
  lemma StepRefines(retry: bool, s: State, t: int, c: Choice, s': State, a: Abstract)
      returns (step: AbstractStep, a': Abstract)
    requires Inv(retry, s) && Solo(retry, s, t, c, s') && Abstracts(s, a)
    ensures AbstractNext(a, step, a') && Abstracts(s', a')
    ensures step.Acquire? <==> !Holds(s.ths[t]) && Holds(s'.ths[t])
    ensures step.Release? <==> Holds(s.ths[t]) && !Holds(s'.ths[t])
    ensures step.Replace? ==> s.ths[t].Resize? && step.n == s.ths[t].n
    ensures step.Acquire? || step.Release? || step.Replace? ==> step.t == t
  {
    var l, l' := s.ths[t], s'.ths[t];
    assert LocalInv(retry, l);
    if Holds(l) || a.Owned? {
      SumAtLeast(HoldW(), s.ths, t);
      if a.Owned? && a.owner != t {
        SumOfTwo(HoldW(), s.ths, a.owner, t);
      }
    }
    if !Holds(l) && Holds(l') {
      step, a' := Acquire(t), Owned(t, a.size);
    } else if Holds(l) && !Holds(l') {
      step, a' := Release(t), Free(a.size);
    } else if l.Resize? && l'.Held? {
      step, a' := Replace(t, l.n), Owned(t, l.n);
    } else {
      step, a' := Nothing, a;
    }
  }

  /** A wake-up changes nothing that the abstract lock sees. */
  lemma WakeRefines(s: State, t: int, u: int, s': State, a: Abstract)
    requires WakeOne(s, t, u, s') && Abstracts(s, a)
    ensures Abstracts(s', a)
  {
  }

  // ---------- no stranded sleeper ----------

  /** With the exchange retried, a sleeper is always noted in the word, or an unlocker still owes a
      wake-up, or another thread is awake in the slow path. */
  lemma NoStrandedSleeper(run: seq<State>, i: int, t: int)
    requires IsRun(true, run) && 0 <= i < |run| && 0 <= t < |run[i].ths| && run[i].ths[t].Asleep?
    ensures || LockBits(run[i].word) == WAITERS
            || exists u :: 0 <= u < |run[i].ths| && (run[i].ths[u].Wake? || InSlowPath(run[i].ths[u]))
  {
    InvRun(true, run, i);
    SumAtLeast(SleepW(), run[i].ths, t);
    if Sum(WakeW(), run[i].ths) > 0 {
      var u := SumWitness(WakeW(), run[i].ths);
    } else if Sum(SlowW(), run[i].ths) > 0 {
      var u := SumWitness(SlowW(), run[i].ths);
    }
  }

  /** The step leaves the slow-path exchange with a word in state 1: line 40 does not retry. */
  predicate FallsThrough(word: int, l: Local, c: Choice) {
    l.SlowCas? && (c.fail || word != l.e) && LockBits(word) == LOCKED
  }

  /** The code as it is differs from the retrying code in exactly this step. */
  lemma LiteralStepExactly(word: int, l: Local, c: Choice)
    requires word >= 0 && LockBits(word) <= WAITERS
    ensures Act(false, word, l, c) == Act(true, word, l, c) <==> !FallsThrough(word, l, c)
  {
  }

  ghost predicate StepFallsThrough(s: State, s': State) {
    exists t, c :: Solo(false, s, t, c, s') && FallsThrough(s.word, s.ths[t], c)
  }

  /** No step of the run falls through. */
  ghost predicate NeverFallsThrough(run: seq<State>) {
    forall i :: 0 <= i < |run| - 1 ==> !StepFallsThrough(run[i], run[i + 1])
  }

  lemma RetriedStep(s: State, s': State)
    requires Inv(false, s) && Next(false, s, s') && !StepFallsThrough(s, s')
    ensures Next(true, s, s')
  {
    if t, c :| Solo(false, s, t, c, s') {
      LiteralStepExactly(s.word, s.ths[t], c);
      assert Solo(true, s, t, c, s');
    }
  }

  /** A run of the code as it is in which no slow-path exchange fails on a word in state 1 is a run of
      the retrying code, and so never strands a sleeper. */
  lemma LiteralRunsThatRetry(run: seq<State>, i: int, t: int)
    requires IsRun(false, run) && NeverFallsThrough(run)
    requires 0 <= i < |run| && 0 <= t < |run[i].ths| && run[i].ths[t].Asleep?
    ensures || LockBits(run[i].word) == WAITERS
            || exists u :: 0 <= u < |run[i].ths| && (run[i].ths[u].Wake? || InSlowPath(run[i].ths[u]))
  {
    forall j | 0 <= j < |run| - 1 ensures Next(true, run[j], run[j + 1]) {
      InvRun(false, run, j);
      RetriedStep(run[j], run[j + 1]);
    }
    NoStrandedSleeper(run, i, t);
  }

  /** A sleeper that nobody will wake: the lock is free, nobody owes a wake-up and no other thread is
      in the slow path. */
  ghost predicate Stranded(s: State, t: int) {
    && 0 <= t < |s.ths| && s.ths[t].Asleep? && LockBits(s.word) == UNLOCKED
    && forall u :: 0 <= u < |s.ths| ==> !s.ths[u].Wake? && !InSlowPath(s.ths[u])
  }

  /** Whether an unlock strands the sleepers is decided by the state it finds in the word: with nobody
      else to help, a sleeper is stranded by it exactly if that state is not 2. */
  lemma UnlockStrandsExactly(retry: bool, run: seq<State>, i: int, h: int, c: Choice, s': State, t: int)
    requires IsRun(retry, run) && 0 <= i < |run| && Solo(retry, run[i], h, c, s')
    requires run[i].ths[h].Held? && c.unlock
    requires 0 <= t < |run[i].ths| && run[i].ths[t].Asleep?
    requires forall u :: 0 <= u < |run[i].ths| ==> !run[i].ths[u].Wake? && !InSlowPath(run[i].ths[u])
    ensures Stranded(s', t) <==> LockBits(run[i].word) == LOCKED
  {
    InvRun(retry, run, i);
    SumAtLeast(HoldW(), run[i].ths, h);
    assert s'.ths[h] == Act(retry, run[i].word, run[i].ths[h], c).l;
    if LockBits(run[i].word) != LOCKED {
      assert s'.ths[h].Wake?;
    } else {
      forall u | 0 <= u < |s'.ths| ensures !s'.ths[u].Wake? && !InSlowPath(s'.ths[u]) {
        assert u != h ==> s'.ths[u] == run[i].ths[u];
      }
    }
  }

  /** The states of a run that strands a sleeper: threads 0 and 2 take and release the lock while
      thread 1 is in the slow path, and no exchange fails spuriously. */
  function Stranding(i: nat): State {
    match i
    case 0 => State(0, [Out, Out, Out])
    case 1 => State(0, [Load, Out, Out])
    case 2 => State(0, [FastCas(0), Out, Out])
    case 3 => State(1, [Held, Out, Out])
    case 4 => State(1, [Held, Load, Out])
    case 5 => State(1, [Held, SlowCas(1), Out])
    case 6 => State(0, [Out, SlowCas(1), Out])
    case 7 => State(0, [Out, SlowCas(0), Out])
    case 8 => State(0, [Out, SlowCas(0), Load])
    case 9 => State(0, [Out, SlowCas(0), FastCas(0)])
    case 10 => State(1, [Out, SlowCas(0), Held])
    case 11 => State(1, [Out, Futex(1), Held])
    case 12 => State(1, [Out, Asleep(1), Held])
    case _ => State(0, [Out, Asleep(1), Out])
  }

  function StrandingRun(): seq<State> {
    seq(14, i requires 0 <= i < 14 => Stranding(i))
  }

  const UNLOCKING := Choice(true, 0, false)

  lemma StrandingStart(i: nat)
    requires 0 <= i < 4
    ensures Next(false, Stranding(i), Stranding(i + 1))
  {
    if i == 0 {
      assert Solo(false, Stranding(0), 0, UNLOCKING, Stranding(1));
    } else if i == 1 {
      assert Solo(false, Stranding(1), 0, UNLOCKING, Stranding(2));
    } else if i == 2 {
      assert Solo(false, Stranding(2), 0, UNLOCKING, Stranding(3));
    } else if i == 3 {
      assert Solo(false, Stranding(3), 1, UNLOCKING, Stranding(4));
    }
  }

  lemma StrandingMiddle(i: nat)
    requires 4 <= i < 9
    ensures Next(false, Stranding(i), Stranding(i + 1))
  {
    if i == 4 {
      assert Solo(false, Stranding(4), 1, UNLOCKING, Stranding(5));
    } else if i == 5 {
      assert Solo(false, Stranding(5), 0, UNLOCKING, Stranding(6));
    } else if i == 6 {
      assert Solo(false, Stranding(6), 1, UNLOCKING, Stranding(7));
    } else if i == 7 {
      assert Solo(false, Stranding(7), 2, UNLOCKING, Stranding(8));
    } else if i == 8 {
      assert Solo(false, Stranding(8), 2, UNLOCKING, Stranding(9));
    }
  }

  lemma StrandingEnd(i: nat)
    requires 9 <= i < 13
    ensures Next(false, Stranding(i), Stranding(i + 1))
  {
    if i == 9 {
      assert Solo(false, Stranding(9), 2, UNLOCKING, Stranding(10));
    } else if i == 10 {
      assert Solo(false, Stranding(10), 1, UNLOCKING, Stranding(11));
    } else if i == 11 {
      assert Solo(false, Stranding(11), 1, UNLOCKING, Stranding(12));
    } else if i == 12 {
      assert Solo(false, Stranding(12), 2, UNLOCKING, Stranding(13));
    }
  }

  lemma LiteralCodeStrands()
    ensures IsRun(false, StrandingRun())
    ensures Stranded(StrandingRun()[|StrandingRun()| - 1], 1)
  {
    var run := StrandingRun();
    forall i | 0 <= i < |run| - 1 ensures Next(false, run[i], run[i + 1]) {
      if i < 4 {
        StrandingStart(i);
      } else if i < 9 {
        StrandingMiddle(i);
      } else {
        StrandingEnd(i);
      }
    }
  }
}
