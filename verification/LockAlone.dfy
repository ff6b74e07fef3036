/** The three-state lock used by a thread that nobody disturbs: from every place in the code it ends, after a bounded
    number of its own steps, with the lock, asleep, or outside. */
module LockAlone {
  import opened ThreeStateLock

  /** k steps of one thread as the word and the thread see them. */
  function ActN(retry: bool, word: int, l: Local, c: Choice, k: nat): Outcome
    decreases k
  {
    if k == 0 then Outcome(word, l)
    else ActN(retry, Act(retry, word, l, c).word, Act(retry, word, l, c).l, c, k - 1)
  }

  lemma StepFirst(retry: bool, word: int, l: Local, c: Choice, o: Outcome, k: nat)
    requires Act(retry, word, l, c) == o
    ensures ActN(retry, word, l, c, k + 1) == ActN(retry, o.word, o.l, c, k)
  {
  }

  /** The places of three_states_lock; a sleeper is one that has just been woken. */
  predicate Locking(l: Local) {
    l.Out? || l.Load? || l.FastCas? || InSlowPath(l) || l.Asleep?
  }

  predicate ProperWord(word: int) {
    word >= 0 && LockBits(word) <= WAITERS
  }

  /** What the lock bits become when the thread takes the free lock. */
  function BitsTaken(l: Local): int {
    if l.Out? || l.Load? || l.FastCas? then LOCKED else WAITERS
  }

  function LockRank(word: int, l: Local): nat {
    match l
    case FastCas(e) => if word == e then 1 else 2
    case SlowCas(e) => if word == e then 1 else 2
    case Load => 3
    case Reload => 3
    case Out => 4
    case _ => 4
  }

  lemma LockStep(retry: bool, word: int, l: Local, c: Choice)
    requires LocalInv(retry, l) && Locking(l) && !c.fail && ProperWord(word) && LockBits(word) == UNLOCKED
    ensures var o := Act(retry, word, l, c);
            if o.l == Held then o.word == WithBits(word, BitsTaken(l))
            else && o.word == word && Locking(o.l) && LockRank(word, o.l) < LockRank(word, l)
                 && BitsTaken(o.l) == BitsTaken(l)
  {
  }

  /** A thread that wants the lock and finds it free, wherever it is, also one that has just been woken, holds it
      within four steps; the fast path leaves state 1, the slow path state 2, and the upper bits stay. */
  lemma {:induction false} FreeLockIsTaken(retry: bool, word: int, l: Local, c: Choice) returns (k: nat)
    requires LocalInv(retry, l) && Locking(l) && !c.fail && ProperWord(word) && LockBits(word) == UNLOCKED
    ensures k <= LockRank(word, l) <= 4 && ActN(retry, word, l, c, k) == Outcome(WithBits(word, BitsTaken(l)), Held)
    decreases LockRank(word, l)
  {
    LockStep(retry, word, l, c);
    StepLocal(retry, word, l, c);
    var o := Act(retry, word, l, c);
    if o.l == Held {
      k := 0;
    } else {
      k := FreeLockIsTaken(retry, word, o.l, c);
    }
    StepFirst(retry, word, l, c, o, k);
    k := k + 1;
  }

  /** The thread goes to sleep without noting itself in the word: on a value it has just compared, or, in the code
      as it is, after a failed exchange. */
  predicate LeavesWord(retry: bool, word: int, l: Local) {
    (l.Futex? && word == l.e) || (!retry && l.SlowCas? && word != l.e)
  }

  function WordAsleep(retry: bool, word: int, l: Local): int {
    if LeavesWord(retry, word, l) then word else WithBits(word, WAITERS)
  }

  function SleepRank(retry: bool, word: int, l: Local): nat {
    match l
    case Futex(e) => if word == e then 1 else 5
    case SlowCas(e) => if word == e then 2 else 3
    case FastCas(_) => 4
    case Load => 5
    case Out => 6
    case Reload => 4
    case _ => 5
  }

  lemma SleepStep(retry: bool, word: int, l: Local, c: Choice)
    requires LocalInv(retry, l) && Locking(l) && !c.fail && ProperWord(word) && LockBits(word) != UNLOCKED
    ensures var o := Act(retry, word, l, c);
            if o.l.Asleep? then o == Outcome(WordAsleep(retry, word, l), Asleep(WordAsleep(retry, word, l)))
            else && Locking(o.l) && SleepRank(retry, o.word, o.l) < SleepRank(retry, word, l) && ProperWord(o.word)
                 && LockBits(o.word) != UNLOCKED && WordAsleep(retry, o.word, o.l) == WordAsleep(retry, word, l)
  {
    if l.SlowCas? {
      BitsOf(word, WAITERS);
    }
  }

  /** A thread that wants the lock and finds it held sleeps within six steps, with state 2 in the word but for the two
      places where it sleeps on the word as it is. */
  lemma {:induction false} HeldLockBlocks(retry: bool, word: int, l: Local, c: Choice) returns (k: nat)
    requires LocalInv(retry, l) && Locking(l) && !c.fail && ProperWord(word) && LockBits(word) != UNLOCKED
    ensures k <= SleepRank(retry, word, l) <= 6
    ensures ActN(retry, word, l, c, k)
         == Outcome(WordAsleep(retry, word, l), Asleep(WordAsleep(retry, word, l)))
    decreases SleepRank(retry, word, l)
  {
    SleepStep(retry, word, l, c);
    StepLocal(retry, word, l, c);
    var o := Act(retry, word, l, c);
    if o.l.Asleep? {
      k := 0;
    } else {
      k := HeldLockBlocks(retry, o.word, o.l, c);
    }
    StepFirst(retry, word, l, c, o, k);
    k := k + 1;
  }

  /** With the retry a sleeper always is noted in the word. */
  lemma RetryIsNoted(word: int, l: Local)
    requires LocalInv(true, l) && ProperWord(word) && LockBits(word) != UNLOCKED
    ensures LockBits(WordAsleep(true, word, l)) == WAITERS && Upper(WordAsleep(true, word, l)) == Upper(word)
  {
    BitsOf(word, WAITERS);
  }

  /** The holder's unlock frees the lock, keeps the upper bits, and comes by the wake-up if the state was 2. */
  lemma UnlockEnds(retry: bool, word: int, c: Choice)
    requires c.unlock && ProperWord(word)
    ensures var w := WithBits(word, UNLOCKED);
            && LockBits(w) == UNLOCKED && Upper(w) == Upper(word)
            && (if LockBits(word) == WAITERS
                then Act(retry, word, Held, c) == Outcome(w, Wake) && ActN(retry, word, Held, c, 2) == Outcome(w, Out)
                else ActN(retry, word, Held, c, 1) == Outcome(w, Out))
  {
    BitsOf(word, UNLOCKED);
    var o := Act(retry, word, Held, c);
    if LockBits(word) == WAITERS {
      StepFirst(retry, word, Held, c, o, 1);
    }
  }

  /** The holder's loop replaces the upper bits within two steps, also from a value it read earlier, and keeps the lock
      bits. */
  lemma ResizeEnds(retry: bool, word: int, e: int, n: nat, c: Choice) returns (k: nat)
    requires !c.fail && ProperWord(word)
    ensures k <= 2 && ActN(retry, word, Resize(e, n), c, k) == Outcome(n * 4 + LockBits(word), Held)
    ensures LockBits(n * 4 + LockBits(word)) == LockBits(word) && Upper(n * 4 + LockBits(word)) == n
  {
    BitsOfResized(word, n);
    if word == e {
      k := 1;
    } else {
      assert Act(retry, word, Resize(e, n), c) == Outcome(word, Resize(word, n));
      assert Act(retry, word, Resize(word, n), c) == Outcome(n * 4 + LockBits(word), Held);
      StepFirst(retry, word, Resize(e, n), c, Outcome(word, Resize(word, n)), 1);
      k := 2;
    }
  }

  /** A holder that replaces the upper bits has done so after two steps, and still holds the lock. */
  lemma HolderResizes(retry: bool, word: int, c: Choice)
    requires !c.unlock && !c.fail && ProperWord(word)
    ensures ActN(retry, word, Held, c, 2) == Outcome(c.n * 4 + LockBits(word), Held)
  {
    assert Act(retry, word, Held, c) == Outcome(word, Resize(word, c.n));
    assert Act(retry, word, Resize(word, c.n), c) == Outcome(c.n * 4 + LockBits(word), Held);
    StepFirst(retry, word, Held, c, Outcome(word, Resize(word, c.n)), 1);
  }
}
