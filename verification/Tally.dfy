/** Sums over the threads of a system: a weight per thread, added up. */
module Tally {

  function Sum<T>(f: T -> nat, s: seq<T>): nat {
    if s == [] then 0 else f(s[0]) + Sum(f, s[1..])
  }

  /** Replacing one element changes the sum by the difference of the two weights. */
  lemma {:induction false} SumUpdate<T>(f: T -> nat, s: seq<T>, i: int, x: T)
    requires 0 <= i < |s|
    ensures Sum(f, s[i := x]) == Sum(f, s) - f(s[i]) + f(x)
  {
    if i == 0 {
      assert s[i := x][1..] == s[1..];
    } else {
      assert s[i := x][1..] == s[1..][i - 1 := x];
      SumUpdate(f, s[1..], i - 1, x);
    }
  }

  lemma {:induction false} SumAtLeast<T>(f: T -> nat, s: seq<T>, i: int)
    requires 0 <= i < |s|
    ensures Sum(f, s) >= f(s[i])
  {
    if i > 0 {
      SumAtLeast(f, s[1..], i - 1);
    }
  }

  /** Two different threads contribute both their weights. */
  lemma {:induction false} SumOfTwo<T>(f: T -> nat, s: seq<T>, i: int, j: int)
    requires 0 <= i < |s| && 0 <= j < |s| && i != j
    ensures Sum(f, s) >= f(s[i]) + f(s[j])
  {
    if i == 0 {
      SumAtLeast(f, s[1..], j - 1);
    } else if j == 0 {
      SumAtLeast(f, s[1..], i - 1);
    } else {
      SumOfTwo(f, s[1..], i - 1, j - 1);
    }
  }

  /** A positive sum has a thread that contributes to it. */
  lemma {:induction false} SumWitness<T>(f: T -> nat, s: seq<T>) returns (i: int)
    requires Sum(f, s) > 0
    ensures 0 <= i < |s| && f(s[i]) > 0
  {
    if f(s[0]) > 0 {
      i := 0;
    } else {
      i := SumWitness(f, s[1..]);
      i := i + 1;
    }
  }

  /** The sum is zero exactly when no thread contributes. */
  lemma {:induction false} SumZero<T>(f: T -> nat, s: seq<T>)
    ensures Sum(f, s) == 0 <==> forall i :: 0 <= i < |s| ==> f(s[i]) == 0
  {
    if Sum(f, s) > 0 {
      var i := SumWitness(f, s);
    } else {
      forall i | 0 <= i < |s| ensures f(s[i]) == 0 {
        SumAtLeast(f, s, i);
      }
    }
  }

  /** Weights of at most one sum up to no more than the number of threads. */
  lemma {:induction false} SumBounded<T>(f: T -> nat, s: seq<T>)
    requires forall i :: 0 <= i < |s| ==> f(s[i]) <= 1
    ensures Sum(f, s) <= |s|
  {
    if s != [] {
      forall i | 0 <= i < |s[1..]| ensures f(s[1..][i]) <= 1 {
        assert s[1..][i] == s[i + 1];
      }
      SumBounded(f, s[1..]);
    }
  }

  /** A weight that is nowhere larger has no larger sum. */
  lemma {:induction false} SumMonotone<T>(f: T -> nat, h: T -> nat, s: seq<T>)
    requires forall i :: 0 <= i < |s| ==> f(s[i]) <= h(s[i])
    ensures Sum(f, s) <= Sum(h, s)
  {
    if s != [] {
      forall i | 0 <= i < |s[1..]| ensures f(s[1..][i]) <= h(s[1..][i]) {
        assert s[1..][i] == s[i + 1];
      }
      SumMonotone(f, h, s[1..]);
    }
  }

  /** Two weights that agree on every thread have the same sum. */
  lemma SumSame<T>(f: T -> nat, h: T -> nat, s: seq<T>)
    requires forall i :: 0 <= i < |s| ==> f(s[i]) == h(s[i])
    ensures Sum(f, s) == Sum(h, s)
  {
    SumMonotone(f, h, s);
    SumMonotone(h, f, s);
  }
}
