/** What the walk of kernel_futex_wake does to a wait queue, as functions on sequences:
    the nodes that match are taken from the front, at most `n` of them, and the others stay. */
module QueueWalk {
  import opened Numbers

  function Taken<T>(q: seq<T>, match_: T -> bool, n: int): seq<T> {
    if q == [] || n <= 0 then []
    else if match_(q[0]) then [q[0]] + Taken(q[1..], match_, n - 1)
    else Taken(q[1..], match_, n)
  }

  function Kept<T>(q: seq<T>, match_: T -> bool, n: int): seq<T> {
    if q == [] || n <= 0 then q
    else if match_(q[0]) then Kept(q[1..], match_, n - 1)
    else [q[0]] + Kept(q[1..], match_, n)
  }

  /** The elements that match, or that do not, in order. */
  function Filter<T>(q: seq<T>, match_: T -> bool, want: bool): seq<T> {
    if q == [] then []
    else (if match_(q[0]) == want then [q[0]] else []) + Filter(q[1..], match_, want)
  }

  /** The walk takes the first min(n, matches) matching elements and no other, and what it
      leaves are the remaining matching elements and all the others, each in their old order. */
  lemma {:induction false} WalkIsExact<T>(q: seq<T>, match_: T -> bool, n: int)
    ensures var m := Filter(q, match_, true);
            var k := Min(Max(n, 0), |m|);
            && Taken(q, match_, n) == m[..k]
            && Filter(Kept(q, match_, n), match_, true) == m[k..]
            && Filter(Kept(q, match_, n), match_, false) == Filter(q, match_, false)
  {
    if q != [] && n > 0 {
      var rest, n' := q[1..], if match_(q[0]) then n - 1 else n;
      WalkIsExact(rest, match_, n');
      var m, m' := Filter(q, match_, true), Filter(rest, match_, true);
      var k, k' := Min(n, |m|), Min(n', |m'|);
      if match_(q[0]) {
        assert m == [q[0]] + m' && k == k' + 1;
        assert m[..k] == [q[0]] + m'[..k'] && m[k..] == m'[k'..];
        assert Filter(q, match_, false) == Filter(rest, match_, false);
      } else {
        assert m == m' && k == k';
        FilterOfKept(q[0], Kept(rest, match_, n), match_);
        assert Filter(q, match_, false) == [q[0]] + Filter(rest, match_, false);
      }
    }
  }

  lemma FilterOfKept<T>(e: T, k: seq<T>, match_: T -> bool)
    requires !match_(e)
    ensures Filter([e] + k, match_, true) == Filter(k, match_, true)
    ensures Filter([e] + k, match_, false) == [e] + Filter(k, match_, false)
  {
    assert ([e] + k)[1..] == k;
  }

  /** Nothing is lost and nothing is made up. */
  lemma {:induction false} WalkConserves<T>(q: seq<T>, match_: T -> bool, n: int)
    ensures multiset(Taken(q, match_, n)) + multiset(Kept(q, match_, n)) == multiset(q)
    ensures |Taken(q, match_, n)| + |Kept(q, match_, n)| == |q|
  {
    if q != [] && n > 0 {
      assert q == [q[0]] + q[1..];
      WalkConserves(q[1..], match_, if match_(q[0]) then n - 1 else n);
    }
  }

  /** `at` lists increasing places of `q` that hold the elements of `k`. */
  ghost predicate Embeds<T>(q: seq<T>, k: seq<T>, at: seq<nat>) {
    && |at| == |k|
    && (forall i, j :: 0 <= i < j < |at| ==> at[i] < at[j])
    && (forall i :: 0 <= i < |at| ==> at[i] < |q| && k[i] == q[at[i]])
  }

  ghost function Shifted(at: seq<nat>): (r: seq<nat>)
    ensures |r| == |at| && forall i :: 0 <= i < |at| ==> r[i] == at[i] + 1
  {
    seq(|at|, i requires 0 <= i < |at| => at[i] + 1)
  }

  lemma EmbedsUnderHead<T>(q: seq<T>, k: seq<T>, at: seq<nat>)
    requires q != [] && Embeds(q[1..], k, at)
    ensures Embeds(q, k, Shifted(at))
    ensures Embeds(q, [q[0]] + k, [0] + Shifted(at))
  {
  }

  /** The kept elements keep their order: their places in the old queue increase. */
  lemma {:induction false} KeptInOrder<T>(q: seq<T>, match_: T -> bool, n: int) returns (at: seq<nat>)
    ensures Embeds(q, Kept(q, match_, n), at)
  {
    if q == [] || n <= 0 {
      at := seq(|q|, i => i);
    } else {
      at := KeptInOrder(q[1..], match_, if match_(q[0]) then n - 1 else n);
      EmbedsUnderHead(q, Kept(q[1..], match_, if match_(q[0]) then n - 1 else n), at);
      at := if match_(q[0]) then Shifted(at) else [0] + Shifted(at);
    }
  }

  /** With a limit that no queue exceeds, nothing that matches is left. */
  lemma WalkOfAll<T>(q: seq<T>, match_: T -> bool, n: int)
    requires n >= |q|
    ensures forall e :: e in Kept(q, match_, n) ==> e in q && !match_(e)
    ensures forall e :: e in q && !match_(e) ==> e in Kept(q, match_, n)
    ensures forall e :: e in Taken(q, match_, n) <==> e in q && match_(e)
  {
  }

  /** In a queue without repetitions each element is either taken or kept. */
  lemma {:induction false} TakenOrKept<T>(q: seq<T>, match_: T -> bool, n: int)
    requires forall i, j :: 0 <= i < j < |q| ==> q[i] != q[j]
    ensures forall e :: e in Taken(q, match_, n) ==> e in q && e !in Kept(q, match_, n) && match_(e)
    ensures forall e :: e in Kept(q, match_, n) ==> e in q
    ensures forall e :: e in q ==> e in Taken(q, match_, n) || e in Kept(q, match_, n)
  {
    if q != [] && n > 0 {
      TakenOrKept(q[1..], match_, if match_(q[0]) then n - 1 else n);
      assert q[0] !in q[1..];
    }
  }
}
