/** What a reader of the coroutine demos sees: the steps of the loop in make_task_impl and
    of the single tasks it awaits. */
module CoroEvents {

  datatype Event =
    | Created(i: int)      // the frame of single task i is made
    | Ran(i: int)          // its body runs
    | Continued(i: int)    // the task goes on after awaiting it
    | Destroyed(i: int)    // its frame is destroyed at the end of the iteration
    | Finished             // the task is about to return

  /** Event n of the loop, counted from 0: four for each iteration. */
  function EventAt(n: nat): Event {
    var i := n / 4 + 1;
    match n % 4
    case 0 => Created(i)
    case 1 => Ran(i)
    case 2 => Continued(i)
    case _ => Destroyed(i)
  }

  lemma EventsOf(i: int)
    requires i >= 1
    ensures EventAt(4 * i - 4) == Created(i) && EventAt(4 * i - 3) == Ran(i)
    ensures EventAt(4 * i - 2) == Continued(i) && EventAt(4 * i - 1) == Destroyed(i)
  {
  }

  /** The first n events of the loop. */
  function Prefix(n: nat): seq<Event> {
    if n == 0 then [] else Prefix(n - 1) + [EventAt(n - 1)]
  }

  /** The whole task with the given number of iterations. */
  function Expected(count: nat): seq<Event> {
    Prefix(4 * count) + [Finished]
  }

  /** Each single task is created, run, continued and destroyed exactly once, in this order, and the
      iterations do not overlap. */
  lemma {:induction false} EachOnce(count: nat, i: nat)
    requires 1 <= i <= count
    ensures |Expected(count)| == 4 * count + 1
    ensures Expected(count)[4 * i - 4..4 * i] == [Created(i), Ran(i), Continued(i), Destroyed(i)]
    ensures Expected(count)[4 * count] == Finished
  {
    forall k | 0 <= k < 4 * count ensures |Prefix(4 * count)| == 4 * count && Prefix(4 * count)[k] == EventAt(k) {
      PrefixAt(4 * count, k);
    }
  }

  lemma {:induction false} PrefixAt(n: nat, k: nat)
    requires k < n
    ensures |Prefix(n)| == n && Prefix(n)[k] == EventAt(k)
  {
    if n > 1 {
      PrefixAt(n - 1, if k < n - 1 then k else 0);
    }
  }
}
