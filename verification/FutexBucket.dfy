/** The hash bucket of k_futex.h as heap code: a chain of futex_q nodes that live on the
    waiters' stacks, linked in at the front by kernel_futex_wait and taken out by the walk of
    kernel_futex_wake. The methods are the critical sections of the two calls, executed with the
    bucket lock held. */
module FutexBucket {
  import opened QueueWalk

  const N_BUCKETS := 16

  /** hash_futex: the bucket of an address. */
  function HashFutex(uaddr: nat): (b: nat)
    ensures b < N_BUCKETS
  {
    uaddr / 4 % N_BUCKETS
  }

  /** Words of 32 bits share a bucket exactly when their addresses differ by a multiple of 64 bytes. */
  lemma BucketsCollideExactly(a: nat, b: nat)
    requires a % 4 == 0 && b % 4 == 0
    ensures HashFutex(a) == HashFutex(b) <==> a % 64 == b % 64
  {
  }

  datatype TaskState = Running | Interruptible

  /** futex_q with the task_struct inside it; `queued` stands for lock_ptr being set, `parked` for the task waiting
      on its wake_cv. */
  class Node {
    const uaddr: int
    var next: Node?
    var queued: bool
    var state: TaskState
    var wakePending: bool
    var parked: bool

    constructor (uaddr: int)
      ensures this.uaddr == uaddr && next == null && !queued && state == Running && !wakePending && !parked
    {
      this.uaddr := uaddr;
      next, queued, state, wakePending, parked := null, false, Running, false, false;
    }

    /** wake_up_process: leaves a wake-up, and the task no longer waits on its wake_cv. */
    method WakeUpProcess()
      modifies this`wakePending, this`parked
      ensures wakePending && !parked
    {
      wakePending := true;
      parked := false;
    }

    /** A round of the loop of schedule: without a wake-up the task waits on its wake_cv, and else it uses the
        wake-up and returns. */
    method Schedule() returns (returns_: bool)
      modifies this`wakePending, this`state, this`parked
      ensures returns_ <==> old(wakePending)
      ensures !wakePending && (returns_ ==> state == Running && parked == old(parked))
      ensures !returns_ ==> parked && state == old(state)
    {
      returns_ := wakePending;
      if returns_ {
        wakePending := false;
        state := Running;
      } else {
        parked := true;
      }
    }
  }

  /** Nodes that wait on an address. */
  function On(uaddr: int): Node -> bool {
    (q: Node) => q.uaddr == uaddr
  }

  /** What the chain field or a `next` field in front of place i holds. */
  function NodeAt(nodes: seq<Node>, i: nat): Node? {
    if i < |nodes| then nodes[i] else null
  }

  /** The nodes, each linked to the one after it. */
  ghost predicate Linked(nodes: seq<Node>)
    reads nodes
  {
    forall i {:trigger nodes[i].next} :: 0 <= i < |nodes| ==> nodes[i].next == NodeAt(nodes, i + 1)
  }

  ghost predicate NoRepeats(nodes: seq<Node>) {
    forall i, j :: 0 <= i < j < |nodes| ==> nodes[i] != nodes[j]
  }

  class Bucket {
    var chain: Node?
    var waiters: int
    ghost var nodes: seq<Node>

    /** The chain is the queue and `waiters` its length. */
    ghost predicate Chained()
      reads this, nodes
    {
      NoRepeats(nodes) && chain == NodeAt(nodes, 0) && Linked(nodes) && waiters == |nodes|
    }

    /** The bucket lock is free or just taken: moreover each node in the chain knows that it is queued and
        has no wake-up pending. */
    ghost predicate Valid()
      reads this, nodes
    {
      && Chained()
      && forall q :: q in nodes ==> q.queued && q.state == Interruptible && !q.wakePending
    }

    constructor ()
      ensures Valid() && nodes == []
    {
      chain, waiters, nodes := null, 0, [];
    }

    /** Lines 176-201 of kernel_futex_wait: compare and enqueue. `word` is what *uaddr holds when it is
        compared. The node is queued just if the values agree, and then at the front. */
    method CompareAndEnqueue(q: Node, word: int, val: int) returns (blocks: bool)
      requires Valid() && q !in nodes && !q.wakePending
      modifies this, q
      ensures Valid()
      ensures blocks <==> word == val
      ensures nodes == if blocks then [q] + old(nodes) else old(nodes)
      ensures !blocks ==> unchanged(this) && unchanged(q)
    {
      if word != val {
        return false;
      }
      q.queued := true;
      q.state := Interruptible;
      q.next := chain;
      chain := q;
      waiters := waiters + 1;
      nodes := [q] + nodes;
      return true;
    }

    /** Lines 240-246: the node behind `prev`, or the first one, is taken out, marked and woken; nothing of
        it is used after that, for its owner may return. */
    method Dequeue(prev: Node?, q: Node, ghost k: nat)
      requires Chained() && k < |nodes| && q == nodes[k] && prev == (if k == 0 then null else nodes[k - 1])
      modifies this, q, if prev == null then {} else {prev}
      ensures Chained() && nodes == old(nodes)[..k] + old(nodes)[k + 1..]
      ensures !q.queued && q.wakePending && !q.parked && q.next == NodeAt(nodes, k) && q !in nodes
      ensures forall x :: x in old(nodes) && x != q
                ==> x.queued == old(x.queued) && x.state == old(x.state) && x.wakePending == old(x.wakePending)
    {
      if prev == null {
        chain := q.next;
      } else {
        prev.next := q.next;
      }
      q.queued := false;
      waiters := waiters - 1;
      q.WakeUpProcess();
      nodes := nodes[..k] + nodes[k + 1..];
    }

    /** Lines 225-252 of kernel_futex_wake: the walk. It takes exactly the first min(n, matches) nodes for
        the address, most recent first, marks each of them dequeued with a wake-up pending, leaves all
        others as and where they are, and returns the number taken. */
    method Walk(uaddr: int, n: int) returns (ret: int)
      requires Valid()
      modifies this, nodes
      ensures Valid()
      ensures nodes == Kept(old(nodes), On(uaddr), n)
      ensures ret == |Taken(old(nodes), On(uaddr), n)|
      ensures forall q :: q in Taken(old(nodes), On(uaddr), n) ==> !q.queued && q.wakePending && !q.parked
      ensures forall q :: q in old(nodes) && q !in Taken(old(nodes), On(uaddr), n)
                ==> q.queued && !q.wakePending && q.state == old(q.state)
    {
      ghost var all, p := nodes, On(uaddr);
      ghost var taken: seq<Node> := [];
      ghost var k := 0;
      ret := 0;
      // `pp` of the source is the chain field while `prev` is null, and then the field prev.next.
      var prev: Node? := null;
      var cur := chain;
      while cur != null && ret < n
        invariant k <= |nodes| && cur == NodeAt(nodes, k) && prev == (if k == 0 then null else nodes[k - 1])
        invariant Chained() && ret == |taken| && Progress(all, p, n, nodes, k, taken)
        invariant forall q :: q in nodes ==> q in all && q.queued && q.state == Interruptible && !q.wakePending
        invariant forall q :: q in taken ==> q !in nodes && !q.queued && q.wakePending && !q.parked
        decreases |nodes| - k
      {
        var q := cur;
        if q.uaddr != uaddr {
          ProgressSkip(all, p, n, nodes, k, taken);
          prev, cur := q, q.next;
          k := k + 1;
        } else {
          ProgressTake(all, p, n, nodes, k, taken);
          assert q in nodes && (k > 0 ==> prev in nodes);
          Dequeue(prev, q, k);
          cur := if prev == null then chain else prev.next;
          taken := taken + [q];
          ret := ret + 1;
        }
      }
      ProgressDone(all, p, n, nodes, k, taken);
    }
  }

  /** The walk of `all` has taken `taken` so far, has `line` left and stands in front of place k of it. */
  ghost predicate Progress(all: seq<Node>, p: Node -> bool, n: int, line: seq<Node>, k: nat, taken: seq<Node>)
    requires k <= |line|
  {
    && Kept(all, p, n) == line[..k] + Kept(line[k..], p, n - |taken|)
    && Taken(all, p, n) == taken + Taken(line[k..], p, n - |taken|)
  }

  lemma ProgressSkip(all: seq<Node>, p: Node -> bool, n: int, line: seq<Node>, k: nat, taken: seq<Node>)
    requires k < |line| && Progress(all, p, n, line, k, taken) && !p(line[k]) && |taken| < n
    ensures Progress(all, p, n, line, k + 1, taken)
  {
    assert line[k..][1..] == line[k + 1..];
  }

  lemma ProgressTake(all: seq<Node>, p: Node -> bool, n: int, line: seq<Node>, k: nat, taken: seq<Node>)
    requires k < |line| && Progress(all, p, n, line, k, taken) && p(line[k]) && |taken| < n
    ensures Progress(all, p, n, line[..k] + line[k + 1..], k, taken + [line[k]])
  {
    var line' := line[..k] + line[k + 1..];
    assert line'[..k] == line[..k] && line'[k..] == line[k + 1..] == line[k..][1..];
  }

  lemma ProgressDone(all: seq<Node>, p: Node -> bool, n: int, line: seq<Node>, k: nat, taken: seq<Node>)
    requires k <= |line| && Progress(all, p, n, line, k, taken) && (k == |line| || |taken| >= n)
    ensures line == Kept(all, p, n) && taken == Taken(all, p, n)
    ensures forall q :: q in all ==> q in taken || q in line
  {
    WalkConserves(all, p, n);
    forall q | q in all ensures q in taken || q in line {
      assert q in multiset(all);
    }
  }
}
