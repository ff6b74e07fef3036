/** The three single-threaded ways of awaiting a single task, as one machine: control, the stack of
    resume() calls that have not returned, and the loop variable of the task. */
module CoroVariants {
  import opened CoroEvents
  import opened Numbers

  /** Resume: symmetric_resume.cpp without SYMMETRIC, with ResumeAwaiter of coro.hpp. DoneChecked: with
      SYMMETRIC alone. Transfer: symmetric_trans.cpp. */
  datatype Variant = Resume | DoneChecked | Transfer

  /** A resume() call that has not returned: from main, from the awaiter of single task i, or from the final
      awaiter of single task i. */
  datatype Call = FromMain | FromAwaiter(i: int) | FromFinal(i: int)

  datatype Control =
    | AtLoop       // coro.hpp 107-112
    | AtAwait      // coro.hpp 116, the await_suspend of the awaiter
    | InSingle     // coro.hpp 99-102 and the await_suspend of the final awaiter
    | AtResumed    // coro.hpp 118-119
    | Returning    // the innermost resume() returns

  /** `done` is done_ of the current single task, `sawDone` whether a final awaiter ever found it set;
      `deepest` is the largest number of nested resume() calls so far. */
  datatype Machine = Machine(ctl: Control, i: int, stack: seq<Call>, done: bool, sawDone: bool,
                             deepest: nat, trace: seq<Event>)

  /** main calls resume() on the new task. */
  const INITIAL := Machine(AtLoop, 1, [FromMain], false, false, 1, [])

  function Push(m: Machine, c: Call, next: Control): Machine {
    m.(ctl := next, stack := m.stack + [c], deepest := Max(m.deepest, |m.stack| + 1))
  }

  /** The task is suspended and its single task starts. */
  function Await(v: Variant, m: Machine): Machine {
    match v
    case Transfer => m.(ctl := InSingle)
    case _ => Push(m, FromAwaiter(m.i), InSingle)
  }

  /** The single task runs its body and is suspended for good. */
  function FinishSingle(v: Variant, m: Machine): Machine {
    var m' := m.(trace := m.trace + [Ran(m.i)]);
    match v
    case Resume => Push(m', FromFinal(m.i), AtResumed)
    case DoneChecked =>
      var m2 := m'.(sawDone := m.sawDone || m.done, done := true);
      if m.done then Push(m2, FromFinal(m.i), AtResumed) else m2.(ctl := Returning)
    case Transfer => m'.(ctl := AtResumed)
  }

  /** The innermost resume() returns to its caller. */
  function Return(v: Variant, m: Machine): Machine
    requires m.stack != []
  {
    var rest := m.(stack := m.stack[..|m.stack| - 1]);
    if m.stack[|m.stack| - 1].FromAwaiter? && v == DoneChecked && m.done then rest.(ctl := AtResumed) else rest
  }

  function Step(v: Variant, count: nat, m: Machine): Machine
    requires m.stack != []
  {
    match m.ctl
    case AtLoop =>
      if m.i <= count then m.(ctl := AtAwait, trace := m.trace + [Created(m.i)], done := false)
      else m.(ctl := Returning, trace := m.trace + [Finished])
    case AtAwait => Await(v, m)
    case InSingle => FinishSingle(v, m)
    case AtResumed => m.(ctl := AtLoop, i := m.i + 1, trace := m.trace + [Continued(m.i), Destroyed(m.i)])
    case Returning => Return(v, m)
  }

  // ---------- the shape of the stack ----------

  /** With plain resume, two calls stay on the stack for each iteration. */
  function NestedStack(n: nat): seq<Call> {
    if n == 0 then [FromMain] else NestedStack(n - 1) + [FromAwaiter(n), FromFinal(n)]
  }

  lemma {:induction false} NestedLength(n: nat)
    ensures |NestedStack(n)| == 2 * n + 1
  {
    if n > 0 {
      NestedLength(n - 1);
    }
  }

  /** The stack when the loop starts iteration i. */
  function StackAt(v: Variant, i: int): seq<Call> {
    if v == Resume && i >= 1 then NestedStack(i - 1) else [FromMain]
  }

  /** The largest nesting before iteration i. */
  function DepthBefore(v: Variant, i: int): int {
    match v
    case Resume => 2 * i - 1
    case DoneChecked => if i <= 1 then 1 else 2
    case Transfer => 1
  }

  predicate Shape(v: Variant, count: nat, m: Machine) {
    && 1 <= m.i <= count + 1 && !m.sawDone
    && match m.ctl
       case AtLoop =>
         m.stack == StackAt(v, m.i) && m.trace == Prefix(4 * m.i - 4) && m.deepest == DepthBefore(v, m.i)
       case AtAwait =>
         && m.i <= count && m.stack == StackAt(v, m.i) && m.trace == Prefix(4 * m.i - 3) && !m.done
         && m.deepest == DepthBefore(v, m.i)
       case InSingle =>
         && m.i <= count && m.stack == StackAt(v, m.i) + (if v == Transfer then [] else [FromAwaiter(m.i)])
         && m.trace == Prefix(4 * m.i - 3) && !m.done
         && m.deepest == if v == Resume then 2 * m.i else DepthBefore(v, m.i + 1)
       case AtResumed =>
         && m.i <= count && m.stack == StackAt(v, m.i + 1) && m.trace == Prefix(4 * m.i - 2)
         && m.deepest == DepthBefore(v, m.i + 1)
       case Returning =>
         if m.i <= count
         then && v == DoneChecked && m.done && m.stack == [FromMain, FromAwaiter(m.i)]
              && m.trace == Prefix(4 * m.i - 2) && m.deepest == 2
         else && m.stack <= StackAt(v, m.i) && m.trace == Expected(count) && m.deepest == DepthBefore(v, m.i)
  }

  function Phase(c: Control): int {
    match c
    case AtLoop => 0
    case AtAwait => 1
    case InSingle => 3
    case Returning => 5
    case AtResumed => 6
  }

  function Measure(count: nat, m: Machine): int {
    |m.stack| + if m.ctl == Returning && m.i == count + 1 then 0 else 10 * (count + 2 - m.i) - Phase(m.ctl)
  }

  /** One more event. */
  lemma PrefixGrows(i: int)
    requires i >= 1
    ensures Prefix(4 * i - 4) + [Created(i)] == Prefix(4 * i - 3)
    ensures Prefix(4 * i - 3) + [Ran(i)] == Prefix(4 * i - 2)
    ensures Prefix(4 * i - 2) + [Continued(i), Destroyed(i)] == Prefix(4 * i)
  {
    EventsOf(i);
    assert Prefix(4 * i - 2) + [Continued(i)] + [Destroyed(i)] == Prefix(4 * i - 2) + [Continued(i), Destroyed(i)];
  }

  lemma LoopGoesOn(v: Variant, count: nat, m: Machine)
    requires Shape(v, count, m) && m.stack != [] && m.ctl.AtLoop? && m.i <= count
    ensures Shape(v, count, Step(v, count, m))
    ensures 0 <= Measure(count, Step(v, count, m)) < Measure(count, m)
  {
    PrefixGrows(m.i);
  }

  lemma LoopEnds(v: Variant, count: nat, m: Machine)
    requires Shape(v, count, m) && m.stack != [] && m.ctl.AtLoop? && m.i > count
    ensures Shape(v, count, Step(v, count, m))
    ensures 0 <= Measure(count, Step(v, count, m)) < Measure(count, m)
  {
  }

  lemma AwaitNext(v: Variant, count: nat, m: Machine)
    requires Shape(v, count, m) && m.stack != [] && m.ctl.AtAwait?
    ensures Shape(v, count, Step(v, count, m))
    ensures 0 <= Measure(count, Step(v, count, m)) < Measure(count, m)
  {
    NestedLength(m.i - 1);
  }

  lemma SingleNext(v: Variant, count: nat, m: Machine)
    requires Shape(v, count, m) && m.stack != [] && m.ctl.InSingle?
    ensures Shape(v, count, Step(v, count, m))
    ensures 0 <= Measure(count, Step(v, count, m)) < Measure(count, m)
  {
    PrefixGrows(m.i);
    NestedLength(m.i - 1);
  }

  lemma ResumedNext(v: Variant, count: nat, m: Machine)
    requires Shape(v, count, m) && m.stack != [] && m.ctl.AtResumed?
    ensures Shape(v, count, Step(v, count, m))
    ensures 0 <= Measure(count, Step(v, count, m)) < Measure(count, m)
  {
    PrefixGrows(m.i);
  }

  lemma ReturnNext(v: Variant, count: nat, m: Machine)
    requires Shape(v, count, m) && m.stack != [] && m.ctl.Returning?
    ensures Shape(v, count, Step(v, count, m))
    ensures 0 <= Measure(count, Step(v, count, m)) < Measure(count, m)
  {
  }

  lemma ShapeNext(v: Variant, count: nat, m: Machine)
    requires Shape(v, count, m) && m.stack != []
    ensures Shape(v, count, Step(v, count, m))
    ensures 0 <= Measure(count, Step(v, count, m)) < Measure(count, m)
  {
    match m.ctl
    case AtLoop =>
      if m.i <= count {
        LoopGoesOn(v, count, m);
      } else {
        LoopEnds(v, count, m);
      }
    case AtAwait => AwaitNext(v, count, m);
    case InSingle => SingleNext(v, count, m);
    case AtResumed => ResumedNext(v, count, m);
    case Returning => ReturnNext(v, count, m);
  }

  /** The nesting that a whole run needs. */
  function Depth(v: Variant, count: nat): int {
    match v
    case Resume => 2 * count + 1
    case DoneChecked => if count == 0 then 1 else 2
    case Transfer => 1
  }

  /** Runs the program until main's resume() has returned. All three variants produce the same events; they
      differ in how deeply the resume() calls nest; and the final awaiter of the done_-checked variant
      never finds done_ set. */
  method Execute(v: Variant, count: nat) returns (trace: seq<Event>, deepest: nat, sawDone: bool)
    ensures trace == Expected(count)
    ensures deepest == Depth(v, count)
    ensures !sawDone
  {
    var m := INITIAL;
    while m.stack != []
      invariant Shape(v, count, m)
      invariant m.stack == [] ==> m.ctl == Returning && m.i == count + 1
      decreases Measure(count, m)
    {
      ShapeNext(v, count, m);
      m := Step(v, count, m);
    }
    return m.trace, m.deepest, m.sawDone;
  }
}
