/** What the handoff between the main thread and the worker guarantees, for every number of
    iterations and every interleaving. */
module CoroTheorems {
  import opened CoroEvents
  import opened CoroHandoff

  /** A run: every step moves one of the two threads. */
  ghost predicate IsRun(count: nat, run: seq<State>) {
    && |run| > 0
    && run[0] == Initial(count)
    && forall i :: 0 <= i < |run| - 1 ==> Moves(run[i], run[i + 1])
  }

  lemma {:induction false} InvRun(count: nat, run: seq<State>, k: int)
    requires IsRun(count, run) && 0 <= k < |run|
    ensures Inv(run[k]) && run[k].count == count
  {
    if k > 0 {
      InvRun(count, run, k - 1);
      assert Moves(run[k - 1], run[k - 1 + 1]);
      InvNext(run[k - 1], run[k]);
    }
  }

  // ---------- frames and resumption ----------

  /** The single task whose frame the task's next step uses, or 0. */
  function TaskUses(pc: TaskPc): int {
    if pc.Save? || pc.Exchange? || pc.WaitWorker? || pc.Destroy? then pc.i else 0
  }

  /** The single task whose frame the thread's next step uses, or 0. */
  function MainUses(s: State): int {
    if s.main.MInTask? && s.task.OnMain? then TaskUses(s.task.pc) else 0
  }

  function WorkerUses(s: State): int {
    if s.worker.Single? && !s.worker.pc.WaitSuspended? && !s.worker.pc.Hand? then s.worker.i
    else if s.worker.WInTask? && s.task.OnWorker? then TaskUses(s.task.pc)
    else 0
  }

  /** No thread uses the frame of a single task that does not exist, or no longer exists: in particular the
      worker's last access comes before the task destroys the frame, and the frame outlives the resume() of the
      single task that the worker is in. */
  lemma FramesAreAlive(count: nat, run: seq<State>, k: int)
    requires IsRun(count, run) && 0 <= k < |run|
    ensures MainUses(run[k]) != 0 ==> run[k].frame == MainUses(run[k])
    ensures WorkerUses(run[k]) != 0 ==> run[k].frame == WorkerUses(run[k])
    ensures run[k].worker.Single? ==> run[k].frame == run[k].worker.i
  {
    InvRun(count, run, k);
  }

  /** The task is resumed only while it is suspended, by the worker only after the main thread has
      published that its own resume() has returned, and it is destroyed only when it is suspended for good and
      the worker has gone. */
  lemma ResumedOnlyWhenSuspended(count: nat, run: seq<State>, k: int)
    requires IsRun(count, run) && 0 <= k < |run|
    ensures run[k].main == MResume ==> run[k].task == Parked(Start)
    ensures run[k].worker == Resuming ==> run[k].task.Parked? && run[k].task.at.Awaiting? && run[k].suspended
    ensures run[k].main == MDestroy ==> run[k].task == Parked(Final) && run[k].worker == WExit
    ensures !(run[k].main == MInTask && run[k].worker == WInTask)
  {
    InvRun(count, run, k);
  }

  /** Once the task has moved to the worker it always takes the suspend branch. */
  lemma AlwaysSuspendsOnWorker(count: nat, run: seq<State>, k: int)
    requires IsRun(count, run) && 0 <= k < |run| && run[k].task.OnWorker?
    ensures run[k].task.pc.Exchange? ==> !run[k].done
    ensures !run[k].task.pc.WaitWorker?
  {
    InvRun(count, run, k);
  }

  /** The queue never holds more than one job, and none when the task has finished, so that stopping the worker
      discards nothing. */
  lemma StopDiscardsNothing(count: nat, run: seq<State>, k: int)
    requires IsRun(count, run) && 0 <= k < |run|
    ensures |run[k].queue| <= 1
    ensures run[k].taskFinished || run[k].stop ==> run[k].queue == []
  {
    InvRun(count, run, k);
  }

  // ---------- termination ----------

  function TaskRank(s: State, pc: TaskPc): int {
    match pc
    case Loop(i) => 20 * (s.count + 1 - i) + 4
    case Save(i) => 20 * (s.count + 1 - i) + 3
    case Submit(i) => 20 * (s.count + 1 - i) + 2
    case Exchange(i) => 20 * (s.count + 1 - i) - 8
    case Suspending(i) => 20 * (s.count + 1 - i) - 9
    case WaitWorker(i) => 20 * (s.count + 1 - i) - 10
    case Resumed(i) => 20 * (s.count + 1 - i) - 11
    case Destroy(i) => 20 * (s.count + 1 - i) - 12
    case Finish => 2
    case Return => 1
  }

  function PlaceRank(s: State): int {
    match s.task
    case Parked(Start) => 20 * s.count + 5
    case Parked(Awaiting(i)) => 20 * (s.count + 1 - i) - 10
    case OnMain(pc) => TaskRank(s, pc)
    case OnWorker(pc) => TaskRank(s, pc)
    case _ => 0
  }

  function WorkerRank(w: WorkerPc): int {
    match w
    case Single(pc, _) =>
      (match pc
       case Body => 9
       case SExchange => 8
       case ReadHandle(_) => 7
       case WaitSuspended => 6
       case Hand => 5
       case Returned => 2)
    case Resuming => 2
    case WInTask => 1
    case Top => 1
    case WExit => 0
  }

  function QueueRank(q: seq<Job>): int {
    if q == [] then 0 else (if q[0].SingleJob? then 9 else 2)
  }

  function MainRank(m: MainPc): int {
    match m
    case MResume => 7
    case MInTask => 6
    case MSetSuspended => 5
    case MWaitFinished => 4
    case MStop => 3
    case MJoin => 2
    case MDestroy => 1
    case MExit => 0
  }

  /** How many steps a run can still take. */
  function Rank(s: State): int {
    PlaceRank(s) + WorkerRank(s.worker) + QueueRank(s.queue) + MainRank(s.main)
  }

  lemma MainTaskDecreases(s: State)
    requires Control(s) && s.task.OnMain?
    ensures TaskStep(s, s.task.pc) == s || Rank(TaskStep(s, s.task.pc)) < Rank(s)
  {
  }

  lemma WorkerTaskDecreases(s: State)
    requires Control(s) && s.task.OnWorker?
    ensures TaskStep(s, s.task.pc) == s || Rank(TaskStep(s, s.task.pc)) < Rank(s)
  {
  }

  lemma MainDecreases(s: State)
    requires Control(s) && MainStep(s) != s
    ensures Rank(MainStep(s)) < Rank(s)
  {
    if s.main.MInTask? {
      MainTaskDecreases(s);
    }
  }

  lemma WorkerDecreases(s: State)
    requires Control(s) && WorkerStep(s) != s
    ensures Rank(WorkerStep(s)) < Rank(s)
  {
    if s.worker.WInTask? {
      WorkerTaskDecreases(s);
    }
  }

  lemma RankIsNat(s: State)
    requires Control(s)
    ensures Rank(s) >= 0
  {
  }

  lemma MovesDecrease(s: State, s': State)
    requires Inv(s) && Moves(s, s')
    ensures Rank(s') < Rank(s)
  {
    if s' == MainStep(s) {
      MainDecreases(s);
    } else {
      WorkerDecreases(s);
    }
  }

  lemma StepOfRun(count: nat, run: seq<State>, k: int)
    requires IsRun(count, run) && 0 < k < |run|
    ensures Moves(run[k - 1], run[k])
  {
    assert Moves(run[k - 1], run[k - 1 + 1]);
  }

  lemma InitialRank(count: nat)
    ensures Rank(Initial(count)) == 20 * count + 13
  {
  }

  /** Every run is finite: however the threads interleave, they make at most 20 steps for each iteration
      and 13 more. */
  lemma {:induction false} RunsAreBounded(count: nat, run: seq<State>, k: int)
    requires IsRun(count, run) && 0 <= k < |run|
    ensures 0 <= Rank(run[k]) <= 20 * count + 13 - k
  {
    if k == 0 {
      InitialRank(count);
    } else {
      RunsAreBounded(count, run, k - 1);
      InvRun(count, run, k - 1);
      StepOfRun(count, run, k);
      MovesDecrease(run[k - 1], run[k]);
      InvRun(count, run, k);
      RankIsNat(run[k]);
    }
  }

  /** Nothing blocks for ever: until the main thread has returned, one of the threads can move. */
  lemma NoDeadlock(count: nat, run: seq<State>, k: int)
    requires IsRun(count, run) && 0 <= k < |run| && run[k].main != MExit
    ensures CanMove(run[k])
  {
    InvRun(count, run, k);
  }

  /** A thread that can move can still move after a step of the other one: the conditions waited for stay
      true, so a fair schedule lets both go on. */
  lemma MainStaysEnabled(count: nat, run: seq<State>, k: int)
    requires IsRun(count, run) && 0 <= k < |run| && MainStep(run[k]) != run[k]
    ensures MainStep(WorkerStep(run[k])) != WorkerStep(run[k])
  {
    InvRun(count, run, k);
    MainConditionStays(run[k]);
  }

  lemma MainConditionStays(s: State)
    requires Control(s) && MainStep(s) != s
    ensures MainStep(WorkerStep(s)) != WorkerStep(s)
  {
  }

  lemma WorkerConditionStays(s: State)
    requires Control(s) && WorkerStep(s) != s
    ensures WorkerStep(MainStep(s)) != MainStep(s)
  {
  }

  lemma WorkerStaysEnabled(count: nat, run: seq<State>, k: int)
    requires IsRun(count, run) && 0 <= k < |run| && WorkerStep(run[k]) != run[k]
    ensures WorkerStep(MainStep(run[k])) != MainStep(run[k])
  {
    InvRun(count, run, k);
    WorkerConditionStays(run[k]);
  }

  /** One run, one resumption: a run that cannot go on has ended with both threads gone, nothing queued, no frame
      left, and exactly the expected events: each single task created, run, continued and destroyed
      once. */
  lemma CompleteRun(count: nat, run: seq<State>)
    requires IsRun(count, run)
    requires !CanMove(run[|run| - 1])
    ensures var s := run[|run| - 1];
            && s.main == MExit && s.worker == WExit && s.task == Gone && s.queue == [] && s.frame == 0
            && s.trace == Expected(count)
  {
    InvRun(count, run, |run| - 1);
    if run[|run| - 1].main != MExit {
      NoDeadlock(count, run, |run| - 1);
    }
  }
}
