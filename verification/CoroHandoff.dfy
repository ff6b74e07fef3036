/** symmetric_resume.cpp built with SYMMETRIC_EXTRA: the main thread and one worker thread race on
    done_ for every single task, and hand the task over from the main thread to the worker. One
    step is one access to a shared variable; waiting loops only go on when their condition
    holds. The number of iterations is arbitrary. */
module CoroHandoff {
  import opened CoroEvents

  /** Where the task coroutine is in make_task_impl and in the co_await of single task i. */
  datatype TaskPc =
    | Loop(i: int)         // coro.hpp 107-110
    | Save(i: int)         // symmetric_resume.cpp 153
    | Submit(i: int)       // 163
    | Exchange(i: int)     // 184, after polling for any time
    | Suspending(i: int)   // 192: done_ is set, resume() has not returned yet
    | WaitWorker(i: int)   // 198
    | Resumed(i: int)      // coro.hpp 118
    | Destroy(i: int)      // coro.hpp 119, ~SyncTask
    | Finish               // coro.hpp 123
    | Return               // coro.hpp 126

  datatype Point = Start | Awaiting(i: int) | Final

  /** The task is suspended, running on one of the threads, or destroyed. */
  datatype Task = Parked(at: Point) | OnMain(pc: TaskPc) | OnWorker(pc: TaskPc) | Gone

  datatype MainPc =
    | MResume          // 240
    | MInTask          // inside that resume()
    | MSetSuspended    // 245
    | MWaitFinished    // 251
    | MStop            // 254
    | MJoin            // 261
    | MDestroy         // 265, ~Task
    | MExit

  /** Inside the job that resumes single task i. */
  datatype SinglePc =
    | Body                       // 165, coro.hpp 100-102
    | SExchange                  // 41
    | ReadHandle(was: bool)      // 42-47
    | WaitSuspended              // 56
    | Hand                       // 63
    | Returned                   // 168

  datatype WorkerPc =
    | Top                                  // worker.hpp 56-66
    | Single(pc: SinglePc, i: int)
    | Resuming                             // 63, in the job that resumes the task
    | WInTask                              // inside that resume()
    | WExit

  datatype Job = SingleJob(i: int) | ResumeJob

  /** `frame` is the single task whose frame exists, or 0; done, handle and finished are the fields of its
      promise. suspended, taskFinished are the two global flags. */
  datatype State = State(count: nat, main: MainPc, worker: WorkerPc, task: Task, queue: seq<Job>,
                         frame: int, done: bool, handle: bool, finished: bool,
                         suspended: bool, taskFinished: bool, stop: bool, trace: seq<Event>)

  function Initial(count: nat): State {
    State(count, MResume, Top, Parked(Start), [], 0, false, false, false, false, false, false, [])
  }

  /** The task goes on on the thread it runs on. */
  function Go(s: State, pc: TaskPc): Task {
    if s.task.OnMain? then OnMain(pc) else OnWorker(pc)
  }

  /** The task is suspended, in the co_await or for good, and resume() returns to the thread that
      called it. */
  function Park(s: State, at: Point): (s': State)
    ensures s'.count == s.count
  {
    s.(task := Parked(at), main := if s.task.OnMain? then MSetSuspended else s.main,
       worker := if s.task.OnMain? then s.worker else Top)
  }

  /** A step of the task on its current thread. */
  function TaskStep(s: State, pc: TaskPc): (s': State)
    ensures s'.count == s.count
  {
    match pc
    case Loop(i) =>
      if i <= s.count
      then s.(task := Go(s, Save(i)), trace := s.trace + [Created(i)], frame := i,
              done := false, handle := false, finished := false)
      else s.(task := Go(s, Finish))
    case Save(i) => s.(task := Go(s, Submit(i)), handle := true)
    case Submit(i) => s.(task := Go(s, Exchange(i)), queue := s.queue + [SingleJob(i)])
    case Exchange(i) => s.(task := Go(s, if s.done then WaitWorker(i) else Suspending(i)), done := true)
    case Suspending(i) => Park(s, Awaiting(i))
    case WaitWorker(i) => if s.finished then s.(task := Go(s, Resumed(i))) else s
    case Resumed(i) => s.(task := Go(s, Destroy(i)), trace := s.trace + [Continued(i)])
    case Destroy(i) => s.(task := Go(s, Loop(i + 1)), trace := s.trace + [Destroyed(i)], frame := 0)
    case Finish => s.(task := Go(s, Return), trace := s.trace + [Finished], taskFinished := true)
    case Return => Park(s, Final)
  }

  function MainStep(s: State): (s': State)
    ensures s'.count == s.count
  {
    match s.main
    case MResume => s.(main := MInTask, task := OnMain(Loop(1)))
    case MInTask => if s.task.OnMain? then TaskStep(s, s.task.pc) else s
    case MSetSuspended => s.(suspended := true, main := MWaitFinished)
    case MWaitFinished => if s.taskFinished then s.(main := MStop) else s
    case MStop => s.(stop := true, main := MJoin)
    case MJoin => if s.worker.WExit? then s.(main := MDestroy) else s
    case MDestroy => s.(task := Gone, main := MExit)
    case MExit => s
  }

  function SingleStep(s: State, pc: SinglePc, i: int): (s': State)
    ensures s'.count == s.count
  {
    match pc
    case Body => s.(trace := s.trace + [Ran(i)], worker := Single(SExchange, i))
    case SExchange => s.(done := true, worker := Single(ReadHandle(s.done), i))
    case ReadHandle(was) => s.(worker := Single(if was && s.handle then WaitSuspended else Returned, i))
    case WaitSuspended => if s.suspended then s.(worker := Single(Hand, i)) else s
    case Hand => s.(queue := s.queue + [ResumeJob], worker := Single(Returned, i))
    case Returned => s.(finished := true, worker := Top)
  }

  function WorkerStep(s: State): (s': State)
    ensures s'.count == s.count
  {
    match s.worker
    case Top =>
      if s.stop then s.(worker := WExit)
      else if s.queue == [] then s
      else s.(queue := s.queue[1..],
              worker := match s.queue[0] case SingleJob(i) => Single(Body, i) case ResumeJob => Resuming)
    case Single(pc, i) => SingleStep(s, pc, i)
    case Resuming =>
      if s.task.Parked? && s.task.at.Awaiting? then s.(worker := WInTask, task := OnWorker(Resumed(s.task.at.i))) else s
    case WInTask => if s.task.OnWorker? then TaskStep(s, s.task.pc) else s
    case WExit => s
  }

  /** A step that is not one more round of a waiting loop. */
  predicate Moves(s: State, s': State) {
    s' != s && (s' == MainStep(s) || s' == WorkerStep(s))
  }

  predicate CanMove(s: State) {
    MainStep(s) != s || WorkerStep(s) != s
  }

  // ---------- the invariant ----------

  /** The single task's job has been submitted and the worker has not run its body yet. */
  predicate NotRun(s: State, i: int) {
    s.queue == [SingleJob(i)] || s.worker == Single(Body, i)
  }

  /** No job is queued and the worker is looking for one. */
  predicate Quiet(s: State) {
    s.queue == [] && s.worker == Top
  }

  /** The job of single task i before its final awaiter has reached the exchange. */
  predicate BeforeExchange(s: State, i: int) {
    || (s.queue == [SingleJob(i)] && s.worker == Top)
    || (s.queue == [] && (s.worker == Single(Body, i) || s.worker == Single(SExchange, i)))
  }

  /** The worker was first at the exchange; it leaves the frame alone once it has published that. */
  predicate WorkerFirst(s: State, i: int) {
    && s.queue == [] && s.done
    && if s.finished then s.worker == Top
       else s.worker == Single(ReadHandle(false), i) || s.worker == Single(Returned, i)
  }

  /** The task was first: the worker runs the single task and then hands the task back to itself. */
  predicate TaskFirst(s: State, i: int) {
    && s.done
    && (|| BeforeExchange(s, i)
        || (s.queue == [] && (s.worker == Single(ReadHandle(true), i) || s.worker == Single(WaitSuspended, i)))
        || (s.queue == [] && s.worker == Single(Hand, i) && s.suspended)
        || (s.queue == [ResumeJob] && s.worker == Single(Returned, i) && s.suspended)
        || (s.queue == [ResumeJob] && s.worker == Top && s.suspended)
        || (s.queue == [] && s.worker == Resuming && s.suspended))
  }

  predicate InIteration(s: State, i: int) {
    1 <= i <= s.count && s.frame == i
  }

  /** What holds while the task runs, on either thread. */
  predicate Running(s: State, pc: TaskPc, quiet: bool) {
    match pc
    case Loop(i) => 1 <= i <= s.count + 1 && s.frame == 0 && quiet
    case Save(i) =>
      InIteration(s, i) && quiet && !s.done && !s.finished
    case Submit(i) =>
      InIteration(s, i) && quiet && !s.done && !s.finished && s.handle
    case Exchange(i) => InIteration(s, i) && s.handle
    case Suspending(i) => InIteration(s, i) && s.handle
    case WaitWorker(i) => InIteration(s, i)
    case Resumed(i) => InIteration(s, i) && quiet
    case Destroy(i) => InIteration(s, i) && quiet
    case Finish => s.frame == 0 && quiet
    case Return => s.frame == 0 && quiet
  }

  /** Where the threads, the task, the queue and the flags can be together. */
  predicate Control(s: State) {
    match s.task
    case Parked(Start) => s == Initial(s.count)
    case OnMain(pc) =>
      && s.main == MInTask && !s.suspended && !s.stop && (s.taskFinished <==> pc.Return?)
      && Running(s, pc, Quiet(s))
      && (pc.Exchange? ==> (!s.done && !s.finished && BeforeExchange(s, pc.i)) || WorkerFirst(s, pc.i))
      && (pc.Suspending? ==> TaskFirst(s, pc.i))
      && (pc.WaitWorker? ==> WorkerFirst(s, pc.i))
    case Parked(Awaiting(i)) =>
      && (if s.suspended then s.main == MWaitFinished else s.main == MSetSuspended)
      && !s.stop && !s.taskFinished && InIteration(s, i) && s.handle
      && TaskFirst(s, i)
    case OnWorker(pc) =>
      && s.worker == WInTask && s.suspended && (s.taskFinished <==> pc.Return?)
      && Running(s, pc, s.queue == [])
      && (pc.Exchange? ==> s.queue == [SingleJob(pc.i)] && !s.done && !s.finished)
      && (pc.Suspending? ==> s.queue == [SingleJob(pc.i)] && s.done)
      && !pc.WaitWorker?
      && Ending(s)
    case Parked(Final) =>
      && s.taskFinished && s.queue == [] && s.frame == 0
      && (s.worker == Top || (s.worker == WExit && s.stop))
      && ((s.main == MSetSuspended && !s.suspended && !s.stop) || (s.suspended && Ending(s)) || AfterJoin(s))
    case Gone =>
      s.main == MExit && s.worker == WExit && s.queue == [] && s.frame == 0 && s.taskFinished
  }

  /** The main thread after it has published that the task was suspended. */
  predicate Ending(s: State) {
    || (s.main == MWaitFinished && !s.stop)
    || (s.main == MStop && s.taskFinished && !s.stop)
    || (s.main == MJoin && s.taskFinished && s.stop)
  }

  predicate AfterJoin(s: State) {
    s.main == MDestroy && s.worker == WExit && s.suspended && s.stop
  }

  /** How many events of the loop have happened. */
  function Seen(s: State): int {
    match s.task
    case Parked(Start) => 0
    case Parked(Awaiting(i)) => 4 * i - if NotRun(s, i) then 3 else 2
    case OnMain(pc) => SeenAt(s, pc)
    case OnWorker(pc) => SeenAt(s, pc)
    case _ => 4 * s.count
  }

  function SeenAt(s: State, pc: TaskPc): int {
    match pc
    case Loop(i) => 4 * i - 4
    case Save(i) => 4 * i - 3
    case Submit(i) => 4 * i - 3
    case Exchange(i) => 4 * i - if NotRun(s, i) then 3 else 2
    case Suspending(i) => 4 * i - if NotRun(s, i) then 3 else 2
    case WaitWorker(i) => 4 * i - 2
    case Resumed(i) => 4 * i - 2
    case Destroy(i) => 4 * i - 1
    case _ => 4 * s.count
  }

  /** The trace is the beginning of the expected one that belongs to the place the run has reached. */
  predicate TraceInv(s: State) {
    && 0 <= Seen(s) <= 4 * s.count
    && s.trace == if s.taskFinished then Expected(s.count) else Prefix(Seen(s))
  }

  /** Up to the submission, the exchange and its wait, and the end of an iteration. */
  predicate Begins(pc: TaskPc) { pc.Loop? || pc.Save? || pc.Submit? }

  predicate Awaits(pc: TaskPc) { pc.Exchange? || pc.Suspending? || pc.WaitWorker? }

  lemma MainBegins(s: State)
    requires Control(s) && s.task.OnMain? && Begins(s.task.pc)
    ensures Control(TaskStep(s, s.task.pc))
  {
  }

  lemma MainAwaits(s: State)
    requires Control(s) && s.task.OnMain? && Awaits(s.task.pc)
    ensures Control(TaskStep(s, s.task.pc))
  {
  }

  lemma MainEnds(s: State)
    requires Control(s) && s.task.OnMain? && !Begins(s.task.pc) && !Awaits(s.task.pc)
    ensures Control(TaskStep(s, s.task.pc))
  {
  }

  lemma WorkerBegins(s: State)
    requires Control(s) && s.task.OnWorker? && Begins(s.task.pc)
    ensures Control(TaskStep(s, s.task.pc))
  {
  }

  lemma WorkerAwaits(s: State)
    requires Control(s) && s.task.OnWorker? && Awaits(s.task.pc)
    ensures Control(TaskStep(s, s.task.pc))
  {
  }

  lemma WorkerEnds(s: State)
    requires Control(s) && s.task.OnWorker? && !Begins(s.task.pc) && !Awaits(s.task.pc)
    ensures Control(TaskStep(s, s.task.pc))
  {
  }

  lemma MainAlone(s: State)
    requires Control(s) && !s.main.MInTask?
    ensures Control(MainStep(s))
  {
  }

  lemma MainKeepsControl(s: State)
    requires Control(s)
    ensures Control(MainStep(s))
  {
    if !s.main.MInTask? {
      MainAlone(s);
    } else if s.task.OnMain? {
      if Begins(s.task.pc) {
        MainBegins(s);
      } else if Awaits(s.task.pc) {
        MainAwaits(s);
      } else {
        MainEnds(s);
      }
    }
  }

  predicate Racing(pc: SinglePc) { pc.Body? || pc.SExchange? || pc.ReadHandle? }

  lemma SingleRaces(s: State)
    requires Control(s) && s.worker.Single? && Racing(s.worker.pc)
    ensures Control(WorkerStep(s))
  {
  }

  lemma SingleHandsOver(s: State)
    requires Control(s) && s.worker.Single? && !Racing(s.worker.pc)
    ensures Control(WorkerStep(s))
  {
  }

  lemma WorkerAlone(s: State)
    requires Control(s) && !s.worker.Single? && !s.worker.WInTask?
    ensures Control(WorkerStep(s))
  {
  }

  lemma WorkerKeepsControl(s: State)
    requires Control(s)
    ensures Control(WorkerStep(s))
  {
    if s.worker.Single? {
      if Racing(s.worker.pc) {
        SingleRaces(s);
      } else {
        SingleHandsOver(s);
      }
    } else if !s.worker.WInTask? {
      WorkerAlone(s);
    } else if s.task.OnWorker? {
      if Begins(s.task.pc) {
        WorkerBegins(s);
      } else if Awaits(s.task.pc) {
        WorkerAwaits(s);
      } else {
        WorkerEnds(s);
      }
    }
  }

  // ---------- the trace ----------

  /** A step leaves the trace alone or adds the event that comes next. */
  predicate Advances(s: State, s': State) {
    || (s'.trace == s.trace && Seen(s') == Seen(s) && s'.taskFinished == s.taskFinished)
    || (&& 0 <= Seen(s) < 4 * s.count && s'.trace == s.trace + [EventAt(Seen(s))] && Seen(s') == Seen(s) + 1
        && !s.taskFinished && !s'.taskFinished)
    || (&& Seen(s') == Seen(s) == 4 * s.count && s'.trace == s.trace + [Finished]
        && !s.taskFinished && s'.taskFinished)
  }

  /** The task runs, on one of the threads. */
  predicate TaskAt(s: State, pc: TaskPc) {
    s.task == OnMain(pc) || s.task == OnWorker(pc)
  }

  lemma BeginAdvances(s: State, pc: TaskPc)
    requires Control(s) && TaskAt(s, pc) && Begins(pc)
    ensures Advances(s, TaskStep(s, pc))
  {
    EventsOf(pc.i);
  }

  lemma AwaitAdvances(s: State, pc: TaskPc)
    requires Control(s) && TaskAt(s, pc) && Awaits(pc)
    ensures Advances(s, TaskStep(s, pc))
  {
  }

  lemma EndAdvances(s: State, pc: TaskPc)
    requires Control(s) && TaskAt(s, pc) && !Begins(pc) && !Awaits(pc)
    ensures Advances(s, TaskStep(s, pc))
  {
    if s.frame >= 1 {
      EventsOf(s.frame);
    }
  }

  lemma TaskAdvances(s: State, pc: TaskPc)
    requires Control(s) && TaskAt(s, pc)
    ensures Advances(s, TaskStep(s, pc))
  {
    if Begins(pc) {
      BeginAdvances(s, pc);
    } else if Awaits(pc) {
      AwaitAdvances(s, pc);
    } else {
      EndAdvances(s, pc);
    }
  }

  lemma MainAdvances(s: State)
    requires Control(s)
    ensures Advances(s, MainStep(s))
  {
    if s.main.MInTask? && s.task.OnMain? {
      TaskAdvances(s, s.task.pc);
    }
  }

  lemma RaceAdvances(s: State)
    requires Control(s) && s.worker.Single? && Racing(s.worker.pc)
    ensures Advances(s, WorkerStep(s))
  {
    EventsOf(s.frame);
  }

  lemma HandOverAdvances(s: State)
    requires Control(s) && s.worker.Single? && !Racing(s.worker.pc)
    ensures Advances(s, WorkerStep(s))
  {
    if s.worker.pc.Hand? {
      assert WorkerStep(s).queue[0] == ResumeJob;
    }
  }

  lemma IdleAdvances(s: State)
    requires Control(s) && !s.worker.Single? && !s.worker.WInTask?
    ensures Advances(s, WorkerStep(s))
  {
    if |s.queue| == 1 && !s.stop {
      assert WorkerStep(s).queue == [] || s.worker != Top;
    }
  }

  lemma WorkerAdvances(s: State)
    requires Control(s)
    ensures Advances(s, WorkerStep(s))
  {
    if s.worker.Single? {
      if Racing(s.worker.pc) {
        RaceAdvances(s);
      } else {
        HandOverAdvances(s);
      }
    } else if !s.worker.WInTask? {
      IdleAdvances(s);
    } else if s.task.OnWorker? {
      TaskAdvances(s, s.task.pc);
    }
  }

  predicate Inv(s: State) {
    Control(s) && TraceInv(s)
  }

  lemma InvNext(s: State, s': State)
    requires Inv(s) && (s' == MainStep(s) || s' == WorkerStep(s))
    ensures Inv(s') && s'.count == s.count
  {
    if s' == MainStep(s) {
      MainKeepsControl(s);
      MainAdvances(s);
    } else {
      WorkerKeepsControl(s);
      WorkerAdvances(s);
    }
    SeenInRange(s');
  }

  lemma SeenInRange(s: State)
    requires Control(s)
    ensures 0 <= Seen(s) <= 4 * s.count
  {
  }
}
