/** worker.hpp: the queue of jobs of a worker and its stop flag. The methods are the sections
    executed under tasks_mtx_ and the loop of one worker thread. */
module CoroWorker {
  import opened CoroHandoff
  import opened Numbers

  /** What a round of the loop finds: the thread has to end, to wait, or to run a job. */
  datatype Found = MustEnd | MustWait | Run(job: Job)

  class Worker {
    const threadCount: int
    var tasks: seq<Job>
    var stopRequested: bool
    var waiting: nat            // threads that wait on cv_

    /** Lines 13-14: there is at least one thread. */
    constructor (threadCount: nat)
      ensures this.threadCount == Max(1, threadCount) && tasks == [] && !stopRequested && waiting == 0
    {
      this.threadCount := Max(1, threadCount);
      tasks, stopRequested, waiting := [], false, 0;
    }

    /** Lines 29-35: jobs are queued at the end, also after a stop, and one waiting thread looks again. In any state
        of the handoff with this queue, the task's submission of a single task and the final awaiter's of the
        task are this. */
    method Submit(job: Job, ghost s: State)
      requires s.queue == tasks
      modifies this`tasks, this`waiting
      ensures tasks == old(tasks) + [job] && waiting == if old(waiting) > 0 then old(waiting) - 1 else 0
      ensures match job
              case SingleJob(i) => TaskStep(s, TaskPc.Submit(i)) == s.(task := Go(s, Exchange(i)), queue := tasks)
              case ResumeJob =>
                forall i :: SingleStep(s, Hand, i) == s.(queue := tasks, worker := Single(Returned, i))
    {
      tasks := tasks + [job];
      if waiting > 0 {
        waiting := waiting - 1;
      }
    }

    /** Lines 39-43: all waiting threads look again; what is queued stays queued and is never run. In any state of
        the handoff with this queue, the main thread's step at its call is this. */
    method Stop(ghost s: State)
      requires s.main == MStop && s.queue == tasks
      modifies this`stopRequested, this`waiting
      ensures stopRequested && waiting == 0 && MainStep(s) == s.(main := MJoin, stop := stopRequested, queue := tasks)
    {
      stopRequested := true;
      waiting := 0;
    }

    /** Lines 56-65: a stop comes before the queue, jobs are taken first in, first out. In any state of
        the handoff with this queue and flag, the worker's step at the top of its loop is this round. */
    method Take(ghost s: State) returns (found: Found)
      requires s.worker == Top && s.queue == tasks && s.stop == stopRequested
      modifies this`tasks, this`waiting
      ensures found == if stopRequested then MustEnd else if old(tasks) == [] then MustWait else Run(old(tasks)[0])
      ensures tasks == if found.Run? then old(tasks)[1..] else old(tasks)
      ensures waiting == old(waiting) + if found.MustWait? then 1 else 0
      ensures WorkerStep(s) == match found
                               case MustEnd => s.(worker := WExit)
                               case MustWait => s
                               case Run(SingleJob(i)) => s.(worker := Single(Body, i), queue := tasks)
                               case Run(ResumeJob) => s.(worker := Resuming, queue := tasks)
    {
      if stopRequested {
        found := MustEnd;
      } else if tasks == [] {
        found := MustWait;
        waiting := waiting + 1;
      } else {
        found := Run(tasks[0]);
        tasks := tasks[1..];
      }
    }

    /** Lines 55-67 until the thread ends or has to wait, while nobody submits or stops: the jobs run in the order of
        their submission until none is left; after a stop none runs. */
    method RunLoop() returns (ran: seq<Job>)
      modifies this`tasks, this`waiting
      ensures ran + tasks == old(tasks)
      ensures if stopRequested then ran == [] && waiting == old(waiting) else tasks == [] && waiting == old(waiting) + 1
    {
      ran := [];
      var found := Take(Initial(0).(queue := tasks, stop := stopRequested));
      while found.Run?
        invariant ran + (if found.Run? then [found.job] else []) + tasks == old(tasks)
        invariant stopRequested ==> found.MustEnd? && ran == []
        invariant !stopRequested && !found.Run? ==> found.MustWait? && tasks == []
        invariant waiting == old(waiting) + if found.MustWait? then 1 else 0
        decreases |tasks|, found.Run?
      {
        ran := ran + [found.job];
        found := Take(Initial(0).(queue := tasks, stop := stopRequested));
      }
    }
  }
}
