/**
 * The entry queue of `trio/_core/_entry_queue.py` as a machine whose steps are the atomic operations of
 * the queue task and of the threads and signal handlers that submit jobs.
 */
module EntryQueue {
  import opened Collections

  type Job = int
  type Thread = int

  /** The thread that signal handlers run in; the lock is reentrant, so they may have it when this thread has. */
  const MAIN_THREAD: Thread := 0

  /** Where the queue task is. */
  datatype At =
    | PassBegins                      // about to look at the length of the queue
    | Fifo(left: nat)                 // so many jobs of the queue are still to be run in this pass
    | Idem(jobs: seq<Job>)            // and then these idempotent ones
    | Checking                        // is the queue empty?
    | CheckingIdem                    // it was; is the other one?
    | Sleeping                        // in `wait_readable`
    | Woken                           // about to drain the socket
    | Yielding                        // in `checkpoint`
    | Cancelled                       // about to take the lock
    | HasLock                         // about to set `done`
    | LastPassBegins
    | LastFifo(left: nat)
    | LastIdem(jobs: seq<Job>)
    | Ended                           // past both assertions, or stopped by one

  /** Where a submitting thread is in `run_sync_soon`. It holds the lock in all of these. */
  datatype Submitting = Entered | Accepted | Put

  datatype Lock = Free | TaskHas | ThreadHas(t: Thread, submitting: Submitting, job: Job, idempotent: bool)

  datatype Event = PutIdem(job: Job) | RanIdem(job: Job)

  datatype State = State(
    at: At,
    queue: seq<Job>,
    idem: seq<Job>,                   // the keys of the dict, in order
    wakeup: bool,                     // the socket has something to read
    done: bool,
    lock: Lock,
    submitted: seq<Job>,              // the jobs put on the queue, in order
    ran: seq<Job>,                    // the jobs of the queue that were run, in order
    events: seq<Event>)               // what happened to idempotent jobs

  datatype Step =
    | Enter(t: Thread, job: Job, idempotent: bool)   // a thread takes the lock
    | CheckDone                       // it raises RunFinishedError if the queue is done
    | PutJob
    | SendWakeup                      // and gives the lock back
    | Signal(job: Job, idempotent: bool)             // a whole call from a signal handler or a callback, in the main thread
    | StrayWakeup                     // a byte that Python's signal handling writes
    | Task                            // the queue task's next operation
    | WakeUp                          // the socket is readable
    | Cancel                          // the queue task is cancelled, at a checkpoint

  predicate Enabled(s: State, step: Step) {
    match step
    case Enter(_, _, _) => s.lock == Free
    case CheckDone => s.lock.ThreadHas? && s.lock.submitting == Entered
    case PutJob => s.lock.ThreadHas? && s.lock.submitting == Accepted
    case SendWakeup => s.lock.ThreadHas? && s.lock.submitting == Put
    case Signal(_, _) => s.lock.ThreadHas? ==> s.lock.t == MAIN_THREAD
    case StrayWakeup => true
    case Task => !s.at.Sleeping? && !s.at.Ended? && (s.at.Cancelled? ==> s.lock == Free)
    case WakeUp => s.at.Sleeping? && s.wakeup
    case Cancel => s.at.Sleeping? || s.at.Yielding?
  }

  function WithJob(s: State, job: Job, idempotent: bool): State {
    if idempotent then s.(idem := if job in s.idem then s.idem else s.idem + [job], events := s.events + [PutIdem(job)])
    else s.(queue := s.queue + [job], submitted := s.submitted + [job])
  }

  function RunNext(s: State): State
    requires s.queue != []
  {
    s.(queue := s.queue[1..], ran := s.ran + [s.queue[0]])
  }

  function RunIdem(s: State, job: Job): State {
    s.(idem := Without(s.idem, job), events := s.events + [RanIdem(job)])
  }

  /** The queue task's next operation. `popleft` and `del` raise when there is nothing to take: no state follows then. */
  function TaskStep(s: State): State {
    match s.at
    case PassBegins => s.(at := Fifo(|s.queue|))
    case Fifo(left) =>
      if left == 0 then s.(at := Idem(s.idem)) else if s.queue == [] then s else RunNext(s).(at := Fifo(left - 1))
    case Idem(jobs) =>
      if jobs == [] then s.(at := Checking) else if jobs[0] !in s.idem then s else RunIdem(s, jobs[0]).(at := Idem(jobs[1..]))
    case Checking => s.(at := if s.queue == [] then CheckingIdem else Yielding)
    case CheckingIdem => s.(at := if s.idem == [] then Sleeping else Yielding)
    case Woken => s.(wakeup := false, at := PassBegins)
    case Yielding => s.(at := PassBegins)
    case Cancelled => s.(lock := TaskHas, at := HasLock)
    case HasLock => s.(done := true, lock := Free, at := LastPassBegins)
    case LastPassBegins => s.(at := LastFifo(|s.queue|))
    case LastFifo(left) =>
      if left == 0 then s.(at := LastIdem(s.idem)) else if s.queue == [] then s else RunNext(s).(at := LastFifo(left - 1))
    case LastIdem(jobs) =>
      if jobs == [] then s.(at := Ended) else if jobs[0] !in s.idem then s else RunIdem(s, jobs[0]).(at := LastIdem(jobs[1..]))
    case Sleeping => s
    case Ended => s
  }

  function After(s: State, step: Step): State
    requires Enabled(s, step)
  {
    match step
    case Enter(t, job, idempotent) => s.(lock := ThreadHas(t, Entered, job, idempotent))
    case CheckDone => if s.done then s.(lock := Free) else s.(lock := s.lock.(submitting := Accepted))
    case PutJob => WithJob(s, s.lock.job, s.lock.idempotent).(lock := s.lock.(submitting := Put))
    case SendWakeup => s.(wakeup := true, lock := Free)
    case Signal(job, idempotent) => if s.done then s else WithJob(s, job, idempotent).(wakeup := true)
    case StrayWakeup => s.(wakeup := true)
    case Task => TaskStep(s)
    case WakeUp => s.(at := Woken)
    case Cancel => s.(at := Cancelled)
  }

  // ---------- invariant ----------

  /** Some run of the job comes after the event. */
  predicate RunSince(events: seq<Event>, p: nat, job: Job) {
    exists r :: p < r < |events| && events[r] == RanIdem(job)
  }

  /** An idempotent job that was put is pending still, or was run since. */
  ghost predicate Followed(events: seq<Event>, idem: seq<Job>) {
    forall p :: 0 <= p < |events| && events[p].PutIdem? ==> events[p].job in idem || RunSince(events, p, events[p].job)
  }

  /** A wakeup is pending, or the submitter that has put the job is about to send it. */
  predicate WakeupComing(s: State) {
    s.wakeup || (s.lock.ThreadHas? && s.lock.submitting == Put)
  }

  predicate AfterDone(at: At) {
    at.LastPassBegins? || at.LastFifo? || at.LastIdem? || at.Ended?
  }

  ghost predicate TaskOk(s: State) {
    match s.at
    case Fifo(left) => left <= |s.queue|
    case Idem(jobs) => Distinct(jobs) && forall j :: j in jobs ==> j in s.idem
    case CheckingIdem => s.queue != [] ==> WakeupComing(s)
    case Sleeping => s.queue != [] || s.idem != [] ==> WakeupComing(s)
    case LastFifo(left) => left == |s.queue|
    case LastIdem(jobs) => s.queue == [] && jobs == s.idem
    case Ended => s.queue == [] && s.idem == []
    case _ => true
  }

  ghost predicate Inv(s: State) {
    && s.submitted == s.ran + s.queue
    && Distinct(s.idem)
    && Followed(s.events, s.idem)
    && (s.lock == TaskHas <==> s.at.HasLock?)
    && (s.done <==> AfterDone(s.at))
    && (s.done ==> !(s.lock.ThreadHas? && s.lock.submitting != Entered))
    && TaskOk(s)
  }

  /** What is asked of the jobs while one more is put. */
  lemma WithJobOk(s: State, job: Job, idempotent: bool)
    requires Inv(s)
    ensures var d := WithJob(s, job, idempotent);
      && d.submitted == d.ran + d.queue && Distinct(d.idem) && Followed(d.events, d.idem)
      && (forall j :: j in s.idem ==> j in d.idem)
  {
    var d := WithJob(s, job, idempotent);
    if idempotent {
      if job !in s.idem { BackDistinct(s.idem, job); }
      MoreEvents(s.events, PutIdem(job));
      forall p | 0 <= p < |d.events| && d.events[p].PutIdem? ensures d.events[p].job in d.idem || RunSince(d.events, p, d.events[p].job) {
        if p < |s.events| {
          assert d.events[p] == s.events[p];
        }
      }
    }
  }

  lemma MoreEvents(events: seq<Event>, e: Event)
    ensures forall p: nat, job :: RunSince(events, p, job) ==> RunSince(events + [e], p, job)
  {
    forall p: nat, job | RunSince(events, p, job) ensures RunSince(events + [e], p, job) {
      var r :| p < r < |events| && events[r] == RanIdem(job);
      assert (events + [e])[r] == RanIdem(job);
    }
  }

  lemma RunIdemOk(s: State, job: Job)
    requires Inv(s)
    ensures var d := RunIdem(s, job);
      && Distinct(d.idem) && (forall j :: j in s.idem && j != job ==> j in d.idem) && Followed(d.events, d.idem)
  {
    var d := RunIdem(s, job);
    WithoutContents(s.idem, job);
    MoreEvents(s.events, RanIdem(job));
    forall p | 0 <= p < |d.events| && d.events[p].PutIdem? ensures d.events[p].job in d.idem || RunSince(d.events, p, d.events[p].job) {
      assert p < |s.events| && d.events[p] == s.events[p];
      assert d.events[|s.events|] == RanIdem(job);
    }
  }

  lemma RunNextOk(s: State)
    requires Inv(s) && s.queue != []
    ensures RunNext(s).submitted == RunNext(s).ran + RunNext(s).queue
  {
    assert s.queue == [s.queue[0]] + s.queue[1..];
  }

  lemma TaskKeeps(s: State)
    requires Inv(s) && Enabled(s, Task)
    ensures Inv(TaskStep(s))
    ensures TaskStep(s) != s
  {
    hide Inv, TaskStep;
    TaskMoves(s);
    match s.at {
      case Fifo(_) => FifoKeeps(s);
      case LastFifo(_) => FifoKeeps(s);
      case Idem(_) => IdemKeeps(s);
      case LastIdem(_) => IdemKeeps(s);
      case _ => PlainKeeps(s);
    }
  }

  /** There is always something to take where the task takes something. */
  lemma TaskMoves(s: State)
    requires Inv(s) && Enabled(s, Task)
    ensures TaskStep(s) != s
  {
    hide Followed, Distinct;
    if (s.at.Idem? || s.at.LastIdem?) && s.at.jobs != [] {
      var j := s.at.jobs[0];
      assert j in s.at.jobs && |s.at.jobs[1..]| < |s.at.jobs|;
    }
  }

  lemma FifoKeeps(s: State)
    requires Inv(s) && Enabled(s, Task) && (s.at.Fifo? || s.at.LastFifo?)
    ensures Inv(TaskStep(s))
  {
    hide Followed, Distinct;
    if s.at.left > 0 { RunNextOk(s); } else { IdemDistinct(s); }
  }

  lemma IdemKeeps(s: State)
    requires Inv(s) && Enabled(s, Task) && (s.at.Idem? || s.at.LastIdem?)
    ensures Inv(TaskStep(s))
  {
    hide Followed, Distinct;
    if s.at.jobs != [] {
      RunIdemOk(s, s.at.jobs[0]);
      if s.at.Idem? { RestDistinct(s.at.jobs); }
    }
  }

  lemma PlainKeeps(s: State)
    requires Inv(s) && Enabled(s, Task) && !s.at.Fifo? && !s.at.LastFifo? && !s.at.Idem? && !s.at.LastIdem?
    ensures Inv(TaskStep(s))
  {
    hide Followed, Distinct;
  }

  lemma IdemDistinct(s: State)
    requires Inv(s)
    ensures Distinct(s.idem)
  {
  }

  lemma OthersKeep(s: State, step: Step)
    requires Inv(s) && Enabled(s, step) && !step.Task?
    ensures Inv(After(s, step))
  {
    hide Followed, Distinct;
    match step {
      case PutJob => WithJobOk(s, s.lock.job, s.lock.idempotent);
      case Signal(job, idempotent) => WithJobOk(s, job, idempotent);
      case _ =>
    }
  }

  // ---------- runs ----------

  const START := State(PassBegins, [], [], false, false, Free, [], [], [])

  predicate Possible(steps: seq<Step>)
    decreases |steps|, 0
  {
    steps == [] || (Possible(steps[..|steps| - 1]) && Enabled(Reached(steps[..|steps| - 1]), steps[|steps| - 1]))
  }

  function Reached(steps: seq<Step>): State
    requires Possible(steps)
    decreases |steps|, 1
  {
    if steps == [] then START else After(Reached(steps[..|steps| - 1]), steps[|steps| - 1])
  }

  lemma {:induction false} AlwaysInv(steps: seq<Step>)
    requires Possible(steps)
    ensures Inv(Reached(steps))
  {
    if steps != [] {
      var s, step := Reached(steps[..|steps| - 1]), steps[|steps| - 1];
      AlwaysInv(steps[..|steps| - 1]);
      if step == Task { TaskKeeps(s); } else { OthersKeep(s, step); }
    }
  }

  /**
   * In every interleaving: the jobs run from the queue are, in order, a beginning of those put on it;
   * a sleeping task with something queued has a wakeup pending or coming; and when the task has ended,
   * every job has been run, exactly once for those of the queue, and every idempotent one at least once
   * since it was last put, so that both final assertions hold.
   */
  lemma JobsAreRun(steps: seq<Step>)
    requires Possible(steps)
    ensures var s := Reached(steps);
      && s.submitted == s.ran + s.queue
      && (s.at.Sleeping? && (s.queue != [] || s.idem != []) ==> WakeupComing(s))
      && (s.at.Ended? ==> s.queue == [] && s.idem == [] && s.ran == s.submitted)
      && (s.at.Ended? ==> forall p :: 0 <= p < |s.events| && s.events[p].PutIdem? ==> RunSince(s.events, p, s.events[p].job))
      && (s.done ==> !Enabled(s, PutJob))
  {
    AlwaysInv(steps);
  }

  /** The queue task is never stuck at an operation: `popleft` and `del` always find what they take. */
  lemma TaskGoesOn(steps: seq<Step>)
    requires Possible(steps) && Enabled(Reached(steps), Task)
    ensures Reached(steps + [Task]) == TaskStep(Reached(steps)) != Reached(steps)
  {
    AlwaysInv(steps);
    TaskKeeps(Reached(steps));
    assert (steps + [Task])[..|steps|] == steps;
  }
}
