/**
 * The thread cache of `trio/_core/_thread_cache.py` as a machine whose steps are the atomic operations
 * of its threads, in any order.
 */
module ThreadCache {
  import opened Collections

  type Worker = int
  /** One call of `start_thread_soon`. */
  type Job = int

  /** Where a worker thread is in `_work`. */
  datatype At =
    | Waiting               // in the timed `acquire` of its lock
    | TimedOut              // the timeout has passed, and it has not looked at the idle workers yet
    | Unlocked              // has its lock, about to take the job
    | Running(job: Job)
    | Delivering(job: Job)  // has listed itself as idle again
    | Exited

  /** Where a submitting thread is in `start_thread_soon`. */
  datatype Submitting = Chosen(worker: Worker) | Assigned(worker: Worker)

  datatype State = State(
    at: map<Worker, At>,
    idle: seq<Worker>,                // the dict of idle workers, in the order of insertion
    job: map<Worker, Job>,            // `_job`, where it is not None
    released: set<Worker>,            // the workers whose lock is released
    starting: set<Job>,               // submitters that found no idle worker, about to make one
    submitting: map<Job, Submitting>,
    ran: seq<Job>,                    // the functions that were called, in order
    delivered: set<Job>)

  datatype Step =
    | PopIdle(j: Job)
    | NoneIdle(j: Job)
    | NewWorker(j: Job, w: Worker)
    | Assign(j: Job)
    | Release(j: Job)
    | Acquire(w: Worker)
    | TakeJob(w: Worker)
    | BecomeIdle(w: Worker)
    | Delivered(w: Worker)
    | Timeout(w: Worker)
    | TryExit(w: Worker)

  predicate Handed(s: State, j: Job) {
    exists w :: w in s.job && s.job[w] == j
  }

  predicate Known(s: State, j: Job) {
    j in s.submitting || Handed(s, j) || j in s.ran
  }

  predicate Enabled(s: State, step: Step) {
    match step
    case PopIdle(j) => s.idle != [] && j !in s.starting && !Known(s, j)
    case NoneIdle(j) => s.idle == [] && j !in s.starting && !Known(s, j)
    case NewWorker(j, w) => j in s.starting && w !in s.at
    case Assign(j) => j in s.submitting && s.submitting[j].Chosen?
    case Release(j) => j in s.submitting && s.submitting[j].Assigned?
    case Acquire(w) => w in s.at && s.at[w].Waiting? && w in s.released
    case TakeJob(w) => w in s.at && s.at[w].Unlocked?
    case BecomeIdle(w) => w in s.at && s.at[w].Running?
    case Delivered(w) => w in s.at && s.at[w].Delivering?
    case Timeout(w) => w in s.at && s.at[w].Waiting?
    case TryExit(w) => w in s.at && s.at[w].TimedOut?
  }

  function Last(q: seq<Worker>): Worker
    requires q != []
  {
    q[|q| - 1]
  }

  /** `fn, deliver = self._job` has nothing to unpack when there is no job: the machine is stuck then. */
  function After(s: State, step: Step): State
    requires Enabled(s, step)
  {
    match step
    case PopIdle(j) => s.(idle := s.idle[..|s.idle| - 1], submitting := s.submitting[j := Chosen(Last(s.idle))])
    case NoneIdle(j) => s.(starting := s.starting + {j})
    case NewWorker(j, w) => s.(at := s.at[w := Waiting], starting := s.starting - {j}, submitting := s.submitting[j := Chosen(w)])
    case Assign(j) =>
      var w := s.submitting[j].worker;
      s.(job := s.job[w := j], submitting := s.submitting[j := Assigned(w)])
    case Release(j) => s.(released := s.released + {s.submitting[j].worker}, submitting := s.submitting - {j})
    case Acquire(w) => s.(at := s.at[w := Unlocked], released := s.released - {w})
    case TakeJob(w) =>
      if w in s.job then s.(at := s.at[w := Running(s.job[w])], ran := s.ran + [s.job[w]], job := s.job - {w}) else s
    case BecomeIdle(w) => s.(at := s.at[w := Delivering(s.at[w].job)], idle := if w in s.idle then s.idle else s.idle + [w])
    case Delivered(w) => s.(at := s.at[w := Waiting], delivered := s.delivered + {s.at[w].job})
    case Timeout(w) => s.(at := s.at[w := TimedOut])
    case TryExit(w) =>
      if w in s.idle then s.(at := s.at[w := Exited], idle := Without(s.idle, w)) else s.(at := s.at[w := Waiting])
  }

  // ---------- invariant ----------

  /** The worker is between jobs as far as its own thread is concerned. */
  predicate Free(at: At) {
    at.Waiting? || at.TimedOut? || at.Delivering?
  }

  /** The worker is between taking a job and having delivered its result. */
  predicate Busy(at: At) {
    at.Running? || at.Delivering?
  }

  ghost predicate Promised(s: State, w: Worker) {
    exists j :: j in s.submitting && s.submitting[j].worker == w
  }

  ghost predicate UnderWay(s: State, j: Job) {
    exists w :: w in s.at && (s.at[w] == Running(j) || s.at[w] == Delivering(j))
  }

  /** A submitter has its worker to itself: nobody else chooses it, and it cannot exit. */
  ghost predicate SubmittersOk(s: State) {
    && (forall i, j :: i in s.submitting && j in s.submitting && s.submitting[i].worker == s.submitting[j].worker ==> i == j)
    && (forall j :: j in s.submitting ==>
          var w := s.submitting[j].worker;
          && w in s.at && Free(s.at[w]) && w !in s.idle && w !in s.released
          && (s.submitting[j].Assigned? <==> w in s.job) && (w in s.job ==> s.job[w] == j))
  }

  ghost predicate WorkersOk(s: State) {
    && Distinct(s.idle)
    && (forall w :: w in s.idle ==> w in s.at && Free(s.at[w]) && w !in s.released && w !in s.job)
    && (forall w :: w in s.released ==> w in s.at && Free(s.at[w]) && w in s.job)
    && (forall w :: w in s.job ==> w in s.at && (w in s.released || s.at[w].Unlocked? || s.job[w] in s.submitting))
    && (forall w :: w in s.at && s.at[w].Unlocked? ==> w in s.job)
  }

  /** A worker that is not idle, not busy and not gone has a job coming. */
  ghost predicate JobComing(s: State, w: Worker) {
    w in s.at && Free(s.at[w]) ==> w in s.idle || w in s.released || Promised(s, w)
  }

  ghost predicate JobsOk(s: State) {
    && Distinct(s.ran)
    && (forall j :: j in s.submitting ==> j !in s.ran)
    && (forall w :: w in s.job ==> s.job[w] !in s.ran && (s.job[w] in s.submitting ==> s.submitting[s.job[w]] == Assigned(w)))
    && (forall v, w :: v in s.job && w in s.job && s.job[v] == s.job[w] ==> v == w)
    && (forall w :: w in s.at && Busy(s.at[w]) ==> s.at[w].job in s.ran && s.at[w].job !in s.delivered)
    && (forall v, w :: v in s.at && w in s.at && Busy(s.at[v]) && Busy(s.at[w]) && s.at[v].job == s.at[w].job ==> v == w)
    && (forall j :: j in s.ran ==> j in s.delivered || UnderWay(s, j))
    && (forall j :: j in s.delivered ==> j in s.ran)
  }

  ghost predicate StartingOk(s: State) {
    forall j :: j in s.starting ==> !Known(s, j)
  }

  ghost predicate Inv(s: State) {
    && StartingOk(s)
    && SubmittersOk(s)
    && WorkersOk(s)
    && JobsOk(s)
    && (forall w :: JobComing(s, w))
  }

  lemma LastApart(q: seq<Worker>)
    requires Distinct(q) && q != []
    ensures Last(q) in q && Distinct(q[..|q| - 1]) && forall v :: v in q[..|q| - 1] <==> v in q && v != Last(q)
  {
  }

  /** Jobs under way stay so while their workers stay where they are. */
  lemma StillUnderWay(s: State, d: State)
    requires forall j :: j in s.ran ==> j in s.delivered || UnderWay(s, j)
    requires forall w :: w in s.at && Busy(s.at[w]) ==> w in d.at && d.at[w] == s.at[w]
    ensures forall j :: j in s.ran ==> j in s.delivered || UnderWay(d, j)
  {
    forall j | j in s.ran && j !in s.delivered ensures UnderWay(d, j) {
      var w :| w in s.at && (s.at[w] == Running(j) || s.at[w] == Delivering(j));
      assert w in d.at && d.at[w] == s.at[w];
    }
  }

  /** Promises stay while nothing is taken from the submitters. */
  lemma StillPromised(s: State, d: State, w: Worker)
    requires Promised(s, w)
    requires forall j :: j in s.submitting ==> j in d.submitting && d.submitting[j].worker == s.submitting[j].worker
    ensures Promised(d, w)
  {
    var j :| j in s.submitting && s.submitting[j].worker == w;
    assert d.submitting[j].worker == w;
  }

  /** No step makes a job known but those that take it from those that are starting, or find it a worker. */
  lemma StartingKept(s: State, step: Step)
    requires Inv(s) && Enabled(s, step)
    ensures StartingOk(After(s, step))
  {
    hide SubmittersOk, WorkersOk, JobComing, UnderWay;
    var d := After(s, step);
    forall j | j in d.starting ensures !Known(d, j) {
      if step != NoneIdle(j) { assert j in s.starting; }
      forall w | w in d.job ensures d.job[w] != j {
        if w in s.job { assert s.job[w] != j; }
      }
    }
  }

  /** Jobs are as they were when no busy worker has moved, and a new submitter at most has come. */
  lemma JobsUntouched(s: State, d: State)
    requires JobsOk(s) && d.ran == s.ran && d.delivered == s.delivered && d.job == s.job
    requires forall w :: w in s.at && Busy(s.at[w]) ==> w in d.at && d.at[w] == s.at[w]
    requires forall w :: w in d.at && Busy(d.at[w]) ==> w in s.at && d.at[w] == s.at[w]
    requires forall j :: j in d.submitting ==> if j in s.submitting then d.submitting[j] == s.submitting[j] else !Known(s, j)
    ensures JobsOk(d)
  {
    StillUnderWay(s, d);
    forall w | w in d.job ensures d.job[w] in d.submitting ==> d.submitting[d.job[w]] == Assigned(w) {
      assert Handed(s, s.job[w]);
    }
  }

  /** A worker without anything to be taken for it has a job coming still, unless it left the idle list or the released ones. */
  lemma StillComing(s: State, d: State, w: Worker)
    requires JobComing(s, w) && (w in d.at && Free(d.at[w]) ==> w in s.at && Free(s.at[w]))
    requires w in s.idle ==> w in d.idle || Promised(d, w)
    requires w in s.released ==> w in d.released || (w in d.at && !Free(d.at[w]))
    requires forall j :: j in s.submitting ==> j in d.submitting && d.submitting[j].worker == s.submitting[j].worker
    ensures JobComing(d, w)
  {
    if Promised(s, w) { StillPromised(s, d, w); }
  }

  lemma PopIdleKeeps(s: State, j: Job)
    requires Inv(s) && Enabled(s, PopIdle(j))
    ensures Inv(After(s, PopIdle(j)))
  {
    hide JobsOk, StartingOk, JobComing;
    var d, last := After(s, PopIdle(j)), Last(s.idle);
    LastApart(s.idle);
    StartingKept(s, PopIdle(j));
    JobsUntouched(s, d);
    assert d.submitting[j].worker == last;
    forall w ensures JobComing(d, w) {
      StillComing(s, d, w);
    }
  }

  lemma NoneIdleKeeps(s: State, j: Job)
    requires Inv(s) && Enabled(s, NoneIdle(j))
    ensures Inv(After(s, NoneIdle(j)))
  {
    hide JobsOk, StartingOk, JobComing, SubmittersOk;
    var d := After(s, NoneIdle(j));
    StartingKept(s, NoneIdle(j));
    JobsUntouched(s, d);
    SubmittersSame(s, d);
    forall w ensures JobComing(d, w) {
      StillComing(s, d, w);
    }
  }

  lemma SubmittersSame(s: State, d: State)
    requires SubmittersOk(s) && d.submitting == s.submitting && d.idle == s.idle && d.released == s.released && d.job == s.job
    requires forall w :: w in s.at && Free(s.at[w]) ==> w in d.at && Free(d.at[w])
    ensures SubmittersOk(d)
  {
  }

  lemma NewWorkerKeeps(s: State, j: Job, w: Worker)
    requires Inv(s) && Enabled(s, NewWorker(j, w))
    ensures Inv(After(s, NewWorker(j, w)))
  {
    hide JobsOk, StartingOk, SubmittersOk, JobComing;
    var d := After(s, NewWorker(j, w));
    StartingKept(s, NewWorker(j, w));
    assert !Known(s, j) by { StartsUnknown(s, j); }
    JobsUntouched(s, d);
    NewSubmitter(s, j, w);
    forall v ensures JobComing(d, v) {
      if v == w {
        assert d.submitting[j].worker == w;
        assert JobComing(d, w) by { PromisedComing(d, w); }
      } else {
        StillComing(s, d, v);
      }
    }
  }

  lemma StartsUnknown(s: State, j: Job)
    requires StartingOk(s) && j in s.starting
    ensures !Known(s, j)
  {
  }

  lemma PromisedComing(s: State, w: Worker)
    requires Promised(s, w)
    ensures JobComing(s, w)
  {
  }

  lemma NewSubmitter(s: State, j: Job, w: Worker)
    requires SubmittersOk(s) && WorkersOk(s) && Enabled(s, NewWorker(j, w)) && !Known(s, j)
    ensures SubmittersOk(After(s, NewWorker(j, w)))
  {
    hide Distinct;
  }

  lemma AssignKeeps(s: State, j: Job)
    requires Inv(s) && Enabled(s, Assign(j))
    ensures Inv(After(s, Assign(j)))
  {
    hide StartingOk, JobComing, JobsOk;
    var d := After(s, Assign(j));
    StartingKept(s, Assign(j));
    AssignedJobs(s, j);
    forall w ensures JobComing(d, w) {
      StillComing(s, d, w);
    }
  }

  lemma AssignedJobs(s: State, j: Job)
    requires SubmittersOk(s) && JobsOk(s) && Enabled(s, Assign(j))
    ensures JobsOk(After(s, Assign(j)))
  {
    hide Distinct;
    var d := After(s, Assign(j));
    forall w | w in s.job ensures s.job[w] != j {
      assert s.job[w] in s.submitting ==> s.submitting[s.job[w]] == Assigned(w);
    }
    StillUnderWay(s, d);
  }

  lemma ReleaseKeeps(s: State, j: Job)
    requires Inv(s) && Enabled(s, Release(j))
    ensures Inv(After(s, Release(j)))
  {
    hide StartingOk;
    var d := After(s, Release(j));
    StartingKept(s, Release(j));
    StillUnderWay(s, d);
    forall w ensures JobComing(d, w) {
      assert JobComing(s, w);
      if Promised(s, w) {
        var i :| i in s.submitting && s.submitting[i].worker == w;
        assert i != j ==> i in d.submitting && d.submitting[i].worker == w;
      }
    }
  }

  lemma AcquireKeeps(s: State, w: Worker)
    requires Inv(s) && Enabled(s, Acquire(w))
    ensures Inv(After(s, Acquire(w)))
  {
    hide JobsOk, StartingOk, JobComing;
    var d := After(s, Acquire(w));
    StartingKept(s, Acquire(w));
    JobsUntouched(s, d);
    forall v ensures JobComing(d, v) {
      StillComing(s, d, v);
    }
  }

  lemma TakeJobKeeps(s: State, w: Worker)
    requires Inv(s) && Enabled(s, TakeJob(w))
    ensures w in s.job && Inv(After(s, TakeJob(w)))
  {
    hide StartingOk, JobComing, JobsOk;
    var d := After(s, TakeJob(w));
    StartingKept(s, TakeJob(w));
    SubmitterGone(s, w);
    TakenJobs(s, w);
    forall v ensures JobComing(d, v) {
      StillComing(s, d, v);
    }
  }

  lemma SubmitterGone(s: State, w: Worker)
    requires SubmittersOk(s) && WorkersOk(s) && JobsOk(s) && w in s.at && s.at[w].Unlocked?
    ensures w in s.job && s.job[w] !in s.submitting
  {
    hide Distinct, UnderWay;
    forall i | i in s.submitting ensures s.submitting[i].worker != w {}
  }

  lemma TakenJobs(s: State, w: Worker)
    requires JobsOk(s) && Enabled(s, TakeJob(w)) && w in s.job && s.job[w] !in s.submitting
    ensures JobsOk(After(s, TakeJob(w)))
  {
    var d := After(s, TakeJob(w));
    BackDistinct(s.ran, s.job[w]);
    assert d.at[w] == Running(s.job[w]);
    StillUnderWay(s, d);
  }

  /** Nobody has a hand on a busy worker. */
  lemma BusyAlone(s: State, w: Worker)
    requires Inv(s) && w in s.at && Busy(s.at[w]) && !Free(s.at[w])
    ensures w !in s.idle && w !in s.released && w !in s.job && !Promised(s, w)
  {
    if w in s.job {
      SubmitterOf(s, w);
    }
  }

  lemma SubmitterOf(s: State, w: Worker)
    requires Inv(s) && w in s.job
    ensures w in s.released || s.at[w].Unlocked? || Free(s.at[w])
  {
    if w !in s.released && !s.at[w].Unlocked? {
      var j := s.job[w];
      assert s.submitting[j] == Assigned(w);
    }
  }

  lemma BecomeIdleKeeps(s: State, w: Worker)
    requires Inv(s) && Enabled(s, BecomeIdle(w))
    ensures w !in s.idle && Inv(After(s, BecomeIdle(w)))
  {
    hide StartingOk, JobComing, JobsOk;
    var d := After(s, BecomeIdle(w));
    StartingKept(s, BecomeIdle(w));
    BusyAlone(s, w);
    BackDistinct(s.idle, w);
    IdleJobs(s, w);
    forall v ensures JobComing(d, v) {
      if v == w { IdleComing(d, w); } else { StillComing(s, d, v); }
    }
  }

  lemma IdleComing(s: State, w: Worker)
    requires w in s.idle
    ensures JobComing(s, w)
  {
  }

  lemma IdleJobs(s: State, w: Worker)
    requires JobsOk(s) && Enabled(s, BecomeIdle(w))
    ensures JobsOk(After(s, BecomeIdle(w)))
  {
    var d := After(s, BecomeIdle(w));
    forall j | j in s.ran && j !in s.delivered ensures UnderWay(d, j) {
      var v :| v in s.at && (s.at[v] == Running(j) || s.at[v] == Delivering(j));
      assert d.at[v] == if v == w then Delivering(j) else s.at[v];
    }
  }

  lemma DeliveredKeeps(s: State, w: Worker)
    requires Inv(s) && Enabled(s, Delivered(w))
    ensures Inv(After(s, Delivered(w)))
  {
    hide StartingOk, JobComing, JobsOk;
    var d := After(s, Delivered(w));
    StartingKept(s, Delivered(w));
    DeliveredJobs(s, w);
    forall v ensures JobComing(d, v) {
      StillComing(s, d, v);
    }
  }

  lemma DeliveredJobs(s: State, w: Worker)
    requires JobsOk(s) && Enabled(s, Delivered(w))
    ensures JobsOk(After(s, Delivered(w)))
  {
    var d := After(s, Delivered(w));
    forall j | j in s.ran && j !in d.delivered ensures UnderWay(d, j) {
      var v :| v in s.at && (s.at[v] == Running(j) || s.at[v] == Delivering(j));
      assert d.at[v] == s.at[v];
    }
  }

  lemma TimeoutKeeps(s: State, w: Worker)
    requires Inv(s) && Enabled(s, Timeout(w))
    ensures Inv(After(s, Timeout(w)))
  {
    hide JobsOk, StartingOk, JobComing;
    var d := After(s, Timeout(w));
    StartingKept(s, Timeout(w));
    JobsUntouched(s, d);
    forall v ensures JobComing(d, v) {
      StillComing(s, d, v);
    }
  }

  /** A worker that has timed out exits only off the idle list, where nobody can choose it any more. */
  lemma ExitKeeps(s: State, w: Worker)
    requires Inv(s) && Enabled(s, TryExit(w)) && w in s.idle
    ensures Inv(After(s, TryExit(w)))
  {
    hide JobsOk, StartingOk, JobComing;
    var d := After(s, TryExit(w));
    WithoutContents(s.idle, w);
    StartingKept(s, TryExit(w));
    JobsUntouched(s, d);
    forall v ensures JobComing(d, v) {
      if v == w { GoneComing(d, w); } else { StillComing(s, d, v); }
    }
  }

  lemma GoneComing(s: State, w: Worker)
    requires w in s.at && s.at[w] == Exited
    ensures JobComing(s, w)
  {
  }

  /** If somebody has taken it off the list, it waits again, for the job that is coming. */
  lemma WaitAgainKeeps(s: State, w: Worker)
    requires Inv(s) && Enabled(s, TryExit(w)) && w !in s.idle
    ensures Inv(After(s, TryExit(w))) && (w in s.released || Promised(s, w))
  {
    hide JobsOk, StartingOk, SubmittersOk;
    var d := After(s, TryExit(w));
    StartingKept(s, TryExit(w));
    JobsUntouched(s, d);
    SubmittersSame(s, d);
    assert JobComing(s, w);
    forall v ensures JobComing(d, v) {
      StillComing(s, d, v);
    }
  }

  // ---------- runs ----------

  lemma StepKeeps(s: State, step: Step)
    requires Inv(s) && Enabled(s, step)
    ensures Inv(After(s, step))
  {
    hide Inv, After, Enabled;
    match step
    case PopIdle(j) => PopIdleKeeps(s, j);
    case NoneIdle(j) => NoneIdleKeeps(s, j);
    case NewWorker(j, w) => NewWorkerKeeps(s, j, w);
    case Assign(j) => AssignKeeps(s, j);
    case Release(j) => ReleaseKeeps(s, j);
    case Acquire(w) => AcquireKeeps(s, w);
    case TakeJob(w) => TakeJobKeeps(s, w);
    case BecomeIdle(w) => BecomeIdleKeeps(s, w);
    case Delivered(w) => DeliveredKeeps(s, w);
    case Timeout(w) => TimeoutKeeps(s, w);
    case TryExit(w) => if w in s.idle { ExitKeeps(s, w); } else { WaitAgainKeeps(s, w); }
  }

  const START := State(map[], [], map[], {}, {}, map[], [], {})

  /** The steps can be taken one after the other. */
  predicate Possible(steps: seq<Step>)
    decreases |steps|, 0
  {
    steps == [] || (Possible(steps[..|steps| - 1]) && Enabled(Reached(steps[..|steps| - 1]), steps[|steps| - 1]))
  }

  function Reached(steps: seq<Step>): State
    requires Possible(steps)
    decreases |steps|, 1
  {
    if steps == [] then START else After(Reached(steps[..|steps| - 1]), steps[|steps| - 1])
  }

  lemma {:induction false} AlwaysInv(steps: seq<Step>)
    requires Possible(steps)
    ensures Inv(Reached(steps))
  {
    if steps != [] {
      AlwaysInv(steps[..|steps| - 1]);
      StepKeeps(Reached(steps[..|steps| - 1]), steps[|steps| - 1]);
    }
  }

  /** The job was handed in. */
  predicate Begun(steps: seq<Step>, j: Job) {
    exists i :: 0 <= i < |steps| && (steps[i] == PopIdle(j) || steps[i] == NoneIdle(j))
  }

  /** A job that was handed in stays somewhere on its way: with its submitter, with a worker, or among those that ran. */
  lemma {:induction false} NotLost(steps: seq<Step>, j: Job)
    requires Possible(steps) && Begun(steps, j)
    ensures j in Reached(steps).starting || Known(Reached(steps), j)
  {
    var less, last := steps[..|steps| - 1], steps[|steps| - 1];
    var s, d := Reached(less), Reached(steps);
    AlwaysInv(less);
    if last == PopIdle(j) {
      assert j in d.submitting;
    } else if last == NoneIdle(j) {
      assert j in d.starting;
    } else {
      var i :| 0 <= i < |steps| && (steps[i] == PopIdle(j) || steps[i] == NoneIdle(j));
      assert less[i] == steps[i];
      NotLost(less, j);
      if Known(s, j) {
        KnownStays(s, last, j);
      } else if last.NewWorker? && last.j == j {
        assert j in d.submitting;
      }
    }
  }

  lemma KnownStays(s: State, step: Step, j: Job)
    requires Inv(s) && Enabled(s, step) && Known(s, j)
    ensures Known(After(s, step), j)
  {
    hide StartingOk, JobComing, WorkersOk;
    var d := After(s, step);
    if j in s.submitting {
      if step == Release(j) {
        assert s.job[s.submitting[j].worker] == j;
        assert s.submitting[j].worker in d.job && d.job[s.submitting[j].worker] == j;
      } else if step == Assign(j) {
        assert j in d.submitting;
      }
    } else if j !in s.ran {
      var w :| w in s.job && s.job[w] == j;
      if step == TakeJob(w) {
        assert d.ran[|s.ran|] == j;
      } else {
        assert w in d.job && d.job[w] == j;
      }
    } else {
      assert step.TakeJob? && step.w in s.job ==> d.ran == s.ran + [s.job[step.w]];
    }
  }

  /**
   * In every interleaving of submitters, workers and timeouts: no job is called twice; a job that has
   * been handed in is still with its submitter, in a worker's hands, under way or delivered; a submitter
   * never overwrites a job, releases a lock that is released, or hands a job to a worker that has exited;
   * and a worker that wakes up finds a job.
   */
  lemma JobsAreSafe(steps: seq<Step>)
    requires Possible(steps)
    ensures var s := Reached(steps);
      && Distinct(s.ran)
      && (forall j :: Begun(steps, j) ==> j in s.starting || j in s.submitting || Handed(s, j) || UnderWay(s, j) || j in s.delivered)
      && (forall j :: Enabled(s, Assign(j)) ==> s.submitting[j].worker !in s.job && s.submitting[j].worker in s.at && s.at[s.submitting[j].worker] != Exited)
      && (forall j :: Enabled(s, Release(j)) ==> s.submitting[j].worker !in s.released && s.submitting[j].worker in s.at && s.at[s.submitting[j].worker] != Exited)
      && (forall w :: Enabled(s, TakeJob(w)) ==> w in s.job)
      && (forall w :: Enabled(s, BecomeIdle(w)) ==> w !in s.idle)
  {
    var s := Reached(steps);
    AlwaysInv(steps);
    forall j | Begun(steps, j) ensures j in s.starting || Known(s, j) {
      NotLost(steps, j);
    }
    SafeNow(s);
  }

  lemma SafeNow(s: State)
    requires Inv(s)
    ensures Distinct(s.ran) && (forall j :: j in s.ran ==> UnderWay(s, j) || j in s.delivered)
    ensures forall j :: Enabled(s, Assign(j)) ==> s.submitting[j].worker !in s.job && s.submitting[j].worker in s.at && s.at[s.submitting[j].worker] != Exited
    ensures forall j :: Enabled(s, Release(j)) ==> s.submitting[j].worker !in s.released && s.submitting[j].worker in s.at && s.at[s.submitting[j].worker] != Exited
    ensures forall w :: Enabled(s, TakeJob(w)) ==> w in s.job
    ensures forall w :: Enabled(s, BecomeIdle(w)) ==> w !in s.idle
  {
    forall w | Enabled(s, BecomeIdle(w)) ensures w !in s.idle {
      BusyAlone(s, w);
    }
  }
}
