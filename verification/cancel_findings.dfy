/** Runs of the program, from its start, in which two promises about cancellation are not kept. */
module CancelFindings {
  import opened Options
  import opened Times
  import opened Exceptions
  import opened DeadlineHeap
  import opened CancelState
  import opened CancelTree
  import opened CancelTasks
  import opened CancelScopes
  import opened CancelMeaning
  import opened NurseryState
  import opened Nurseries

  const INIT: Task := 0
  const MAIN: Task := 1
  const CHILD: Task := 2

  /** No scope was cancelled, and none will be by its deadline. */
  ghost predicate Quiet(f: Frame, g: Signals) {
    f.closed == {} && g.cancelCalled == {} && g.cancelled == {} && forall c :: c in f.deadline ==> f.deadline[c] == Inf
  }

  lemma {:induction false} NothingReached(f: Frame, cancelled: set<Status>, s: Status)
    requires f.closed == {}
    ensures !Reached(f, cancelled, {}, s)
    decreases s
  {
    if Exposed(f, s) {
      NothingReached(f, cancelled, f.parent[s]);
    }
  }

  /** Where nothing was cancelled, nothing is cancelled without a cause, and nobody is woken. */
  lemma QuietStays(f: Frame, g: Signals, h: Signals)
    requires Sound(f, h, NO_GAPS) && Effects(f, g, h, {}) && f.closed == {} && g.cancelCalled == {}
    requires forall c :: c in f.deadline ==> f.deadline[c] == Inf
    ensures Quiet(f, h)
    ensures h.abortFunc == g.abortFunc && h.nextSend == g.nextSend && h.queueings == g.queueings && h.abortCalls == g.abortCalls
  {
    hide Sound, Reached;
    assert Founded(f, g, h, h.cancelCalled, {});
    if h.cancelCalled != {} {
      var c :| c in h.cancelCalled && Reason(f, g, h, c, h.cancelCalled, {});
      var t :| ToldToExit(f, g, h, t, c, h.cancelCalled);
      assert h.cancelCalled - h.cancelCalled == {};
      NothingReached(f, h.cancelled, f.taskStatus[t]);
    }
    assert h.cancelCalled == {};
    forall s ensures s !in h.cancelled {
      if s in h.cancelled {
        CancelledKnown(f, h, s);
        SoundReached(f, h, NO_GAPS, s);
        NothingReached(f, h.cancelled, s);
      }
    }
    SameWhenNoneIsTold(g, h);
  }

  lemma CancelledKnown(f: Frame, g: Signals, s: Status)
    requires Sound(f, g, NO_GAPS) && s in g.cancelled
    ensures s in f.scopeOf
  {
  }

  lemma SameWhenNoneIsTold(g: Signals, h: Signals)
    requires Woken(g, h) && forall t :: t in g.abortFunc ==> t in h.abortFunc
    ensures h.abortFunc == g.abortFunc && h.nextSend == g.nextSend && h.queueings == g.queueings && h.abortCalls == g.abortCalls
  {
    forall t | t in g.abortCalls ensures h.abortCalls[t] == g.abortCalls[t] {
      assert CalledOnce(g, h, t);
    }
    SameOf(g.abortFunc, h.abortFunc);
    SameOf(h.nextSend, g.nextSend);
    SameOf(g.abortCalls, h.abortCalls);
    SameOf(g.queueings, h.queueings);
  }

  lemma SameOf<V>(m: map<Task, V>, n: map<Task, V>)
    requires forall t: Task :: t in m ==> t in n
    requires forall t: Task :: t in n ==> t in m && n[t] == m[t]
    ensures m == n
  {
    forall t: Task | t in n ensures t in m && n[t] == m[t] {}
    forall t: Task | t in m ensures t in n {}
  }

  lemma FirstScheduled(runq: seq<Task>, batch: seq<Task>, scheduled: set<Task>)
    requires QueuedOnce(runq, batch, scheduled)
    ensures runq != [] ==> runq[0] in scheduled
  {
    if runq != [] {
      var t := runq[0];
      assert t in runq;
    }
  }

  lemma NobodyQueued(f: Frame, g: Signals)
    requires Sound(f, g, NO_GAPS) && g.nextSend == map[]
    ensures g.runq == []
  {
    assert QueuedOnce(g.runq, f.batch, g.nextSend.Keys);
    FirstScheduled(g.runq, f.batch, g.nextSend.Keys);
  }

  /** The init task runs and has opened a nursery. */
  ghost predicate InitRuns(f: Frame, g: Signals, h: Family) {
    && Quiet(f, g) && f.deadline == map[0 := Inf] && f.nextStatus == 1 && f.batch == [] && f.statusOf == map[0 := 0] && f.shielded == {}
    && f.taskStatus == map[INIT := 0] && f.parent == map[] && f.pauses == map[INIT := 0]
    && g.nextSend == map[] && g.abortCalls == map[INIT := 0] && g.runq == []
    && h == NewNursery(NO_FAMILY.(initTask := Some(INIT)), 0, INIT, 0, 0)
  }

  method StartInit() returns (r: NurseryRunner)
    ensures fresh(r) && fresh(r.runner) && fresh(r.runner.deadlines) && r.Valid()
    ensures Running(r.runner.frame, r.runner.signals, INIT) && InitRuns(r.runner.frame, r.runner.signals, r.family)
  {
    hide WellFormed, HeapOk, Sound, Kept, Effects;
    r := new NurseryRunner(0.0);
    r.SpawnInit(INIT);
    r.StartBatch([INIT]);
    var task, send := r.PopTask();
    ghost var g := r.runner.signals;
    r.OpenNursery(INIT, 0, 0);
    QuietStays(r.runner.frame, g, r.runner.signals);
    NobodyQueued(r.runner.frame, r.runner.signals);
  }

  /** The init task has started the main task in its nursery. */
  ghost predicate MainSpawned(f: Frame, g: Signals, h: Family) {
    && Quiet(f, g) && f.deadline == map[0 := Inf] && f.nextStatus == 1 && f.batch == [] && f.statusOf == map[0 := 0] && f.shielded == {}
    && f.taskStatus == map[INIT := 0, MAIN := 0] && f.parent == map[] && f.pauses == map[INIT := 0, MAIN := 0]
    && g.nextSend == map[MAIN := Value] && g.abortCalls == map[INIT := 0, MAIN := 0] && g.runq == [MAIN]
    && h == WithChild(NewNursery(NO_FAMILY.(initTask := Some(INIT)), 0, INIT, 0, 0), 0, MAIN)
  }

  method StartSpawned() returns (r: NurseryRunner)
    ensures fresh(r) && fresh(r.runner) && fresh(r.runner.deadlines) && r.Valid()
    ensures Running(r.runner.frame, r.runner.signals, INIT) && MainSpawned(r.runner.frame, r.runner.signals, r.family)
  {
    hide WellFormed, HeapOk, Sound, Kept, Effects;
    r := StartInit();
    var ok := r.SpawnImpl(0, MAIN);
  }

  /** The init task waits for its nursery. */
  ghost predicate InitWaits(f: Frame, g: Signals, h: Family) {
    && Quiet(f, g) && f.deadline == map[0 := Inf] && f.nextStatus == 1 && f.batch == [] && f.statusOf == map[0 := 0] && f.shielded == {}
    && f.taskStatus == map[INIT := 0, MAIN := 0] && f.parent == map[] && f.pauses == map[INIT := 1, MAIN := 0]
    && g.nextSend == map[MAIN := Value] && g.abortCalls == map[INIT := 0, MAIN := 0] && g.runq == [MAIN]
    && h.parentTask == map[0 := INIT] && h.closed == {}
  }

  method StartWaiting() returns (r: NurseryRunner)
    ensures fresh(r) && fresh(r.runner) && fresh(r.runner.deadlines) && r.Valid()
    ensures InitWaits(r.runner.frame, r.runner.signals, r.family)
  {
    hide WellFormed, HeapOk, Sound, Kept, Effects;
    r := StartSpawned();
    var parked, asleep := r.NestedChildFinished(INIT, 0, None);
  }

  /** The init task waits, and the main task, in the same status 0, runs for the first time. */
  ghost predicate MainRuns(f: Frame, g: Signals, h: Family) {
    && Quiet(f, g) && f.deadline == map[0 := Inf] && f.nextStatus == 1 && f.statusOf == map[0 := 0] && f.shielded == {}
    && f.taskStatus == map[INIT := 0, MAIN := 0] && f.parent == map[] && f.pauses == map[INIT := 1, MAIN := 0]
    && g.nextSend == map[] && g.abortCalls == map[INIT := 0, MAIN := 0]
    && h.parentTask == map[0 := INIT] && h.closed == {}
  }

  method StartMain() returns (r: NurseryRunner)
    ensures fresh(r) && fresh(r.runner) && fresh(r.runner.deadlines) && r.Valid()
    ensures Running(r.runner.frame, r.runner.signals, MAIN) && MainRuns(r.runner.frame, r.runner.signals, r.family)
  {
    hide WellFormed, HeapOk, Sound, Kept, Effects;
    r := StartWaiting();
    r.StartBatch([MAIN]);
    var task, send := r.PopTask();
  }

  /** The main task is in the status 1 of the scope of its own nursery, and nothing was cancelled. */
  ghost predicate MainInside(f: Frame, g: Signals, h: Family) {
    && Quiet(f, g) && f.deadline == map[0 := Inf, 1 := Inf] && f.statusOf == map[0 := 0, 1 := 1]
    && f.taskStatus == map[INIT := 0, MAIN := 1] && f.parent == map[1 := 0] && f.pauses == map[INIT := 1, MAIN := 0]
    && g.abortCalls == map[INIT := 0, MAIN := 0] && 1 in h.parentTask && h.parentTask[1] == MAIN && h.closed == {}
    && 1 in h.nested && 1 in h.scope && h.scope[1] == 1 && 1 in h.status && h.status[1] == 1 && 1 in h.children && h.children[1] == {}
  }

  lemma NurseryOpened(f: Frame, g: Signals, h: Family, d: Frame, k: Signals, e: Family)
    requires MainRuns(f, g, h) && Sound(d, k, NO_GAPS) && Effects(d, g, k, {})
    requires HasEntered(WithNewScope(f, 1), d, MAIN, 1)
    requires e == NewNursery(h, 1, MAIN, 1, f.nextStatus)
    ensures MainInside(d, k, e)
  {
    hide Sound, Effects;
    QuietStays(d, g, k);
  }

  method OpenInMain() returns (r: NurseryRunner)
    ensures fresh(r) && fresh(r.runner) && fresh(r.runner.deadlines) && r.Valid()
    ensures Running(r.runner.frame, r.runner.signals, MAIN) && MainInside(r.runner.frame, r.runner.signals, r.family)
  {
    hide WellFormed, HeapOk, Sound, Kept, Effects, HasEntered, MainInside, Quiet;
    r := StartMain();
    ghost var f, g, h := r.runner.frame, r.runner.signals, r.family;
    r.OpenNursery(MAIN, 1, 1);
    NurseryOpened(f, g, h, r.runner.frame, r.runner.signals, r.family);
  }

  /**
   * The main task waits in a nursery's `__aexit__`, and KeyboardInterrupt arrives: in one blocking call
   * its abort function is called twice.
   */
  method AbortedTwice() returns (r: NurseryRunner)
    ensures r.Valid() && MAIN in r.runner.frame.pauses && r.runner.frame.pauses[MAIN] == 1
    ensures MAIN in r.runner.signals.abortCalls && r.runner.signals.abortCalls[MAIN] == 2
  {
    hide WellFormed, HeapOk, Sound, Kept, Effects;
    r := OpenInMain();
    var ok := r.SpawnImpl(1, CHILD);
    var parked, asleep := r.NestedChildFinished(MAIN, 1, None);
    ghost var f, g := r.runner.frame, r.runner.signals;
    assert UnshieldedPath(f, 1)[0] == 1;
    assert Reenters(f, g, MAIN);
    ghost var between := r.Interrupt(MAIN);
  }

  /** A status that no task and no child refers to is empty. */
  lemma EmptyStatus(f: Frame, g: Signals, s: Status)
    requires Sound(f, g, NO_GAPS) && s in f.members && s in f.children
    requires forall t :: t in f.taskStatus ==> f.taskStatus[t] != s
    requires forall c :: c in f.parent ==> f.parent[c] != s
    ensures f.members[s] == {} && f.children[s] == {}
  {
    forall t ensures t !in f.members[s] {
      assert t in f.members[s] ==> t in f.taskStatus;
    }
    forall c ensures c !in f.children[s] {
      assert c in f.children[s] ==> c in f.parent;
    }
  }

  /** A scope is exited that nobody else is in. */
  lemma LeftEmpty(f: Frame, g: Signals, d: Frame, k: Signals, task: Task, c: Scope, rest: Option<Exc>)
    requires HasClosed(f, g, d, k, task, c, None, rest) && Sound(d, k, NO_GAPS)
    requires task in f.taskStatus && c in f.statusOf && f.taskStatus[task] == f.statusOf[c] && f.statusOf[c] in f.parent
    requires f.parent[f.statusOf[c]] != f.statusOf[c]
    requires forall t :: t in f.taskStatus && t != task ==> f.taskStatus[t] != f.statusOf[c]
    requires forall z :: z in f.parent ==> f.parent[z] != f.statusOf[c]
    ensures var s := f.statusOf[c];
      && d == f.(statusOf := f.statusOf - {c}, closed := f.closed + {s}, parent := f.parent - {s},
                 taskStatus := f.taskStatus[task := f.parent[s]], members := d.members, children := d.children)
      && k == g.(registered := k.registered)
  {
    hide Sound, Catches, Encloses;
    var s := f.statusOf[c];
    assert Exit(f, task, c) == Nested;
    EmptyStatus(d, k, s);
  }

  lemma NothingRegistered(f: Frame, g: Signals)
    requires Sound(f, g, NO_GAPS) && forall c :: c in f.statusOf ==> c in f.deadline && f.deadline[c] == Inf
    ensures forall now :: Due(g.registered, now) == {}
  {
    forall c ensures c !in g.registered {
      assert c in g.registered ==> c in f.deadline;
      assert UpToDate(f, g.cancelCalled, g.registered, c);
    }
  }

  /** The scope of nursery 1 was exited, and its status left the tree. */
  ghost predicate Exited(f: Frame, g: Signals, h: Family) {
    && f.closed == {1} && g.cancelled == {} && f.parent == map[] && 1 in f.scopeOf && f.scopeOf[1] == 1
    && f.deadline == map[0 := Inf, 1 := At(5.0)] && f.statusOf == map[0 := 0]
    && CHILD !in f.pauses && 1 in h.parentTask && 1 in h.status && h.status[1] == 1 && 1 !in h.closed
  }

  lemma ExitedNow(f: Frame, g: Signals, h: Family, d: Frame, k: Signals, rest: Option<Exc>)
    requires MainInside(f.(deadline := f.deadline[1 := Inf]), g.(registered := map[]), h) && f.deadline == map[0 := Inf, 1 := At(5.0)]
    requires HasClosed(f, g, d, k, MAIN, 1, None, rest) && Sound(f, g, NO_GAPS) && Sound(d, k, NO_GAPS)
    ensures Exited(d, k, h)
  {
    hide Sound, HasClosed, WellFormed;
    SoundWellFormed(f, g, NO_GAPS);
    StatusInPlace(f, g, 1);
    LeftEmpty(f, g, d, k, MAIN, 1, rest);
  }

  /** A nursery's scope is given a deadline, and is exited while nothing is in it. */
  method ScopeExited() returns (r: NurseryRunner)
    ensures fresh(r) && fresh(r.runner) && fresh(r.runner.deadlines) && r.Valid()
    ensures Exited(r.runner.frame, r.runner.signals, r.family)
  {
    hide WellFormed, HeapOk, Sound, Kept, Effects, HasClosed, Exited;
    r := OpenInMain();
    r.SetDeadline(1, At(5.0));
    ghost var f, g := r.runner.frame, r.runner.signals;
    var rest := r.CloseScope(MAIN, 1, None);
    ExitedNow(f, g, r.family, r.runner.frame, r.runner.signals, rest);
  }

  /** An effective deadline that is past and did not cancel. */
  ghost predicate LateNotCancelled(f: Frame, g: Signals, now: real, s: Status) {
    && Due(g.registered, now) == {} && s !in g.cancelled
    && Le(EffectiveDeadline(f, g, s), At(now)) && PastItsScope(f, g, now, s)
  }

  /**
   * A nursery's scope has a deadline; the scope is exited while nothing is in it, and then a task is
   * started in the nursery. Its effective deadline passes, but it is not cancelled.
   */
  method LateButNotCancelled() returns (r: NurseryRunner)
    ensures r.Valid() && CHILD in r.runner.frame.taskStatus
    ensures LateNotCancelled(r.runner.frame, r.runner.signals, 10.0, r.runner.frame.taskStatus[CHILD])
  {
    hide WellFormed, HeapOk, Sound, Kept, Effects, Exited, HasSpawned, LateNotCancelled;
    r := ScopeExited();
    ghost var f, g, h := r.runner.frame, r.runner.signals, r.family;
    ExitedOpen(f, g, h);
    var ok := r.SpawnImpl(1, CHILD);
    SpawnedLate(f, g, h, r.runner.frame, r.runner.signals);
    var some := r.Expire(10.0);
  }

  lemma ExitedOpen(f: Frame, g: Signals, h: Family)
    requires Exited(f, g, h)
    ensures CHILD !in f.pauses && 1 in h.parentTask && 1 in h.status && h.status[1] == 1 && 1 !in h.closed
  {
  }

  lemma SpawnedLate(f: Frame, g: Signals, h: Family, d: Frame, k: Signals)
    requires Exited(f, g, h) && HasSpawned(f, g, d, k, CHILD, Some(1)) && Sound(d, k, NO_GAPS)
    ensures CHILD in d.taskStatus && d.taskStatus[CHILD] == 1 && Due(k.registered, 10.0) == {}
    ensures LateNotCancelled(d, k, 10.0, 1)
  {
    hide Sound;
    NothingRegistered(d, k);
  }
}
