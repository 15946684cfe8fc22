/** Nurseries: which tasks belong to which, and when a nursery is done. */
module NurseryState {
  import opened Options
  import opened Times
  import opened DeadlineHeap
  import opened CancelState
  import opened CancelTree
  import opened CancelTasks

  type Nursery = int

  /** The attributes of all nurseries, and `_parent_nursery` of all tasks. */
  datatype Family = Family(
    parentTask: map<Nursery, Task>,
    scope: map<Nursery, Scope>,
    status: map<Nursery, Status>,
    children: map<Nursery, set<Task>>,
    pendingStarts: map<Nursery, nat>,
    nested: set<Nursery>,               // `_nested_child_running`
    waiting: set<Nursery>,              // `_parent_waiting_in_aexit`
    closed: set<Nursery>,
    home: map<Task, Nursery>,           // `_parent_nursery`
    initTask: Option<Task>,
    calledStarted: set<Nursery>)        // `_called_started`, by the nursery that `start` opened for it

  /** Nothing runs in the nursery, and nothing is about to start in it. */
  predicate Gone(h: Family, n: Nursery)
    requires n in h.children && n in h.pendingStarts
  {
    n !in h.nested && h.children[n] == {} && h.pendingStarts[n] == 0
  }

  ghost predicate SameKeys(h: Family) {
    && h.scope.Keys == h.parentTask.Keys && h.status.Keys == h.parentTask.Keys
    && h.children.Keys == h.parentTask.Keys && h.pendingStarts.Keys == h.parentTask.Keys
    && h.nested <= h.parentTask.Keys && h.waiting <= h.parentTask.Keys && h.closed <= h.parentTask.Keys
  }

  /** Every live task except init is a child of exactly one nursery. */
  ghost predicate AllHoused(h: Family, live: set<Task>) {
    && (forall t :: t in h.home ==> t in live && h.home[t] in h.children && t in h.children[h.home[t]])
    && (forall n, t :: n in h.children && t in h.children[n] ==> t in h.home && h.home[t] == n)
    && (forall t :: t in live ==> t in h.home || h.initTask == Some(t))
  }

  /** A nursery closes at the moment it has nothing left in it; `gap` are those still to be looked at. */
  ghost predicate ClosedInTime(h: Family, gap: set<Nursery>)
    requires SameKeys(h)
  {
    && (forall n :: n in h.closed ==> Gone(h, n) && n !in h.waiting)
    && (forall n :: n in h.parentTask && n !in gap && n !in h.closed ==> !Gone(h, n))
  }

  ghost predicate Anchored(h: Family, f: Frame) {
    forall n :: n in h.status && n in h.scope ==>
      h.status[n] in f.scopeOf && h.scope[n] in f.deadline && h.scope[n] in f.entered
  }

  /** A task parked in `__aexit__` is blocked, and no cancellation will wake it. */
  ghost predicate Parked(h: Family, f: Frame, g: Signals, n: Nursery) {
    n in h.waiting && n in h.parentTask && n in h.scope ==>
      var p := h.parentTask[n];
      && n !in h.nested && p in f.pauses && p in g.queueings && p !in g.nextSend && g.queueings[p] == f.pauses[p]
      && (p in g.abortFunc ==> g.abortFunc[p] == NurseryExit(h.scope[n]))
  }

  ghost predicate Kept(h: Family, f: Frame, g: Signals, gap: set<Nursery>) {
    && SameKeys(h)
    && AllHoused(h, f.pauses.Keys)
    && ClosedInTime(h, gap)
    && Anchored(h, f)
    && (forall n :: Parked(h, f, g, n))
    && (forall m, n :: m in h.waiting && n in h.waiting && h.parentTask[m] == h.parentTask[n] ==> m == n)
  }

  /** Every live task but init is in one nursery, which is open, and in no other. */
  lemma OneOpenNursery(h: Family, f: Frame, g: Signals, t: Task)
    requires Kept(h, f, g, {}) && t in f.pauses && h.initTask != Some(t)
    ensures t in h.home && h.home[t] in h.children && t in h.children[h.home[t]] && h.home[t] !in h.closed
    ensures forall n :: n in h.children && t in h.children[n] ==> n == h.home[t]
  {
    assert h.home[t] in h.closed ==> Gone(h, h.home[t]);
  }

  // ---------- what keeps it ----------

  const NO_FAMILY := Family(map[], map[], map[], map[], map[], {}, {}, {}, map[], None, {})

  lemma NoFamilyKept(f: Frame, g: Signals)
    requires f.pauses == map[]
    ensures Kept(NO_FAMILY, f, g, {})
  {
  }

  /** Propagation of cancellation wakes no parked task. */
  lemma KeptThrough(h: Family, f: Frame, g: Signals, d: Frame, k: Signals, gap: set<Nursery>, origin: set<Scope>)
    requires Kept(h, f, g, gap) && Effects(d, g, k, origin)
    requires d.pauses == f.pauses && f.scopeOf.Keys <= d.scopeOf.Keys && f.deadline.Keys <= d.deadline.Keys && f.entered <= d.entered
    ensures Kept(h, d, k, gap)
  {
    forall n ensures Parked(h, d, k, n) {
      assert Parked(h, f, g, n);
    }
  }

  /** A step after which the same tasks live, and the parked ones are as blocked as before. */
  lemma KeptStep(h: Family, f: Frame, g: Signals, d: Frame, k: Signals)
    requires Kept(h, f, g, {}) && d.pauses.Keys == f.pauses.Keys
    requires f.scopeOf.Keys <= d.scopeOf.Keys && f.deadline.Keys <= d.deadline.Keys && f.entered <= d.entered
    requires forall n :: Parked(h, f, g, n) ==> Parked(h, d, k, n)
    ensures Kept(h, d, k, {})
  {
    hide Parked;
    forall n ensures Parked(h, d, k, n) {
      assert Parked(h, f, g, n);
    }
  }

  lemma PoppedKept(h: Family, f: Frame, g: Signals, d: Frame, k: Signals)
    requires Kept(h, f, g, {}) && d == f.(batch := d.batch) && k == g.(nextSend := k.nextSend, runq := k.runq)
    requires forall t :: t in k.nextSend ==> t in g.nextSend
    ensures Kept(h, d, k, {})
  {
    KeptStep(h, f, g, d, k);
  }

  /** The running task gives control back, and leaves an abort function behind or is queued at once. */
  lemma PausedKept(h: Family, f: Frame, g: Signals, task: Task, abort: AbortFunc, send: Send)
    requires Kept(h, f, g, {}) && Running(f, g, task)
    ensures Kept(h, Paused(f, task), Waiting(g, task, abort), {}) && Kept(h, Paused(f, task), Rescheduled(g, task, send), {})
  {
    RunningNotParked(h, f, g, {}, task);
    var d := Paused(f, task);
    assert d.pauses.Keys == f.pauses.Keys;
    KeptStep(h, f, g, d, Waiting(g, task, abort));
    KeptStep(h, f, g, d, Rescheduled(g, task, send));
  }

  /** A task that is not parked in `__aexit__` is put on the run queue. */
  lemma QueuedKept(h: Family, f: Frame, g: Signals, task: Task, send: Send)
    requires Kept(h, f, g, {}) && task in g.queueings && forall n :: n in h.waiting ==> n in h.parentTask && h.parentTask[n] != task
    ensures Kept(h, f, Rescheduled(g, task, send), {})
  {
    KeptStep(h, f, g, f, Rescheduled(g, task, send));
  }

  /** The interrupt of a task does not wake it if it is parked. */
  lemma InterruptedKept(h: Family, f: Frame, g: Signals, between: Signals, task: Task, origin: set<Scope>)
    requires Kept(h, f, g, {}) && Effects(f, g, between, origin) && task in g.abortFunc
    requires task in between.queueings && task in between.abortCalls
    ensures Kept(h, f, Interrupted(between, task, AnswerOf(g.abortFunc[task])), {})
  {
    hide Effects;
    KeptThrough(h, f, g, f, between, {}, origin);
    forall n ensures Parked(h, f, Interrupted(between, task, AnswerOf(g.abortFunc[task])), n) {
      assert Parked(h, f, g, n) && Parked(h, f, between, n);
    }
    KeptStep(h, f, between, f, Interrupted(between, task, AnswerOf(g.abortFunc[task])));
  }

  lemma KeptKeys(h: Family, f: Frame, g: Signals, gap: set<Nursery>, n: Nursery)
    requires Kept(h, f, g, gap)
    ensures SameKeys(h)
    ensures n in h.parentTask ==> h.status[n] in f.scopeOf && h.scope[n] in f.deadline && h.scope[n] in f.entered
    ensures n in h.closed ==> Gone(h, n) && n !in h.waiting
  {
  }

  lemma HomeKnown(h: Family, f: Frame, g: Signals, task: Task)
    requires Kept(h, f, g, {}) && task in h.home
    ensures h.home[task] in h.parentTask && h.home[task] in h.children && h.home[task] in h.scope && h.home[task] in h.pendingStarts
  {
  }

  /** The task, if it lives, is at least as blocked as before. */
  ghost predicate AsBlocked(f: Frame, g: Signals, d: Frame, k: Signals, p: Task) {
    && (p in f.pauses && p in g.queueings ==> p in d.pauses && p in k.queueings && d.pauses[p] == f.pauses[p] && k.queueings[p] == g.queueings[p])
    && (p in k.nextSend ==> p in g.nextSend || p !in f.pauses)
    && (p in k.abortFunc ==> p in g.abortFunc && k.abortFunc[p] == g.abortFunc[p])
  }

  /** Whoever is parked still was parked before, and has not been touched. */
  lemma ParkedAlike(h: Family, e: Family, f: Frame, g: Signals, d: Frame, k: Signals)
    requires forall n :: Parked(h, f, g, n)
    requires e.waiting <= h.waiting && e.nested <= h.nested + (e.parentTask.Keys - h.waiting)
    requires forall n :: n in e.waiting ==> n in h.parentTask && n in h.scope && n in e.parentTask && n in e.scope
    requires forall n :: n in e.waiting ==> e.parentTask[n] == h.parentTask[n] && e.scope[n] == h.scope[n]
    requires forall n :: n in e.waiting ==> AsBlocked(f, g, d, k, h.parentTask[n])
    ensures forall n :: Parked(e, d, k, n)
  {
    forall n ensures Parked(e, d, k, n) {
      assert Parked(h, f, g, n);
      if n in e.waiting { assert AsBlocked(f, g, d, k, h.parentTask[n]); }
    }
  }

  lemma AnchoredSame(h: Family, e: Family, f: Frame, d: Frame)
    requires Anchored(h, f) && e.status == h.status && e.scope == h.scope
    requires d.scopeOf == f.scopeOf && d.deadline == f.deadline && d.entered == f.entered
    ensures Anchored(e, d)
  {
  }

  lemma ChildHoused(h: Family, live: set<Task>, n: Nursery, task: Task)
    requires SameKeys(h) && AllHoused(h, live) && n in h.children && task !in live
    ensures SameKeys(WithChild(h, n, task)) && AllHoused(WithChild(h, n, task), live + {task})
  {
    assert task !in h.home;
  }

  lemma ChildGone(h: Family, live: set<Task>, task: Task)
    requires SameKeys(h) && AllHoused(h, live) && task in h.home
    ensures h.home[task] in h.children
    ensures SameKeys(WithoutChild(h, h.home[task], task)) && AllHoused(WithoutChild(h, h.home[task], task), live - {task})
  {
  }

  lemma InitHoused(h: Family, live: set<Task>, task: Task)
    requires SameKeys(h) && AllHoused(h, live) && h.initTask == None && task !in live
    ensures SameKeys(h.(initTask := Some(task))) && AllHoused(h.(initTask := Some(task)), live + {task})
  {
  }

  lemma ClosedSame(h: Family, e: Family, gap: set<Nursery>)
    requires SameKeys(h) && SameKeys(e) && ClosedInTime(h, gap)
    requires e.parentTask == h.parentTask && e.children == h.children && e.pendingStarts == h.pendingStarts
    requires e.nested == h.nested && e.closed == h.closed && e.waiting == h.waiting
    ensures ClosedInTime(e, gap)
  {
    forall m | m in e.parentTask ensures Gone(e, m) <==> Gone(h, m) {}
  }

  lemma ChildInTime(h: Family, n: Nursery, task: Task)
    requires SameKeys(h) && ClosedInTime(h, {}) && n in h.children && n !in h.closed
    ensures SameKeys(WithChild(h, n, task)) && ClosedInTime(WithChild(h, n, task), {})
  {
    var e := WithChild(h, n, task);
    forall m | m in e.parentTask && m != n ensures Gone(e, m) <==> Gone(h, m) {}
  }

  lemma GoneInTime(h: Family, n: Nursery, task: Task)
    requires SameKeys(h) && ClosedInTime(h, {}) && n in h.children
    ensures SameKeys(WithoutChild(h, n, task)) && ClosedInTime(WithoutChild(h, n, task), {n})
  {
    var e := WithoutChild(h, n, task);
    forall m | m in e.parentTask && m != n ensures Gone(e, m) <==> Gone(h, m) {}
    assert Gone(h, n) ==> Gone(e, n);
  }

  lemma ParkedLive(h: Family, f: Frame, g: Signals, gap: set<Nursery>)
    requires Kept(h, f, g, gap)
    ensures forall n :: n in h.waiting ==> n in h.parentTask && n in h.scope && h.parentTask[n] in f.pauses
  {
    forall n | n in h.waiting ensures h.parentTask[n] in f.pauses {
      assert Parked(h, f, g, n);
    }
  }

  lemma AsBlockedBeside(f: Frame, g: Signals, d: Frame, k: Signals, task: Task, p: Task)
    requires task !in f.pauses && d.pauses == f.pauses[task := 0]
    requires k.abortFunc == g.abortFunc && k.nextSend == g.nextSend[task := Value] && k.queueings == g.queueings[task := 1]
    requires p in f.pauses
    ensures AsBlocked(f, g, d, k, p)
  {
  }

  lemma AsBlockedWithout(f: Frame, g: Signals, d: Frame, k: Signals, task: Task, p: Task)
    requires d.pauses == f.pauses - {task} && p != task
    requires k.abortFunc == g.abortFunc && k.nextSend == g.nextSend && k.queueings == g.queueings - {task}
    ensures AsBlocked(f, g, d, k, p)
  {
  }

  lemma InitKept(h: Family, f: Frame, g: Signals, d: Frame, k: Signals, task: Task)
    requires Kept(h, f, g, {}) && h.initTask == None && task !in f.pauses
    requires d.pauses == f.pauses[task := 0] && d.scopeOf == f.scopeOf && d.deadline == f.deadline && d.entered == f.entered
    requires k.abortFunc == g.abortFunc && k.nextSend == g.nextSend[task := Value] && k.queueings == g.queueings[task := 1]
    ensures Kept(h.(initTask := Some(task)), d, k, {})
  {
    hide Parked, AsBlocked, Anchored, AllHoused, ClosedInTime;
    var e := h.(initTask := Some(task));
    ParkedLive(h, f, g, {});
    forall m | m in h.waiting ensures AsBlocked(f, g, d, k, h.parentTask[m]) {
      AsBlockedBeside(f, g, d, k, task, h.parentTask[m]);
    }
    assert d.pauses.Keys == f.pauses.Keys + {task};
    InitHoused(h, f.pauses.Keys, task);
    ClosedSame(h, e, {});
    AnchoredSame(h, e, f, d);
    ParkedAlike(h, e, f, g, d, k);
  }

  /** A task that runs is not parked. */
  lemma RunningNotParked(h: Family, f: Frame, g: Signals, gap: set<Nursery>, task: Task)
    requires Kept(h, f, g, gap) && Running(f, g, task)
    ensures forall n :: n in h.waiting ==> h.parentTask[n] != task
  {
    forall n | n in h.waiting ensures h.parentTask[n] != task {
      assert Parked(h, f, g, n);
    }
  }

  function NewNursery(h: Family, n: Nursery, task: Task, c: Scope, s: Status): Family {
    h.(parentTask := h.parentTask[n := task], scope := h.scope[n := c], status := h.status[n := s],
       children := h.children[n := {}], pendingStarts := h.pendingStarts[n := 0], nested := h.nested + {n})
  }

  lemma NewNurseryKept(h: Family, f: Frame, g: Signals, n: Nursery, task: Task, c: Scope, s: Status)
    requires Kept(h, f, g, {}) && n !in h.parentTask && s in f.scopeOf && c in f.deadline && c in f.entered
    ensures Kept(NewNursery(h, n, task, c, s), f, g, {})
  {
    hide Parked, Running;
    var k := NewNursery(h, n, task, c, s);
    NewNurseryHoused(h, f.pauses.Keys, n, task, c, s);
    forall m ensures Parked(k, f, g, m) {
      NewNurseryParked(h, f, g, n, task, c, s, m);
    }
    forall m | m in k.parentTask && m !in k.closed ensures !Gone(k, m) {
      assert m != n ==> !Gone(h, m);
    }
    forall m | m in k.closed ensures Gone(k, m) {
      assert Gone(h, m);
    }
  }

  lemma NewNurseryHoused(h: Family, live: set<Task>, n: Nursery, task: Task, c: Scope, s: Status)
    requires SameKeys(h) && AllHoused(h, live) && n !in h.parentTask
    ensures SameKeys(NewNursery(h, n, task, c, s)) && AllHoused(NewNursery(h, n, task, c, s), live)
  {
  }

  lemma NewNurseryParked(h: Family, f: Frame, g: Signals, n: Nursery, task: Task, c: Scope, s: Status, m: Nursery)
    requires SameKeys(h) && n !in h.parentTask && Parked(h, f, g, m)
    ensures Parked(NewNursery(h, n, task, c, s), f, g, m)
  {
  }

  function WithChild(h: Family, n: Nursery, task: Task): Family
    requires n in h.children
  {
    h.(children := h.children[n := h.children[n] + {task}], home := h.home[task := n])
  }

  lemma WithChildKept(h: Family, f: Frame, g: Signals, d: Frame, k: Signals, n: Nursery, task: Task)
    requires Kept(h, f, g, {}) && n in h.children && n !in h.closed && task !in f.pauses
    requires d.pauses == f.pauses[task := 0] && d.scopeOf == f.scopeOf && d.deadline == f.deadline && d.entered == f.entered
    requires k.abortFunc == g.abortFunc && k.nextSend == g.nextSend[task := Value] && k.queueings == g.queueings[task := 1]
    ensures Kept(WithChild(h, n, task), d, k, {})
  {
    hide Parked, AsBlocked, Anchored, AllHoused, ClosedInTime;
    var e := WithChild(h, n, task);
    ChildHoused(h, f.pauses.Keys, n, task);
    assert d.pauses.Keys == f.pauses.Keys + {task};
    AnchoredSame(h, e, f, d);
    ParkedLive(h, f, g, {});
    forall m | m in h.waiting ensures AsBlocked(f, g, d, k, h.parentTask[m]) {
      AsBlockedBeside(f, g, d, k, task, h.parentTask[m]);
    }
    ParkedAlike(h, e, f, g, d, k);
    ChildInTime(h, n, task);
  }

  function WithoutChild(h: Family, n: Nursery, task: Task): Family
    requires n in h.children
  {
    h.(children := h.children[n := h.children[n] - {task}], home := h.home - {task})
  }

  lemma WithoutChildKept(h: Family, f: Frame, g: Signals, d: Frame, k: Signals, task: Task)
    requires Kept(h, f, g, {}) && Running(f, g, task) && task in h.home
    requires d.pauses == f.pauses - {task} && d.scopeOf == f.scopeOf && d.deadline == f.deadline && d.entered == f.entered
    requires k.abortFunc == g.abortFunc && k.nextSend == g.nextSend && k.queueings == g.queueings - {task}
    ensures h.home[task] in h.children && Kept(WithoutChild(h, h.home[task], task), d, k, {h.home[task]})
  {
    hide Parked, AsBlocked, Anchored, AllHoused, ClosedInTime;
    ChildGone(h, f.pauses.Keys, task);
    var n := h.home[task];
    var e := WithoutChild(h, n, task);
    RunningNotParked(h, f, g, {}, task);
    assert d.pauses.Keys == f.pauses.Keys - {task};
    AnchoredSame(h, e, f, d);
    forall m | m in h.waiting ensures AsBlocked(f, g, d, k, h.parentTask[m]) {
      AsBlockedWithout(f, g, d, k, task, h.parentTask[m]);
    }
    ParkedAlike(h, e, f, g, d, k);
    GoneInTime(h, n, task);
  }

  /** Something has gone from one nursery, other than a child. */
  lemma LessInside(h: Family, e: Family, f: Frame, g: Signals, n: Nursery)
    requires Kept(h, f, g, {}) && n in h.parentTask
    requires e == h.(nested := e.nested, pendingStarts := e.pendingStarts)
    requires e.nested == h.nested || e.nested == h.nested - {n}
    requires e.pendingStarts.Keys == h.pendingStarts.Keys && e.pendingStarts[n] <= h.pendingStarts[n]
    requires forall m :: m in h.pendingStarts && m != n ==> e.pendingStarts[m] == h.pendingStarts[m]
    ensures Kept(e, f, g, {n})
  {
    hide Parked, Anchored, AllHoused, ClosedInTime;
    LessClosed(h, e, n);
    AnchoredSame(h, e, f, f);
    HousedSame(h, e, f.pauses.Keys);
    ParkedAlike(h, e, f, g, f, g);
  }

  lemma LessClosed(h: Family, e: Family, n: Nursery)
    requires SameKeys(h) && ClosedInTime(h, {}) && n in h.parentTask
    requires e == h.(nested := e.nested, pendingStarts := e.pendingStarts)
    requires e.nested == h.nested || e.nested == h.nested - {n}
    requires e.pendingStarts.Keys == h.pendingStarts.Keys && e.pendingStarts[n] <= h.pendingStarts[n]
    requires forall m :: m in h.pendingStarts && m != n ==> e.pendingStarts[m] == h.pendingStarts[m]
    ensures SameKeys(e) && ClosedInTime(e, {n})
  {
    forall m | m in e.parentTask && m != n ensures Gone(e, m) <==> Gone(h, m) {}
    assert Gone(h, n) ==> Gone(e, n);
  }

  /** One more pending start keeps an open nursery open. */
  lemma MorePending(h: Family, f: Frame, g: Signals, n: Nursery)
    requires Kept(h, f, g, {}) && n in h.pendingStarts && n !in h.closed
    ensures Kept(h.(pendingStarts := h.pendingStarts[n := h.pendingStarts[n] + 1]), f, g, {})
  {
    hide Parked, Anchored, AllHoused, ClosedInTime;
    var e := h.(pendingStarts := h.pendingStarts[n := h.pendingStarts[n] + 1]);
    MoreOpen(h, n);
    AnchoredSame(h, e, f, f);
    HousedSame(h, e, f.pauses.Keys);
    ParkedAlike(h, e, f, g, f, g);
  }

  lemma MoreOpen(h: Family, n: Nursery)
    requires SameKeys(h) && ClosedInTime(h, {}) && n in h.pendingStarts && n !in h.closed
    ensures var e := h.(pendingStarts := h.pendingStarts[n := h.pendingStarts[n] + 1]);
      SameKeys(e) && ClosedInTime(e, {})
  {
    var e := h.(pendingStarts := h.pendingStarts[n := h.pendingStarts[n] + 1]);
    forall m | m in e.parentTask && m != n ensures Gone(e, m) <==> Gone(h, m) {}
  }

  /** A nursery closes, and its parked parent, if any, is put on the run queue. */
  lemma ClosedKept(h: Family, f: Frame, g: Signals, n: Nursery)
    requires Kept(h, f, g, {n}) && n in h.parentTask
    ensures SameKeys(h)
    ensures !Gone(h, n) ==> Kept(h, f, g, {})
    ensures Gone(h, n) && n !in h.waiting ==> Kept(h.(closed := h.closed + {n}), f, g, {})
    ensures Gone(h, n) && n in h.waiting ==>
      var p := h.parentTask[n];
      && p in f.pauses && p in g.queueings && p !in g.nextSend && g.queueings[p] == f.pauses[p]
      && Kept(h.(closed := h.closed + {n}, waiting := h.waiting - {n}), f, Rescheduled(g, p, Value), {})
  {
    hide Anchored, AllHoused, ClosedInTime, Parked, AsBlocked;
    ClosedNow(h, n);
    if Gone(h, n) {
      var e := h.(closed := h.closed + {n}, waiting := h.waiting - {n});
      AnchoredSame(h, e, f, f);
      HousedSame(h, e, f.pauses.Keys);
      ParkedLive(h, f, g, {n});
      if n in h.waiting {
        ParkedBlocked(h, f, g, n);
        var p := h.parentTask[n];
        forall m | m in e.waiting ensures AsBlocked(f, g, f, Rescheduled(g, p, Value), h.parentTask[m]) {
          AsBlockedElsewhere(f, g, p, h.parentTask[m]);
        }
        ParkedAlike(h, e, f, g, f, Rescheduled(g, p, Value));
      } else {
        assert h.waiting - {n} == h.waiting;
        forall m | m in e.waiting ensures AsBlocked(f, g, f, g, h.parentTask[m]) {
          AsBlockedStill(f, g, h.parentTask[m]);
        }
        ParkedAlike(h, e, f, g, f, g);
      }
    }
  }

  lemma ClosedNow(h: Family, n: Nursery)
    requires SameKeys(h) && ClosedInTime(h, {n}) && n in h.parentTask
    ensures !Gone(h, n) ==> ClosedInTime(h, {})
    ensures Gone(h, n) ==> var e := h.(closed := h.closed + {n}, waiting := h.waiting - {n}); SameKeys(e) && ClosedInTime(e, {})
  {
    var e := h.(closed := h.closed + {n}, waiting := h.waiting - {n});
    forall m | m in h.parentTask ensures Gone(e, m) <==> Gone(h, m) {}
  }

  lemma ParkedBlocked(h: Family, f: Frame, g: Signals, n: Nursery)
    requires Parked(h, f, g, n) && n in h.waiting && n in h.parentTask && n in h.scope
    ensures var p := h.parentTask[n];
      p in f.pauses && p in g.queueings && p !in g.nextSend && g.queueings[p] == f.pauses[p]
  {
  }

  lemma AsBlockedElsewhere(f: Frame, g: Signals, task: Task, p: Task)
    requires task in g.queueings && p != task
    ensures AsBlocked(f, g, f, Rescheduled(g, task, Value), p)
  {
  }

  lemma AsBlockedStill(f: Frame, g: Signals, p: Task)
    ensures AsBlocked(f, g, f, g, p)
  {
  }

  /** The parent parks in `__aexit__`. */
  lemma ParkedKept(h: Family, f: Frame, g: Signals, task: Task, n: Nursery)
    requires Kept(h, f, g, {}) && Running(f, g, task) && n in h.parentTask && h.parentTask[n] == task
    requires n !in h.closed && n !in h.nested && n in h.scope
    ensures Kept(h.(waiting := h.waiting + {n}), Paused(f, task), Waiting(g, task, NurseryExit(h.scope[n])), {})
  {
    hide Parked, Anchored, AllHoused, Running;
    RunningNotBlocked(f, g, task);
    var e, d, k := h.(waiting := h.waiting + {n}), Paused(f, task), Waiting(g, task, NurseryExit(h.scope[n]));
    RunningNotParked(h, f, g, {}, task);
    AnchoredSame(h, e, f, d);
    forall m ensures Parked(e, d, k, m) {
      ParksAlso(h, f, g, task, n, m);
    }
    forall m | m in e.closed ensures Gone(e, m) {
      assert Gone(h, m);
    }
    forall m | m in e.parentTask && m !in e.closed ensures !Gone(e, m) {
      assert !Gone(h, m);
    }
    assert d.pauses.Keys == f.pauses.Keys;
    HousedSame(h, e, f.pauses.Keys);
  }

  lemma ParksAlso(h: Family, f: Frame, g: Signals, task: Task, n: Nursery, m: Nursery)
    requires SameKeys(h) && Running(f, g, task) && n in h.parentTask && h.parentTask[n] == task && n !in h.nested && n in h.scope
    requires Parked(h, f, g, m) && (m in h.waiting && m in h.parentTask ==> h.parentTask[m] != task)
    ensures Parked(h.(waiting := h.waiting + {n}), Paused(f, task), Waiting(g, task, NurseryExit(h.scope[n])), m)
  {
  }

  lemma HousedSame(h: Family, e: Family, live: set<Task>)
    requires AllHoused(h, live) && e.home == h.home && e.children == h.children && e.initTask == h.initTask
    ensures AllHoused(e, live)
  {
  }

  lemma CalledStartedKept(h: Family, f: Frame, g: Signals, called: set<Nursery>)
    requires Kept(h, f, g, {})
    ensures Kept(h.(calledStarted := called), f, g, {})
  {
    hide Parked;
    var e := h.(calledStarted := called);
    ParkedAlike(h, e, f, g, f, g);
    forall m | m in e.closed ensures Gone(e, m) {
      assert Gone(h, m);
    }
    forall m | m in e.parentTask && m !in e.closed ensures !Gone(e, m) {
      assert !Gone(h, m);
    }
  }

  /** All children of one nursery become children of another. */
  function Adopted(h: Family, from: Nursery, to: Nursery): Family
    requires from in h.children && to in h.children
  {
    h.(children := h.children[from := {}][to := h.children[to] + h.children[from]],
       home := h.home + map t | t in h.children[from] :: to)
  }

  lemma AdoptedHoused(h: Family, live: set<Task>, from: Nursery, to: Nursery)
    requires AllHoused(h, live) && from in h.children && to in h.children && from != to
    ensures AllHoused(Adopted(h, from, to), live)
  {
  }

  lemma AdoptedKept(h: Family, f: Frame, g: Signals, from: Nursery, to: Nursery)
    requires Kept(h, f, g, {}) && from in h.children && to in h.children && from != to && to !in h.closed
    ensures Kept(Adopted(h, from, to), f, g, {from})
  {
    hide Parked, Anchored;
    var e := Adopted(h, from, to);
    AdoptedHoused(h, f.pauses.Keys, from, to);
    AnchoredSame(h, e, f, f);
    ParkedAlike(h, e, f, g, f, g);
    forall m | m in e.closed ensures Gone(e, m) {
      assert Gone(h, m);
    }
    forall m | m in e.parentTask && m != from && m !in e.closed ensures !Gone(e, m) {
      assert !Gone(h, m);
    }
  }
}
