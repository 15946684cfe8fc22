/** The steps of single tasks: they are spawned, run, pause and exit. The tree of statuses does not change. */
module CancelTasks {
  import opened Times
  import opened DeadlineHeap
  import opened CancelState
  import opened CancelTree

  /** Two states that differ in nothing but scheduling. */
  ghost predicate SameTree(f: Frame, d: Frame, g: Signals, h: Signals) {
    && d == f.(pauses := d.pauses, batch := d.batch)
    && h.cancelled == g.cancelled && h.cancelCalled == g.cancelCalled && h.registered == g.registered
  }

  lemma SameTreeSound(f: Frame, d: Frame, g: Signals, h: Signals, x: Gaps, woken: set<Task>)
    requires Sound(f, g, x) && WellFormed(d, h) && SameTree(f, d, g, h)
    requires forall t :: t in h.abortFunc && t !in woken ==> t in g.abortFunc
    ensures Sound(d, h, x.(tasks := x.tasks + woken))
  {
    forall z | z !in x.statuses ensures Settled(d, h.cancelled, h.cancelCalled, z) && Housed(d, z) {
      assert Settled(f, g.cancelled, g.cancelCalled, z) && Housed(f, z);
    }
    forall t | t !in x.tasks + woken ensures Delivered(d, h.cancelled, h.abortFunc, t) {
      assert Delivered(f, g.cancelled, g.abortFunc, t);
    }
    forall c | c !in x.scopes ensures UpToDate(d, h.cancelCalled, h.registered, c) {
      assert UpToDate(f, g.cancelCalled, g.registered, c);
    }
  }

  lemma SameTreeSound0(f: Frame, d: Frame, g: Signals, h: Signals, x: Gaps)
    requires Sound(f, g, x) && WellFormed(d, h) && SameTree(f, d, g, h)
    requires forall t :: t in h.abortFunc ==> t in g.abortFunc
    ensures Sound(d, h, x)
  {
    SameTreeSound(f, d, g, h, x, {});
    assert x.tasks + {} == x.tasks;
  }

  lemma SameTreeLinked(f: Frame, d: Frame)
    requires Linked(f) && d == f.(pauses := d.pauses, batch := d.batch)
    requires forall t :: t in f.taskStatus ==> t in d.pauses
    ensures Linked(d)
  {
  }

  /** The parts of well-formedness that scheduling has no part in. */
  lemma SameTreeWellFormed(f: Frame, d: Frame, g: Signals, h: Signals)
    requires WellFormed(f, g) && SameTree(f, d, g, h)
    requires forall t :: t in f.taskStatus ==> t in d.pauses
    requires forall t :: t in h.abortFunc ==> t in g.abortFunc && h.abortFunc[t] == g.abortFunc[t]
    requires QueuedOnce(h.runq, d.batch, h.nextSend.Keys)
    requires Counted(d.pauses, h.queueings, h.nextSend.Keys, h.abortFunc.Keys) && h.abortCalls.Keys == d.pauses.Keys
    ensures WellFormed(d, h)
  {
    SameTreeLinked(f, d);
    assert ScopesOk(d, h.cancelled, h.cancelCalled);
    forall t | t in h.abortFunc && h.abortFunc[t].NurseryExit? ensures InPlace(d, h.abortFunc[t].scope) {
      assert InPlace(f, g.abortFunc[t].scope);
    }
  }

  lemma RescheduledSound(f: Frame, g: Signals, x: Gaps, task: Task, send: Send)
    requires Sound(f, g, x) && task in f.pauses && task !in g.nextSend && task in g.queueings && g.queueings[task] == f.pauses[task]
    ensures Sound(f, Rescheduled(g, task, send), x)
  {
    RescheduledWellFormed(f, g, task, send);
    SameTreeSound0(f, f, g, Rescheduled(g, task, send), x);
  }

  /** The answer of an abort function that was called for another exception than `Cancelled`. */
  function Interrupted(g: Signals, task: Task, result: Abort): Signals
    requires task in g.queueings && task in g.abortCalls
  {
    if result == Succeeded then Rescheduled(Noted(g, task), task, RaiseError) else Noted(g, task)
  }

  lemma InterruptedSound(f: Frame, g: Signals, x: Gaps, task: Task, result: Abort)
    requires Sound(f, g, x) && task in f.pauses && task !in g.nextSend && task in g.queueings && g.queueings[task] == f.pauses[task]
    requires task in g.abortCalls
    ensures Sound(f, Interrupted(g, task, result), x)
    ensures task !in Interrupted(g, task, result).abortFunc && Interrupted(g, task, result).registered == g.registered
  {
    NotedWellFormed(f, g, task);
    SameTreeSound0(f, f, g, Noted(g, task), x);
    if result == Succeeded {
      RescheduledSound(f, Noted(g, task), x, task, RaiseError);
    }
  }

  /**
   * How often the abort function of an interrupted task was called, from `g` by way of `between` to
   * `h`: twice just when the interrupt brought the task's own status under cancellation. It does so when
   * the nursery's scope is one from which cancellation reaches the task, and otherwise only if another
   * scope around the task was cancelled on the way for a reason of its own. Where none of those scopes
   * has a deadline or a nursery's parent waiting to exit, it is known beforehand which of the two it is.
   */
  ghost predicate InterruptCounted(f: Frame, g: Signals, between: Signals, h: Signals, task: Task)
    requires task in g.abortFunc && task in f.taskStatus && task in g.abortCalls
  {
    && task in h.abortCalls
    && h.abortCalls[task] == g.abortCalls[task] + (if ComesUnderCancellation(f, g, h, task) then 2 else 1)
    && (Reenters(f, g, task) ==> ComesUnderCancellation(f, g, h, task))
    && (ComesUnderCancellation(f, g, h, task) && !Reenters(f, g, task) ==>
          g.abortFunc[task].NurseryExit? && CancelledBesides(f, g, between, task, g.abortFunc[task].scope))
    && ((g.abortFunc[task].NurseryExit? ==> !OthersMayCancel(f, g, task, g.abortFunc[task].scope)) ==>
          (ComesUnderCancellation(f, g, h, task) <==> Reenters(f, g, task)))
  }

  ghost predicate ComesUnderCancellation(f: Frame, g: Signals, h: Signals, t: Task) {
    t in f.taskStatus && f.taskStatus[t] !in g.cancelled && f.taskStatus[t] in h.cancelled
  }

  lemma InterruptCalls(f: Frame, g: Signals, between: Signals, task: Task)
    requires Sound(f, g, Gaps({}, {task}, {})) && Sound(f, between, Gaps({}, {task}, {}))
    requires task in g.abortFunc && task in f.taskStatus && task in g.abortCalls
    requires Propagated(f, g, between, {}, {}, Cancels(g.abortFunc[task])) && Spared(f, g, between, {})
    requires Cancels(g.abortFunc[task]) <= between.cancelCalled
    requires g.abortFunc[task].QueueAbort? ==> between == g
    requires task in between.queueings && task in between.abortCalls
    ensures InterruptCounted(f, g, between, Interrupted(between, task, AnswerOf(g.abortFunc[task])), task)
  {
    hide Sound, Propagated, Spared, CancelledBesides, OthersMayCancel, UnshieldedPath;
    CallsCounted(f, g, between, task, Cancels(g.abortFunc[task]));
    if g.abortFunc[task].NurseryExit? {
      var c := g.abortFunc[task].scope;
      assert c in Cancels(g.abortFunc[task]);
      CalledBack(f, g, between, task, c);
      if CancelledBesides(f, g, between, task, c) {
        CancelledBesidesForeseen(f, g, between, task, c);
      }
    }
  }

  lemma SpawnedSound(f: Frame, g: Signals, x: Gaps, task: Task)
    requires Sound(f, g, x) && task !in f.pauses
    ensures Sound(f.(pauses := f.pauses[task := 0]),
      g.(queueings := g.queueings[task := 0], abortCalls := g.abortCalls[task := 0]), x)
    ensures task !in g.nextSend && task !in g.abortFunc && task !in f.taskStatus
  {
    var d, h := f.(pauses := f.pauses[task := 0]), g.(queueings := g.queueings[task := 0], abortCalls := g.abortCalls[task := 0]);
    assert d.pauses.Keys == f.pauses.Keys + {task} && h.queueings.Keys == g.queueings.Keys + {task};
    assert h.abortCalls.Keys == g.abortCalls.Keys + {task};
    SameTreeWellFormed(f, d, g, h);
    SameTreeSound0(f, d, g, h, x);
  }

  lemma ExitedSound(f: Frame, g: Signals, x: Gaps, task: Task)
    requires Sound(f, g, x) && Running(f, g, task) && task !in f.taskStatus
    ensures Sound(f.(pauses := f.pauses - {task}),
      g.(queueings := g.queueings - {task}, abortCalls := g.abortCalls - {task}), x)
  {
    var d, h := f.(pauses := f.pauses - {task}), g.(queueings := g.queueings - {task}, abortCalls := g.abortCalls - {task});
    assert d.pauses.Keys == f.pauses.Keys - {task} && h.queueings.Keys == g.queueings.Keys - {task};
    assert h.abortCalls.Keys == g.abortCalls.Keys - {task};
    SameTreeWellFormed(f, d, g, h);
    SameTreeSound0(f, d, g, h, x);
  }

  /** The running task gives control back. */
  function Paused(f: Frame, task: Task): Frame
    requires task in f.pauses
  {
    f.(pauses := f.pauses[task := f.pauses[task] + 1])
  }

  lemma PausedSound(f: Frame, g: Signals, x: Gaps, task: Task)
    requires Sound(f, g, x) && Running(f, g, task)
    ensures Sound(Paused(f, task), g, x) && g.queueings[task] == Paused(f, task).pauses[task]
  {
    var d := Paused(f, task);
    assert d.pauses.Keys == f.pauses.Keys;
    SameTreeWellFormed(f, d, g, g);
    SameTreeSound0(f, d, g, g, x);
  }

  function Waiting(g: Signals, task: Task, abort: AbortFunc): Signals {
    g.(abortFunc := g.abortFunc[task := abort])
  }

  ghost predicate Callable(f: Frame, abort: AbortFunc) {
    abort.NurseryExit? ==> abort.scope in f.entered && InPlace(f, abort.scope)
  }

  /** A paused task leaves an abort function behind. */
  lemma BlockedSound(f: Frame, g: Signals, x: Gaps, task: Task, abort: AbortFunc)
    requires Sound(f, g, x) && task in f.pauses && task !in g.nextSend && task in g.queueings && g.queueings[task] == f.pauses[task]
    requires Callable(f, abort)
    ensures Sound(f, g.(abortFunc := g.abortFunc[task := abort]), x.(tasks := x.tasks + {task}))
  {
    var h := g.(abortFunc := g.abortFunc[task := abort]);
    assert Counted(f.pauses, h.queueings, h.nextSend.Keys, h.abortFunc.Keys);
    assert WellFormed(f, h);
    SameTreeSound(f, f, g, h, x, {task});
  }

  /** The whole run queue becomes the batch, in some order. */
  lemma BatchSound(f: Frame, g: Signals, x: Gaps, order: seq<Task>)
    requires Sound(f, g, x) && f.batch == [] && multiset(order) == multiset(g.runq)
    ensures Sound(f.(batch := order), g.(runq := []), x)
  {
    forall t | t in order ensures t in g.nextSend {
      assert t in multiset(order);
      assert t in g.runq;
    }
    assert multiset(f.batch) == multiset{};
    assert QueuedOnce([], order, g.nextSend.Keys);
    SameTreeWellFormed(f, f.(batch := order), g, g.(runq := []));
    SameTreeSound0(f, f.(batch := order), g, g.(runq := []), x);
  }

  lemma PoppedSound(f: Frame, g: Signals, x: Gaps)
    requires Sound(f, g, x) && f.batch != []
    ensures var t := f.batch[|f.batch| - 1];
      && t in g.nextSend
      && Sound(f.(batch := f.batch[..|f.batch| - 1]), g.(nextSend := g.nextSend - {t}), x)
      && Running(f.(batch := f.batch[..|f.batch| - 1]), g.(nextSend := g.nextSend - {t}), t)
  {
    var t, rest := f.batch[|f.batch| - 1], f.batch[..|f.batch| - 1];
    var d, h := f.(batch := rest), g.(nextSend := g.nextSend - {t});
    assert f.batch == rest + [t];
    assert multiset(f.batch) == multiset(rest) + multiset{t};
    QueuedApart(g.runq, rest, t, g.nextSend.Keys);
    assert h.nextSend.Keys == g.nextSend.Keys - {t};
    SameTreeWellFormed(f, d, g, h);
    SameTreeSound0(f, d, g, h, x);
  }

  lemma QueuedApart(runq: seq<Task>, rest: seq<Task>, t: Task, scheduled: set<Task>)
    requires QueuedOnce(runq, rest + [t], scheduled)
    ensures t in scheduled && QueuedOnce(runq, rest, scheduled - {t})
  {
    var batch := rest + [t];
    assert multiset(batch) == multiset(rest) + multiset{t};
    assert batch[|rest|] == t && t in batch;
    assert multiset(runq)[t] + multiset(batch)[t] == 1;
    assert t !in multiset(runq) && t !in multiset(rest);
  }
}
