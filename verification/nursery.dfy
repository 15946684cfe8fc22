/** The life of nurseries: `Nursery`, `_TaskStatus.started`, `spawn_impl` and `task_exited` of `trio/_core/_run.py`. */
module Nurseries {
  import opened Collections
  import opened Options
  import opened Times
  import opened Exceptions
  import opened DeadlineHeap
  import opened CancelState
  import opened CancelTree
  import opened CancelTasks
  import opened CancelScopes
  import opened NurseryState

  datatype StartedResult = Moved | QuietlyQuit | CalledTwice | NewNurseryClosed

  class NurseryRunner {
    const runner: Runner
    var family: Family

    constructor (now: real)
      ensures Valid() && fresh(runner) && fresh(runner.deadlines)
      ensures runner.frame == NO_FRAME && runner.signals == NoSignals(now) && family == NO_FAMILY
    {
      runner := new Runner(now);
      family := NO_FAMILY;
      new;
      hide WellFormed, HeapOk, Sound, Kept;
      EmptySound(runner.frame, runner.signals);
      NoFamilyKept(runner.frame, runner.signals);
    }

    ghost predicate Valid()
      reads this, runner, runner.deadlines
    {
      runner.Valid() && Kept(family, runner.frame, runner.signals, {})
    }

    /** `NurseryManager.__aenter__`, with a new cancel scope. */
    method OpenNursery(task: Task, c: Scope, n: Nursery)
      requires Valid() && Running(runner.frame, runner.signals, task)
      requires c !in runner.frame.deadline && n !in family.parentTask
      modifies this, runner, runner.deadlines
      ensures Valid() && Running(runner.frame, runner.signals, task)
      ensures family == NewNursery(old(family), n, task, c, old(runner.frame.nextStatus))
      ensures Effects(runner.frame, old(runner.signals), runner.signals, {})
      ensures HasEntered(WithNewScope(old(runner.frame), c), runner.frame, task, c)
    {
      hide WellFormed, HeapOk, Sound, Effects, Kept;
      ghost var f, g := runner.frame, runner.signals;
      SoundWellFormed(f, g, NO_GAPS);
      NotKnown(f, g, c);
      runner.NewScope(c, Inf, false);
      var ok := runner.Enter(task, c);
      var s := runner.frame.taskStatus[task];
      NotCancelledAtOnce(f, g, runner.frame, runner.signals, c);
      KeptThrough(family, f, g, runner.frame, runner.signals, {}, {});
      NewNurseryKept(family, runner.frame, runner.signals, n, task, c, s);
      family := NewNursery(family, n, task, c, s);
    }

    /** `spawn_impl`; false is "Nursery is closed to new arrivals". */
    method SpawnImpl(n: Nursery, task: Task) returns (ok: bool)
      requires Valid() && n in family.parentTask && task !in runner.frame.pauses
      modifies this, runner, runner.deadlines
      ensures Valid() && ok == (n !in old(family.closed))
      ensures !ok ==> family == old(family) && runner.frame == old(runner.frame) && runner.signals == old(runner.signals)
      ensures ok ==> n in old(family.children) && family == WithChild(old(family), n, task)
      ensures n in old(family.status)
      ensures ok ==> HasSpawned(old(runner.frame), old(runner.signals), runner.frame, runner.signals, task, Some(old(family.status)[n]))
    {
      hide WellFormed, HeapOk, Sound, Kept;
      KeptKeys(family, runner.frame, runner.signals, {}, n);
      if n in family.closed { return false; }
      ok := true;
      ghost var f, g := runner.frame, runner.signals;
      runner.Spawn(task, Some(family.status[n]));
      WithChildKept(family, f, g, runner.frame, runner.signals, n, task);
      family := family.(children := family.children[n := family.children[n] + {task}], home := family.home[task := n]);
    }

    /** `_check_nursery_closed`: the parent is rescheduled when, and only when, it was parked and now nothing is left. */
    method CheckNurseryClosed(n: Nursery)
      requires runner.Valid() && Kept(family, runner.frame, runner.signals, {n}) && n in family.parentTask
      requires n in family.children && n in family.pendingStarts
      modifies this, runner
      ensures Valid() && runner.frame == old(runner.frame)
      ensures if Gone(old(family), n)
        then family == old(family).(closed := old(family.closed) + {n}, waiting := old(family.waiting) - {n})
        else family == old(family)
      ensures Gone(old(family), n) && n in old(family.waiting) ==>
        var parent := family.parentTask[n];
        parent in old(runner.signals.queueings) && runner.signals == Rescheduled(old(runner.signals), parent, Value)
      ensures !(Gone(old(family), n) && n in old(family.waiting)) ==> runner.signals == old(runner.signals)
    {
      hide WellFormed, HeapOk, Sound, Kept;
      ClosedKept(family, runner.frame, runner.signals, n);
      assert n !in family.waiting ==> family.waiting - {n} == family.waiting;
      if !(n in family.nested || family.children[n] != {} || family.pendingStarts[n] != 0) {
        family := family.(closed := family.closed + {n});
        if n in family.waiting {
          family := family.(waiting := family.waiting - {n});
          runner.RescheduleTask(family.parentTask[n], Value, NO_GAPS);
        }
      }
    }

    /** `_add_exc`: the nursery's scope is cancelled. */
    method AddExc(n: Nursery, ghost gap: set<Nursery>)
      requires runner.Valid() && Kept(family, runner.frame, runner.signals, gap) && n in family.scope
      modifies runner`signals, runner.deadlines
      ensures runner.Valid() && Kept(family, runner.frame, runner.signals, gap)
      ensures family.scope[n] in runner.signals.cancelCalled
      ensures Effects(runner.frame, old(runner.signals), runner.signals, {family.scope[n]})
    {
      hide WellFormed, HeapOk, Sound, Kept, Effects, Propagated;
      ghost var f, g := runner.frame, runner.signals;
      KeptKeys(family, f, g, gap, n);
      runner.CancelScope(family.scope[n]);
      PropagatedEffects(f, g, runner.signals, {}, {}, {family.scope[n]});
      KeptThrough(family, f, g, f, runner.signals, gap, {family.scope[n]});
    }

    /** `spawn_impl` without a nursery, for the init task. */
    method SpawnInit(task: Task)
      requires Valid() && family.initTask == None && task !in runner.frame.pauses
      modifies this, runner, runner.deadlines
      ensures Valid() && family == old(family).(initTask := Some(task))
      ensures HasSpawned(old(runner.frame), old(runner.signals), runner.frame, runner.signals, task, None)
    {
      hide WellFormed, HeapOk, Sound, Kept;
      ghost var f, g := runner.frame, runner.signals;
      runner.Spawn(task, None);
      InitKept(family, f, g, runner.frame, runner.signals, task);
      family := family.(initTask := Some(task));
    }

    /**
     * `task_exited` and `_child_finished`, for a task other than init; what it exits with. The outcome of
     * the main task is kept aside, and does not cancel its nursery. `between` is the state before the
     * nursery's parent may be put on the run queue.
     */
    method TaskExited(task: Task, outcome: Option<Exc>, main: bool) returns (final: Option<Exc>, ghost between: Signals)
      requires Valid() && Running(runner.frame, runner.signals, task) && task in family.home
      modifies this, runner, runner.deadlines
      ensures Valid() && task !in runner.frame.pauses && task !in family.home
      ensures final == if Orphaned(old(runner.frame), task) then Some(StackCorrupted) else outcome
      ensures var n := old(family.home)[task];
        && n in old(family.children) && n in family.scope && n in family.parentTask
        && family == old(family).(children := old(family.children)[n := old(family.children[n]) - {task}],
                                  home := old(family.home) - {task}, closed := family.closed, waiting := family.waiting)
        && family.closed - {n} == old(family.closed) - {n}
        && family.waiting == (if n in family.closed then old(family.waiting) - {n} else old(family.waiting))
        && Effects(runner.frame, WithoutTask(old(runner.signals), task), between, if final.Some? && !main then {family.scope[n]} else {})
        && (if final.Some? && !main then family.scope[n] in between.cancelCalled else between == WithoutTask(old(runner.signals), task))
        && (if n in old(family.waiting) && n in family.closed
            then family.parentTask[n] in between.queueings && runner.signals == Rescheduled(between, family.parentTask[n], Value)
            else runner.signals == between)
    {
      hide WellFormed, HeapOk, Sound, Kept, Effects;
      ghost var f, g := runner.frame, runner.signals;
      HomeKnown(family, f, g, task);
      var n := family.home[task];
      final := outcome;
      if task in runner.frame.taskStatus {
        var s := runner.frame.taskStatus[task];
        if s in runner.frame.abandoned && s !in runner.frame.parent {
          final := Some(StackCorrupted);
        }
      }
      runner.ExitTask(task);
      WithoutChildKept(family, f, g, runner.frame, runner.signals, task);
      family := family.(children := family.children[n := family.children[n] - {task}], home := family.home - {task});
      NoEffectsFor(runner.frame, runner.signals, {});
      if final.Some? && !main {
        AddExc(n, {n});
      }
      between := runner.signals;
      KeptKeys(family, runner.frame, runner.signals, {n}, n);
      CheckNurseryClosed(n);
    }

    /**
     * `_nested_child_finished`, up to the point where the parent gives control back: it parks if it has
     * to wait, and otherwise begins the checkpoint that `AexitResumes` ends. `between` is the state
     * before it does.
     */
    method NestedChildFinished(task: Task, n: Nursery, exc: Option<Exc>) returns (parked: bool, ghost between: Signals)
      requires Valid() && Running(runner.frame, runner.signals, task) && task in runner.frame.taskStatus
      requires n in family.parentTask && family.parentTask[n] == task && n in family.nested
      modifies this, runner, runner.deadlines
      ensures Valid() && n !in family.nested && n in family.scope
      ensures exc.Some? ==> family.scope[n] in runner.signals.cancelCalled
      ensures n in old(family.children) && n in old(family.pendingStarts)
      ensures parked <==> old(family.children[n]) != {} || old(family.pendingStarts[n]) != 0
      ensures runner.frame == Paused(old(runner.frame), task)
      ensures if exc.Some? then Effects(old(runner.frame), old(runner.signals), between, {family.scope[n]}) else between == old(runner.signals)
      ensures !parked ==> task in between.queueings && runner.signals == Rescheduled(between, task, Value)
      ensures parked ==> Effects(runner.frame, Waiting(between, task, NurseryExit(family.scope[n])), runner.signals, {})
      ensures parked && runner.frame.taskStatus[task] !in between.cancelled ==>
        runner.signals == Waiting(between, task, NurseryExit(family.scope[n]))
      ensures family == old(family).(nested := old(family.nested) - {n},
        closed := if parked then old(family.closed) else old(family.closed) + {n},
        waiting := if parked then old(family.waiting) + {n} else old(family.waiting))
    {
      hide WellFormed, HeapOk, Sound, Kept, Effects;
      ghost var f, g := runner.frame, runner.signals;
      KeptKeys(family, f, g, {}, n);
      RunningNotParked(family, f, g, {}, task);
      if exc.Some? {
        AddExc(n, {});
        StaysRunning(f, g, f, runner.signals, {family.scope[n]}, task);
      }
      between := runner.signals;
      LessInside(family, family.(nested := family.nested - {n}), runner.frame, runner.signals, n);
      family := family.(nested := family.nested - {n});
      CheckNurseryClosed(n);
      parked := n !in family.closed;
      if parked {
        ParkInAexit(task, n);
      } else {
        Checkpoint(task, Value);
      }
    }

    method ParkInAexit(task: Task, n: Nursery)
      requires Valid() && Running(runner.frame, runner.signals, task) && task in runner.frame.taskStatus
      requires n in family.parentTask && family.parentTask[n] == task && n !in family.closed && n !in family.nested
      modifies this, runner, runner.deadlines
      ensures Valid() && n in family.scope && family == old(family).(waiting := old(family.waiting) + {n})
      ensures runner.frame == Paused(old(runner.frame), task) && old(runner.signals.cancelCalled) <= runner.signals.cancelCalled
      ensures Effects(runner.frame, Waiting(old(runner.signals), task, NurseryExit(family.scope[n])), runner.signals, {})
      ensures runner.frame.taskStatus[task] !in old(runner.signals.cancelled) ==>
        runner.signals == Waiting(old(runner.signals), task, NurseryExit(family.scope[n]))
    {
      hide WellFormed, HeapOk, Sound, Kept, Effects;
      ghost var f, h := runner.frame, runner.signals;
      KeptKeys(family, f, h, {}, n);
      SoundInPlace(f, h, family.scope[n]);
      ParkedKept(family, f, h, task, n);
      family := family.(waiting := family.waiting + {n});
      runner.PauseAndWait(task, NurseryExit(family.scope[n]));
      KeptThrough(family, runner.frame, Waiting(h, task, NurseryExit(family.scope[n])), runner.frame, runner.signals, {}, {});
    }

    /** The end of the checkpoint of a parent that did not have to park: what it raises cancels the nursery's scope. */
    method AexitResumes(task: Task, n: Nursery, raised: Option<Exc>)
      requires Valid() && Running(runner.frame, runner.signals, task)
      requires n in family.parentTask && family.parentTask[n] == task && n in family.closed
      modifies runner`signals, runner.deadlines
      ensures Valid() && Running(runner.frame, runner.signals, task) && n in family.scope
      ensures raised.Some? ==> family.scope[n] in runner.signals.cancelCalled
      ensures raised.None? ==> runner.signals == old(runner.signals)
      ensures Effects(runner.frame, old(runner.signals), runner.signals, {family.scope[n]})
    {
      hide WellFormed, HeapOk, Sound, Kept, Effects;
      ghost var f, g := runner.frame, runner.signals;
      KeptKeys(family, f, g, {}, n);
      if raised.Some? {
        AddExc(n, {});
        StaysRunning(f, g, f, runner.signals, {family.scope[n]}, task);
      } else {
        NoEffectsFor(f, g, {family.scope[n]});
      }
    }

    // ---------- the other operations, which leave the nurseries as they are ----------

    method NewScope(c: Scope, deadline: Time, shield: bool)
      requires Valid() && c !in runner.frame.deadline
      modifies runner`frame
      ensures Valid() && runner.frame == old(runner.frame).(deadline := old(runner.frame.deadline)[c := deadline],
        shielded := Toggled(old(runner.frame.shielded), c, shield))
    {
      hide WellFormed, HeapOk, Sound, Kept, Effects;
      ghost var f, g := runner.frame, runner.signals;
      runner.NewScope(c, deadline, shield);
      NoEffects(runner.frame, g, g);
      KeptThrough(family, f, g, runner.frame, g, {}, {});
    }

    method EnterScope(task: Task, c: Scope) returns (ok: bool)
      requires Valid() && Running(runner.frame, runner.signals, task) && c in runner.frame.deadline && task in runner.frame.taskStatus
      modifies runner, runner.deadlines
      ensures Valid() && ok == (c !in old(runner.frame.entered))
      ensures if ok then HasEntered(old(runner.frame), runner.frame, task, c) && Running(runner.frame, runner.signals, task)
              else runner.frame == old(runner.frame) && runner.signals == old(runner.signals)
      ensures ok ==> Effects(runner.frame, old(runner.signals), runner.signals, {})
      ensures ok && Le(runner.frame.deadline[c], At(old(runner.signals.clock))) ==> c in runner.signals.cancelCalled
    {
      hide WellFormed, HeapOk, Sound, Kept, Effects;
      ghost var f, g := runner.frame, runner.signals;
      ok := runner.Enter(task, c);
      if ok {
        KeptThrough(family, f, g, runner.frame, runner.signals, {}, {});
      }
    }

    method CloseScope(task: Task, c: Scope, exc: Option<Exc>) returns (rest: Option<Exc>)
      requires Valid() && Running(runner.frame, runner.signals, task)
      modifies runner, runner.deadlines
      ensures Valid() && Running(runner.frame, runner.signals, task)
      ensures HasClosed(old(runner.frame), old(runner.signals), runner.frame, runner.signals, task, c, exc, rest)
      ensures Effects(runner.frame, old(runner.signals), runner.signals, {})
    {
      hide WellFormed, HeapOk, Sound, Kept, Effects, HasClosed;
      ghost var f, g := runner.frame, runner.signals;
      rest := runner.CloseScope(task, c, exc);
      ClosedSameTasks(f, g, runner.frame, runner.signals, task, c, exc, rest);
      KeptThrough(family, f, g, runner.frame, runner.signals, {}, {});
    }

    method CancelScope(c: Scope)
      requires Valid() && c in runner.frame.deadline
      modifies runner`signals, runner.deadlines
      ensures Valid() && c in runner.signals.cancelCalled
      ensures Propagated(runner.frame, old(runner.signals), runner.signals, {}, {}, {c})
    {
      hide WellFormed, HeapOk, Sound, Kept, Effects, Propagated;
      ghost var f, g := runner.frame, runner.signals;
      runner.CancelScope(c);
      PropagatedEffects(f, g, runner.signals, {}, {}, {c});
      KeptThrough(family, f, g, f, runner.signals, {}, {c});
    }

    method SetShield(c: Scope, value: bool)
      requires Valid() && c in runner.frame.deadline
      modifies runner, runner.deadlines
      ensures Valid() && runner.frame == old(runner.frame).(shielded := Toggled(old(runner.frame.shielded), c, value))
      ensures Effects(runner.frame, old(runner.signals), runner.signals, {})
    {
      hide WellFormed, HeapOk, Sound, Kept, Effects;
      ghost var f, g := runner.frame, runner.signals;
      runner.SetShield(c, value);
      KeptThrough(family, f, g, runner.frame, runner.signals, {}, {});
    }

    method SetDeadline(c: Scope, d: Time)
      requires Valid() && c in runner.frame.deadline
      modifies runner, runner.deadlines
      ensures Valid() && runner.frame == old(runner.frame).(deadline := old(runner.frame.deadline)[c := d])
      ensures runner.signals == old(runner.signals).(registered := Reregistered(runner.frame, old(runner.signals), c))
    {
      hide WellFormed, HeapOk, Sound, Kept, Effects;
      ghost var f, g := runner.frame, runner.signals;
      runner.SetDeadline(c, d);
      NoEffects(runner.frame, g, runner.signals);
      KeptThrough(family, f, g, runner.frame, runner.signals, {}, {});
    }

    method Expire(now: real) returns (didSomething: bool)
      requires Valid()
      modifies runner`signals, runner.deadlines
      ensures Valid() && Propagated(runner.frame, old(runner.signals), runner.signals, {}, {}, Due(old(runner.signals.registered), now))
      ensures Due(runner.signals.registered, now) == {}
      ensures didSomething <==> Due(old(runner.signals.registered), now) != {}
      ensures !didSomething ==> runner.signals == old(runner.signals)
    {
      hide WellFormed, HeapOk, Sound, Kept, Effects, Propagated, Due;
      ghost var f, g := runner.frame, runner.signals;
      didSomething := runner.Expire(now);
      PropagatedEffects(f, g, runner.signals, {}, {}, Due(g.registered, now));
      KeptThrough(family, f, g, f, runner.signals, {}, Due(g.registered, now));
    }

    method StartBatch(order: seq<Task>)
      requires Valid() && runner.frame.batch == [] && multiset(order) == multiset(runner.signals.runq)
      modifies runner
      ensures Valid() && runner.frame == old(runner.frame).(batch := order) && runner.signals == old(runner.signals).(runq := [])
    {
      hide WellFormed, HeapOk, Sound, Kept;
      ghost var f, g := runner.frame, runner.signals;
      runner.StartBatch(order);
      PoppedKept(family, f, g, runner.frame, runner.signals);
    }

    method PopTask() returns (task: Task, send: Send)
      requires Valid() && runner.frame.batch != []
      modifies runner
      ensures Valid() && Running(runner.frame, runner.signals, task)
      ensures old(runner.frame.batch) == runner.frame.batch + [task] && runner.frame == old(runner.frame).(batch := runner.frame.batch)
      ensures task in old(runner.signals.nextSend) && send == old(runner.signals.nextSend)[task]
      ensures runner.signals == old(runner.signals).(nextSend := old(runner.signals.nextSend) - {task})
    {
      hide WellFormed, HeapOk, Sound, Kept;
      ghost var f, g := runner.frame, runner.signals;
      task, send := runner.PopTask();
      PoppedKept(family, f, g, runner.frame, runner.signals);
    }

    /** The running task pauses without waiting. */
    method Checkpoint(task: Task, send: Send)
      requires Valid() && Running(runner.frame, runner.signals, task)
      modifies runner
      ensures Valid() && runner.frame == Paused(old(runner.frame), task) && runner.signals == Rescheduled(old(runner.signals), task, send)
    {
      hide WellFormed, HeapOk, Sound, Kept;
      PausedKept(family, runner.frame, runner.signals, task, QueueAbort(Failed), send);
      runner.PauseAndGoOn(task, send);
    }

    /** The running task waits for something else than a nursery. */
    method Wait(task: Task, answer: Abort)
      requires Valid() && Running(runner.frame, runner.signals, task) && task in runner.frame.taskStatus
      modifies runner, runner.deadlines
      ensures Valid() && runner.frame == Paused(old(runner.frame), task)
      ensures Effects(runner.frame, Waiting(old(runner.signals), task, QueueAbort(answer)), runner.signals, {})
      ensures runner.frame.taskStatus[task] in old(runner.signals.cancelled) ==>
        task !in runner.signals.abortFunc && (task in runner.signals.nextSend <==> answer == Succeeded)
      ensures runner.frame.taskStatus[task] !in old(runner.signals.cancelled) ==>
        runner.signals == Waiting(old(runner.signals), task, QueueAbort(answer))
    {
      hide WellFormed, HeapOk, Sound, Kept, Effects;
      ghost var f, g := runner.frame, runner.signals;
      PausedKept(family, f, g, task, QueueAbort(answer), Value);
      runner.PauseAndWait(task, QueueAbort(answer));
      KeptThrough(family, runner.frame, Waiting(g, task, QueueAbort(answer)), runner.frame, runner.signals, {}, {});
    }

    /** Whoever a blocked task was waiting for puts it on the run queue; a parked parent waits for its nursery alone. */
    method Wake(task: Task, send: Send)
      requires Valid() && task in runner.frame.pauses && task in runner.signals.queueings
      requires task !in runner.signals.nextSend && runner.signals.queueings[task] == runner.frame.pauses[task]
      requires forall n :: n in family.waiting ==> n in family.parentTask && family.parentTask[n] != task
      modifies runner`signals
      ensures Valid() && runner.signals == Rescheduled(old(runner.signals), task, send)
    {
      hide WellFormed, HeapOk, Sound, Kept;
      QueuedKept(family, runner.frame, runner.signals, task, send);
      runner.RescheduleTask(task, send, NO_GAPS);
    }

    /** KeyboardInterrupt reaches the blocked main task. */
    method Interrupt(task: Task) returns (ghost between: Signals)
      requires Valid() && task in runner.signals.abortFunc && task in runner.frame.taskStatus
      modifies runner`signals, runner.deadlines
      ensures Valid() && task !in runner.signals.abortFunc
      ensures task in old(runner.signals.abortCalls)
      ensures InterruptCounted(runner.frame, old(runner.signals), between, runner.signals, task)
    {
      hide WellFormed, HeapOk, Sound, Kept, Effects, Propagated, InterruptCounted, Interrupted;
      ghost var f, g := runner.frame, runner.signals;
      Filled(f, g, NO_GAPS, Gaps({}, {task}, {}));
      between := runner.DeliverKeyboardInterrupt(task);
      PropagatedEffects(f, g, between, {}, {}, Cancels(g.abortFunc[task]));
      InterruptedKept(family, f, g, between, task, Cancels(g.abortFunc[task]));
    }

    /**
     * The first half of `start`: an open nursery gets a pending start, and the child begins in a nursery
     * of its own. `inner` and `between` are the state in which that nursery is open and still empty.
     */
    method StartBegin(task: Task, n: Nursery, c: Scope, old_: Nursery, child: Task)
      returns (ok: bool, ghost inner: Frame, ghost between: Signals)
      requires Valid() && Running(runner.frame, runner.signals, task) && n in family.parentTask
      requires c !in runner.frame.deadline && old_ !in family.parentTask && child !in runner.frame.pauses
      modifies this, runner, runner.deadlines
      ensures Valid() && ok == (n !in old(family.closed))
      ensures !ok ==> family == old(family) && runner.frame == old(runner.frame) && runner.signals == old(runner.signals)
      ensures ok ==> n in old(family.pendingStarts) && n in family.pendingStarts && n !in family.closed
      ensures ok ==> family.pendingStarts[n] == old(family.pendingStarts[n]) + 1
      ensures ok ==> old_ in family.status && n in family.status && family.status[n] < family.status[old_] && child in family.home && family.home[child] == old_
      ensures ok ==>
        && HasEntered(WithNewScope(old(runner.frame), c), inner, task, c) && Effects(inner, old(runner.signals), between, {})
        && HasSpawned(inner, between, runner.frame, runner.signals, child, Some(old(runner.frame.nextStatus)))
    {
      hide WellFormed, HeapOk, Sound, Kept, Effects, HasEntered, HasSpawned;
      ghost var f, g := runner.frame, runner.signals;
      inner, between := f, g;
      KeptKeys(family, f, g, {}, n);
      if n in family.closed { return false, inner, between; }
      SoundLinked(f, g, NO_GAPS);
      MorePending(family, f, g, n);
      family := family.(pendingStarts := family.pendingStarts[n := family.pendingStarts[n] + 1]);
      OpenNursery(task, c, old_);
      inner, between := runner.frame, runner.signals;
      EnteredTasks(WithNewScope(f, c), inner, task, c);
      KeptKeys(family, inner, between, {}, old_);
      ok := SpawnImpl(old_, child);
    }

    /** The last part of `start`: the parked parent is put on the run queue just when this closes the nursery. */
    method StartEnd(n: Nursery)
      requires Valid() && n in family.parentTask && n in family.pendingStarts && family.pendingStarts[n] > 0
      modifies this, runner
      ensures Valid() && n in old(family.children) && n in family.pendingStarts && runner.frame == old(runner.frame)
      ensures var done := n !in old(family.nested) && old(family.children[n]) == {} && old(family.pendingStarts[n]) == 1;
        && family == old(family).(pendingStarts := old(family.pendingStarts)[n := old(family.pendingStarts[n]) - 1],
             closed := if done then old(family.closed) + {n} else old(family.closed),
             waiting := if done then old(family.waiting) - {n} else old(family.waiting))
        && (n in family.closed <==> done)
        && (if done && n in old(family.waiting)
            then family.parentTask[n] in old(runner.signals.queueings) && runner.signals == Rescheduled(old(runner.signals), family.parentTask[n], Value)
            else runner.signals == old(runner.signals))
    {
      hide WellFormed, HeapOk, Sound, Kept;
      KeptKeys(family, runner.frame, runner.signals, {}, n);
      LessInside(family, family.(pendingStarts := family.pendingStarts[n := family.pendingStarts[n] - 1]), runner.frame, runner.signals, n);
      family := family.(pendingStarts := family.pendingStarts[n := family.pendingStarts[n] - 1]);
      CheckNurseryClosed(n);
    }

    /**
     * `started`: the child, its siblings and everything below the status of the nursery that `start`
     * opened move to the nursery that `start` was called on, unless cancellation is under way there.
     * `between` is the state before the old nursery's parent may be put on the run queue.
     */
    method Started(from: Nursery, to: Nursery) returns (r: StartedResult, ghost between: Signals)
      requires Valid() && from in family.parentTask && to in family.parentTask
      requires from in family.status && to in family.status && family.status[to] < family.status[from]
      modifies this, runner, runner.deadlines
      ensures Valid()
      ensures r == if from in old(family.calledStarted) then CalledTwice
                   else if old(family.status[from]) in old(runner.signals.cancelled) then QuietlyQuit
                   else if to in old(family.closed) then NewNurseryClosed else Moved
      ensures to in old(family.pendingStarts) && (old(family.pendingStarts[to]) > 0 ==> r != NewNurseryClosed)
      ensures r != Moved ==> runner.frame == old(runner.frame) && runner.signals == old(runner.signals)
      ensures r != Moved ==> family == old(family).(calledStarted := old(family.calledStarted) + {from})
      ensures r == Moved ==> HasMoved(old(family).(calledStarted := old(family.calledStarted) + {from}), old(runner.frame), old(runner.signals),
                                      family, runner.frame, between, runner.signals, from, to)
    {
      hide WellFormed, HeapOk, Sound, Kept, Effects, HasMoved;
      ghost var f, g := runner.frame, runner.signals;
      KeptKeys(family, f, g, {}, from);
      KeptKeys(family, f, g, {}, to);
      var called := from in family.calledStarted;
      CalledStartedKept(family, f, g, family.calledStarted + {from});
      family := family.(calledStarted := family.calledStarted + {from});
      between := runner.signals;
      if called { return CalledTwice, between; }
      if family.status[from] in runner.signals.cancelled { return QuietlyQuit, between; }
      if to in family.closed { return NewNurseryClosed, between; }
      r := Moved;
      between := MoveAll(from, to);
    }

    /** The part of `started` that moves what has to be moved. */
    method MoveAll(from: Nursery, to: Nursery) returns (ghost between: Signals)
      requires Valid() && from in family.parentTask && to in family.parentTask && to !in family.closed
      requires from in family.status && to in family.status && family.status[to] < family.status[from]
      requires family.status[from] !in runner.signals.cancelled
      modifies this, runner, runner.deadlines
      ensures Valid()
      ensures HasMoved(old(family), old(runner.frame), old(runner.signals), family, runner.frame, between, runner.signals, from, to)
    {
      hide WellFormed, HeapOk, Sound, Kept, Effects, IsMoved;
      ghost var h, f, g := family, runner.frame, runner.signals;
      KeptKeys(family, f, g, {}, from);
      KeptKeys(family, f, g, {}, to);
      AdoptedKept(family, f, g, from, to);
      var tasks := family.children[from];
      family := family.(children := family.children[from := {}]);
      family := family.(children := family.children[to := family.children[to] + tasks], home := family.home + map t | t in tasks :: to);
      assert family == Adopted(h, from, to);
      MoveStatuses(runner, family.status[from], family.status[to], family.parentTask[from]);
      between := runner.signals;
      MovedTasks(f, runner.frame, family.status[from], family.status[to], family.parentTask[from]);
      KeptThrough(family, f, g, runner.frame, runner.signals, {from}, {});
      KeptKeys(family, runner.frame, runner.signals, {from}, from);
      CheckNurseryClosed(from);
    }
  }

  /**
   * All children, tasks and statuses have moved from one nursery to another, in state `between`; then
   * the old nursery was closed if nothing is left in it, and its parked parent put on the run queue.
   */
  ghost predicate HasMoved(h: Family, f: Frame, g: Signals, e: Family, d: Frame, between: Signals, k: Signals, from: Nursery, to: Nursery) {
    && from in h.children && to in h.children && from in h.pendingStarts && from in h.status && to in h.status && from in h.parentTask
    && var done := from !in h.nested && h.pendingStarts[from] == 0;
    && e == Adopted(h, from, to).(closed := if done then h.closed + {from} else h.closed,
                                  waiting := if done then h.waiting - {from} else h.waiting)
    && IsMoved(f, d, h.status[from], h.status[to], h.parentTask[from])
    && Effects(d, g, between, {})
    && (if from in h.waiting && done
        then h.parentTask[from] in between.queueings && k == Rescheduled(between, h.parentTask[from], Value)
        else k == between)
  }

  lemma MovedTasks(f: Frame, d: Frame, from: Status, to: Status, except: Task)
    requires IsMoved(f, d, from, to, except)
    ensures d.pauses == f.pauses && d.scopeOf == f.scopeOf && d.deadline == f.deadline && d.entered == f.entered
  {
    hide Redirected;
  }

  /** A task that exits has no counts any more. */
  function WithoutTask(g: Signals, task: Task): Signals {
    g.(abortCalls := g.abortCalls - {task}, queueings := g.queueings - {task})
  }

  lemma NoEffectsFor(f: Frame, g: Signals, origin: set<Scope>)
    ensures Effects(f, g, g, origin)
  {
  }

  /** A new scope without a deadline and without a shield. */
  function WithNewScope(f: Frame, c: Scope): Frame {
    f.(deadline := f.deadline[c := Inf], shielded := Toggled(f.shielded, c, false))
  }

  lemma EnteredTasks(f: Frame, d: Frame, task: Task, c: Scope)
    requires HasEntered(f, d, task, c)
    ensures d.pauses == f.pauses
  {
  }

  lemma ClosedSameTasks(f: Frame, g: Signals, d: Frame, k: Signals, task: Task, c: Scope, exc: Option<Exc>, rest: Option<Exc>)
    requires HasClosed(f, g, d, k, task, c, exc, rest)
    ensures d.pauses == f.pauses && d.scopeOf == f.scopeOf && d.deadline == f.deadline && d.entered == f.entered
  {
    hide Exit, Catches, Catch, Encloses;
  }

  /** The statuses and tasks directly below one status, except one task, are now directly below another. */
  ghost predicate IsMoved(f: Frame, d: Frame, from: Status, to: Status, except: Task) {
    && from in f.children && from in f.members
    && d == f.(parent := Redirected(f.parent, f.children[from], to),
               taskStatus := Redirected(f.taskStatus, f.members[from] - {except}, to),
               children := d.children, members := d.members)
  }

  function Redirected(m: map<int, int>, keys: set<int>, to: int): map<int, int> {
    (m - keys) + Onto(keys, to)
  }

  function Onto(keys: set<int>, to: int): map<int, int> {
    map k | k in keys :: to
  }

  /** The task's status was left behind when its scope was closed. */
  predicate Orphaned(f: Frame, task: Task) {
    task in f.taskStatus && f.taskStatus[task] in f.abandoned && f.taskStatus[task] !in f.parent
  }

  /**
   * The middle of `started`. Everything is broken off from the old place before anything is attached
   * to the new one; the old place was not cancelled, so nothing has to be worked out in between.
   */
  method MoveStatuses(runner: Runner, from: Status, to: Status, except: Task)
    requires runner.Valid() && from in runner.frame.scopeOf && to in runner.frame.scopeOf && to < from
    requires from !in runner.signals.cancelled
    modifies runner, runner.deadlines
    ensures runner.Valid() && IsMoved(old(runner.frame), runner.frame, from, to, except)
    ensures Effects(runner.frame, old(runner.signals), runner.signals, {})
  {
    hide WellFormed, HeapOk, Sound, Effects, Onto;
    ghost var f, g := runner.frame, runner.signals;
    SoundLinked(f, g, NO_GAPS);
    ChildrenOpen(f, g, NO_GAPS, from);
    MembersLive(f, g, from);
    var statuses := Elements(runner.frame.children[from]);
    var tasks := Elements(runner.frame.members[from] - {except});
    BreakOff(runner, from, statuses, tasks);
    AttachTo(runner, to, statuses, tasks);
  }

  method BreakOff(runner: Runner, ghost from: Status, statuses: seq<Status>, tasks: seq<Task>)
    requires runner.Valid() && from in runner.frame.children && from !in runner.signals.cancelled
    requires ToSet(statuses) == runner.frame.children[from]
    requires forall c :: c in runner.frame.children[from] ==> c in runner.frame.scopeOf && c !in runner.frame.closed
    requires forall t :: t in ToSet(tasks) ==> t in runner.frame.pauses
    modifies runner, runner.deadlines
    ensures runner.Valid() && runner.signals == old(runner.signals)
    ensures runner.frame == old(runner.frame).(parent := old(runner.frame.parent) - ToSet(statuses), children := runner.frame.children,
      taskStatus := old(runner.frame.taskStatus) - ToSet(tasks), members := runner.frame.members)
  {
    hide WellFormed, HeapOk, Sound, Effects, ParentCancellationIsVisible;
    ghost var f, g := runner.frame, runner.signals;
    assert f.parent - ToSet(statuses[..0]) == f.parent;
    for i := 0 to |statuses|
      invariant runner.Valid() && runner.signals == g
      invariant runner.frame == f.(parent := f.parent - ToSet(statuses[..i]), children := runner.frame.children)
    {
      NextOf(statuses, i);
      NotVisible(f, runner.frame, g, statuses[i], from);
      LessOne(f.parent, ToSet(statuses[..i]), statuses[i]);
      runner.SetParent(statuses[i], None);
    }
    assert statuses[..|statuses|] == statuses;
    Leave(runner, tasks);
  }

  method Leave(runner: Runner, tasks: seq<Task>)
    requires runner.Valid() && forall t :: t in ToSet(tasks) ==> t in runner.frame.pauses
    modifies runner, runner.deadlines
    ensures runner.Valid() && runner.signals == old(runner.signals)
    ensures runner.frame == old(runner.frame).(taskStatus := old(runner.frame.taskStatus) - ToSet(tasks), members := runner.frame.members)
  {
    hide WellFormed, HeapOk, Sound, Effects;
    ghost var f, g := runner.frame, runner.signals;
    assert f.taskStatus - ToSet(tasks[..0]) == f.taskStatus;
    for i := 0 to |tasks|
      invariant runner.Valid() && runner.signals == g
      invariant runner.frame == f.(taskStatus := f.taskStatus - ToSet(tasks[..i]), members := runner.frame.members)
    {
      NextOf(tasks, i);
      LessOne(f.taskStatus, ToSet(tasks[..i]), tasks[i]);
      runner.Activate(tasks[i], None, NO_GAPS);
    }
    assert tasks[..|tasks|] == tasks;
  }

  method AttachTo(runner: Runner, to: Status, statuses: seq<Status>, tasks: seq<Task>)
    requires runner.Valid() && to in runner.frame.scopeOf
    requires forall c :: c in ToSet(statuses) ==> c in runner.frame.scopeOf && c !in runner.frame.closed && to < c
    requires forall t :: t in ToSet(tasks) ==> t in runner.frame.pauses
    requires (forall c :: c in ToSet(statuses) ==> c !in runner.frame.parent) && Distinct(statuses)
    requires (forall t :: t in ToSet(tasks) ==> t !in runner.frame.taskStatus) && Distinct(tasks)
    modifies runner, runner.deadlines
    ensures runner.Valid() && Effects(runner.frame, old(runner.signals), runner.signals, {})
    ensures runner.frame == old(runner.frame).(parent := old(runner.frame.parent) + Onto(ToSet(statuses), to), children := runner.frame.children,
      taskStatus := old(runner.frame.taskStatus) + Onto(ToSet(tasks), to), members := runner.frame.members)
  {
    hide WellFormed, HeapOk, Sound, Effects, ParentCancellationIsVisible, Onto, Distinct, Extends;
    ghost var f, g := runner.frame, runner.signals;
    NoEffects(f, g, g);
    OntoNothing(f.parent, to);
    assert ToSet(statuses[..0]) == {};
    for i := 0 to |statuses|
      invariant runner.Valid() && Effects(runner.frame, g, runner.signals, {})
      invariant runner.frame == f.(parent := f.parent + Onto(ToSet(statuses[..i]), to), children := runner.frame.children)
    {
      NextOf(statuses, i);
      OneMoreOnto(f.parent, ToSet(statuses[..i]), to, statuses[i]);
      NotYet(statuses, i, f.parent, to);
      ghost var u, before := runner.signals, runner.frame;
      runner.SetParent(statuses[i], Some(to));
      ExtendedByParent(before, runner.frame, g.abortFunc, statuses[i], to);
      EffectsGoOn(before, runner.frame, g, u, runner.signals);
    }
    assert statuses[..|statuses|] == statuses;
    JoinAll(runner, to, tasks, g);
  }

  method JoinAll(runner: Runner, to: Status, tasks: seq<Task>, ghost g: Signals)
    requires runner.Valid() && to in runner.frame.scopeOf && Effects(runner.frame, g, runner.signals, {})
    requires forall t :: t in ToSet(tasks) ==> t in runner.frame.pauses
    requires (forall t :: t in ToSet(tasks) ==> t !in runner.frame.taskStatus) && Distinct(tasks)
    modifies runner, runner.deadlines
    ensures runner.Valid() && Effects(runner.frame, g, runner.signals, {})
    ensures runner.frame == old(runner.frame).(taskStatus := old(runner.frame.taskStatus) + Onto(ToSet(tasks), to), members := runner.frame.members)
  {
    hide WellFormed, HeapOk, Sound, Effects, ParentCancellationIsVisible, Onto, Distinct, Extends;
    ghost var f := runner.frame;
    OntoNothing(f.taskStatus, to);
    assert ToSet(tasks[..0]) == {};
    for i := 0 to |tasks|
      invariant runner.Valid() && Effects(runner.frame, g, runner.signals, {})
      invariant runner.frame == f.(taskStatus := f.taskStatus + Onto(ToSet(tasks[..i]), to), members := runner.frame.members)
    {
      NextOf(tasks, i);
      OneMoreOnto(f.taskStatus, ToSet(tasks[..i]), to, tasks[i]);
      NotYet(tasks, i, f.taskStatus, to);
      ghost var u, before := runner.signals, runner.frame;
      runner.Activate(tasks[i], Some(to), NO_GAPS);
      ExtendedByTask(before, runner.frame, g.abortFunc, tasks[i], to);
      EffectsGoOn(before, runner.frame, g, u, runner.signals);
    }
    assert tasks[..|tasks|] == tasks;
  }

  lemma LessOne(m: map<int, int>, keys: set<int>, k: int)
    ensures (m - keys) - {k} == m - (keys + {k})
  {
  }

  lemma OntoNothing(m: map<int, int>, to: int)
    ensures m + Onto({}, to) == m
  {
  }

  lemma OneMoreOnto(m: map<int, int>, keys: set<int>, to: int, k: int)
    ensures (m + Onto(keys, to))[k := to] == m + Onto(keys + {k}, to)
  {
  }

  lemma NotYet(q: seq<int>, i: int, m: map<int, int>, to: int)
    requires 0 <= i < |q| && Distinct(q) && forall k :: k in ToSet(q) ==> k !in m
    ensures q[i] !in m + Onto(ToSet(q[..i]), to)
  {
    assert q[i] in ToSet(q);
  }

  lemma NotVisible(f: Frame, d: Frame, g: Signals, s: Status, from: Status)
    requires Sound(f, g, NO_GAPS) && from in f.children && s in f.children[from] && from !in g.cancelled
    requires s in d.scopeOf && forall z :: z in d.parent ==> z in f.parent && d.parent[z] == f.parent[z]
    ensures !ParentCancellationIsVisible(d, g.cancelled, s)
  {
  }

  lemma MembersLive(f: Frame, g: Signals, s: Status)
    requires Sound(f, g, NO_GAPS) && s in f.members
    ensures forall t :: t in f.members[s] ==> t in f.pauses
  {
    assert forall t :: t in f.members[s] ==> t in f.taskStatus;
  }

  lemma NotKnown(f: Frame, g: Signals, c: Scope)
    requires WellFormed(f, g) && c !in f.deadline
    ensures c !in g.cancelCalled && c !in f.entered && forall t :: !ExitsNursery(g, t, c)
  {
  }

  /** A new scope without a deadline is not cancelled by entering it. */
  lemma NotCancelledAtOnce(f: Frame, g: Signals, d: Frame, h: Signals, c: Scope)
    requires WellFormed(f, g) && c !in f.deadline && Effects(d, g, h, {}) && c in d.deadline && d.deadline[c] == Inf
    ensures c !in h.cancelCalled
  {
    NotKnown(f, g, c);
    assert Founded(d, g, h, {c}, {});
  }
}
