/** Tasks, cancel statuses and cancel scopes of `trio/_core/_run.py`, as the run loop works with them. */
module CancelScopes {
  import opened Collections
  import opened Options
  import opened Times
  import opened Exceptions
  import opened DeadlineHeap
  import opened CancelState
  import opened CancelTree
  import opened CancelTasks

  /** The cases that `_close` distinguishes. */
  datatype ExitCase = Nested | AlreadyAbandoned | Misnested | Refused

  function Exit(f: Frame, task: Task, c: Scope): ExitCase {
    if c !in f.statusOf then Refused
    else if task in f.taskStatus && f.taskStatus[task] == f.statusOf[c] then Nested
    else if f.statusOf[c] in f.abandoned then AlreadyAbandoned
    else if task in f.taskStatus && Encloses(f.parent, f.statusOf[c], f.taskStatus[task]) then Misnested
    else Refused
  }

  /** The exception on its way out, before the scope has had a chance to catch it. */
  function Raised(exit: ExitCase, exc: Option<Exc>): Option<Exc> {
    if exit == Misnested || exit == Refused then Some(StackCorrupted) else exc
  }

  /** Cancellation reaches this status, and whoever it comes from cannot see past it. */
  ghost predicate Catches(f: Frame, cancelled: set<Status>, c: Scope) {
    && c in f.statusOf && f.statusOf[c] in f.scopeOf && f.statusOf[c] in cancelled
    && !ParentCancellationIsVisible(f, cancelled, f.statusOf[c])
  }

  /** The tasks' statuses after one task has left a scope for the scope around it. */
  function MovedOut(f: Frame, task: Task, s: Status): map<Task, Status> {
    if s in f.parent then f.taskStatus[task := f.parent[s]] else f.taskStatus - {task}
  }

  /** `__enter__`: the task is in a new status of the scope, below its old one. */
  ghost predicate HasEntered(f: Frame, d: Frame, task: Task, c: Scope) {
    d == f.(entered := f.entered + {c}, nextStatus := f.nextStatus + 1, scopeOf := f.scopeOf[f.nextStatus := c],
            parent := if task in f.taskStatus then f.parent[f.nextStatus := f.taskStatus[task]] else f.parent,
            statusOf := f.statusOf[c := f.nextStatus], taskStatus := f.taskStatus[task := f.nextStatus],
            children := d.children, members := d.members)
  }

  /**
   * `_close`: what is let through, where the task has gone, and what became of the scope's status, which
   * is an abandoned root just if a task or a child was left in it.
   */
  ghost predicate HasClosed(f: Frame, g: Signals, d: Frame, k: Signals, task: Task, c: Scope, exc: Option<Exc>, rest: Option<Exc>) {
    var exit := Exit(f, task, c);
    if exit == Refused then rest == Some(StackCorrupted) && d == f && k == g
    else
      && c in f.statusOf && var s := f.statusOf[c];
      && var out := Raised(exit, exc); var catches := out.Some? && Catches(f, g.cancelled, c);
      && rest == (if catches then Catch(out.value).1 else out)
      && d == f.(
           caught := if catches && Catch(out.value).0 then f.caught + {c} else f.caught,
           statusOf := f.statusOf - {c}, closed := f.closed + {s}, parent := f.parent - {s},
           taskStatus := if exit == AlreadyAbandoned then f.taskStatus else MovedOut(f, task, s),
           members := d.members, children := d.children, abandoned := d.abandoned)
      && s in d.members && s in d.children
      && (if d.members[s] == {} && d.children[s] == {}
          then d.abandoned == f.abandoned && k == g.(registered := k.registered)
          else s in k.cancelled && forall z :: z in d.abandoned <==> z in f.abandoned || (z in d.scopeOf && Encloses(d.parent, s, z)))
  }

  /** The new task is in its status, and at the end of the run queue. */
  ghost predicate HasSpawned(f: Frame, g: Signals, d: Frame, k: Signals, task: Task, status: Option<Status>) {
    && d == f.(pauses := f.pauses[task := 0], members := d.members,
               taskStatus := if status.Some? then f.taskStatus[task := status.value] else f.taskStatus)
    && k == g.(abortCalls := g.abortCalls[task := 0], queueings := g.queueings[task := 1],
               runq := g.runq + [task], nextSend := g.nextSend[task := Value])
  }

  /** The parts of `__enter__` put together. */
  lemma EnteredNow(f: Frame, e: Frame, k: Frame, task: Task, c: Scope)
    requires e == f.(entered := f.entered + {c}, nextStatus := f.nextStatus + 1, scopeOf := f.scopeOf[f.nextStatus := c],
                     parent := if task in f.taskStatus then f.parent[f.nextStatus := f.taskStatus[task]] else f.parent,
                     children := e.children, members := e.members)
    requires k == e.(statusOf := e.statusOf[c := f.nextStatus], taskStatus := e.taskStatus[task := f.nextStatus], members := k.members)
    ensures HasEntered(f, k, task, c)
  {
  }

  lemma RefusedClosed(f: Frame, g: Signals, task: Task, c: Scope, exc: Option<Exc>)
    requires Exit(f, task, c) == Refused
    ensures HasClosed(f, g, f, g, task, c, exc, Some(StackCorrupted))
  {
    hide Exit;
  }

  lemma SameCatches(f: Frame, d: Frame, cancelled: set<Status>, c: Scope)
    requires d.statusOf == f.statusOf && d.scopeOf == f.scopeOf && d.parent == f.parent && d.shielded == f.shielded
    ensures Catches(f, cancelled, c) <==> Catches(d, cancelled, c)
  {
  }

  /** The parts of `_close` put together; `d` is the frame before the scope forgets its status. */
  lemma CaseClosed(f: Frame, g: Signals, d: Frame, e: Frame, k: Signals, task: Task, c: Scope, exc: Option<Exc>, rest: Option<Exc>)
    requires Exit(f, task, c) != Refused && c in f.statusOf
    requires var exit, s := Exit(f, task, c), f.statusOf[c];
      var out := Raised(exit, exc); var catches := out.Some? && Catches(f, g.cancelled, c);
      && rest == (if catches then Catch(out.value).1 else out)
      && s in d.members && s in d.children
      && d == f.(
           caught := if catches && Catch(out.value).0 then f.caught + {c} else f.caught, parent := f.parent - {s},
           taskStatus := if exit == AlreadyAbandoned then f.taskStatus else MovedOut(f, task, s),
           closed := if d.members[s] != {} || d.children[s] != {} then f.closed + {s} else f.closed,
           members := d.members, children := d.children, abandoned := d.abandoned)
      && e == d.(statusOf := d.statusOf - {c}, closed := d.closed + {s})
      && (if d.members[s] == {} && d.children[s] == {}
          then d.abandoned == f.abandoned && k == g.(registered := k.registered)
          else s in k.cancelled && forall z :: z in d.abandoned <==> z in f.abandoned || (z in d.scopeOf && Encloses(d.parent, s, z)))
    ensures HasClosed(f, g, e, k, task, c, exc, rest)
  {
    hide Exit, Encloses, Catches, Catch;
    assert f.closed + {f.statusOf[c]} + {f.statusOf[c]} == f.closed + {f.statusOf[c]};
  }

  class Runner {
    var frame: Frame
    var signals: Signals
    const deadlines: Deadlines

    constructor (now: real)
      ensures Valid0() && fresh(deadlines)
      ensures frame == NO_FRAME && signals == NoSignals(now)
    {
      frame := NO_FRAME;
      signals := NoSignals(now);
      deadlines := new Deadlines();
    }

    ghost predicate Valid0()
      reads this, deadlines
    {
      && WellFormed(frame, signals)
      && HeapOk(deadlines.heap, signals.registered, frame.deadline.Keys)
      && deadlines.active == |signals.registered|
    }

    method CurrentTime() returns (now: real)
      modifies this`signals
      ensures signals == old(signals).(clock := now) && old(signals.clock) <= now
    {
      var later: real := *;
      signals := signals.(clock := if signals.clock <= later then later else signals.clock);
      now := signals.clock;
    }

    /** `reschedule`; its precondition is the assertion in the source that the task is not scheduled yet. */
    method Reschedule(task: Task, send: Send)
      requires WellFormed(frame, signals) && task in frame.pauses && task in signals.queueings
      requires task !in signals.nextSend && signals.queueings[task] == frame.pauses[task]
      modifies this`signals
      ensures WellFormed(frame, signals) && signals == Rescheduled(old(signals), task, send)
    {
      hide WellFormed;
      RescheduledWellFormed(frame, signals, task, send);
      signals := signals.(nextSend := signals.nextSend[task := send]);
      signals := signals.(abortFunc := signals.abortFunc - {task});
      signals := signals.(queueings := signals.queueings[task := signals.queueings[task] + 1]);
      signals := signals.(runq := signals.runq + [task]);
    }

    /** `_attempt_abort`, for a task that is cancelled. */
    method AttemptAbort(task: Task)
      requires Valid0() && task in signals.abortFunc && InCancelled(frame, signals, task)
      modifies this`signals, deadlines
      ensures Valid0() && Propagated(frame, old(signals), signals, {}, {}, {})
      ensures task !in signals.abortFunc && Spared(frame, old(signals), signals, {task})
      ensures old(signals.cancelCalled) <= signals.cancelCalled && deadlines.heap == old(deadlines.heap)
      decreases frame.deadline.Keys - signals.cancelCalled, 3, 1
    {
      hide WellFormed, Propagated, HeapOk, Reached;
      ghost var f, g := frame, signals;
      var result := CallAbortFunc(task);
      ghost var h := signals;
      assert task in h.abortFunc;
      AnsweredPropagated(f, g, h, task);
      AnsweredSpared(f, g, h, task);
      AnswerAbort(task, result);
    }

    /** The call of the abort function; the callback of a nursery cancels the nursery's scope. */
    method CallAbortFunc(task: Task) returns (result: Abort)
      requires Valid0() && task in signals.abortFunc
      modifies this`signals, deadlines
      ensures Valid0() && Propagated(frame, old(signals), signals, {}, {}, Cancels(old(signals.abortFunc)[task]))
      ensures Spared(frame, old(signals), signals, {})
      ensures result == AnswerOf(old(signals.abortFunc)[task])
      ensures Cancels(old(signals.abortFunc)[task]) <= signals.cancelCalled
      ensures old(signals.abortFunc)[task].QueueAbort? ==> signals == old(signals)
      ensures task in signals.abortFunc ==> signals.abortFunc[task] == old(signals.abortFunc)[task]
      ensures task in frame.pauses && task in signals.queueings && task in signals.abortCalls && task in old(signals.abortCalls)
      ensures task !in signals.nextSend && signals.queueings[task] == frame.pauses[task]
      ensures old(signals.cancelCalled) <= signals.cancelCalled && deadlines.heap == old(deadlines.heap)
      decreases frame.deadline.Keys - signals.cancelCalled, 3, 0
    {
      hide WellFormed, Propagated, HeapOk, Spared;
      ghost var f, g := frame, signals;
      BlockedTask(f, g, task);
      match signals.abortFunc[task] {
        case QueueAbort(res) =>
          Unchanged(f, g);
          SparedSame(f, g, g, {});
          result := res;
        case NurseryExit(scope) =>
          FewerRegistered(deadlines.heap, g.registered, f.deadline.Keys, scope);
          Cancel(scope);
          NurseryExited(f, g, signals, scope, task);
          result := Failed;
      }
    }

    method AnswerAbort(task: Task, result: Abort)
      requires WellFormed(frame, signals) && task in frame.pauses
      requires task in signals.queueings && task in signals.abortCalls
      requires task !in signals.nextSend && signals.queueings[task] == frame.pauses[task]
      modifies this`signals
      ensures WellFormed(frame, signals) && signals == Answered(old(signals), task, result)
    {
      hide WellFormed;
      NotedWellFormed(frame, signals, task);
      signals := signals.(abortCalls := signals.abortCalls[task := signals.abortCalls[task] + 1]);
      signals := signals.(abortFunc := signals.abortFunc - {task});
      if result == Succeeded {
        Reschedule(task, RaiseCancelled);
      }
    }

    method AttemptDeliveryOfAnyPendingCancel(task: Task)
      requires Valid0()
      requires task in signals.abortFunc ==> task in frame.taskStatus
      requires task in signals.abortFunc && frame.taskStatus[task] in signals.cancelled ==> InCancelled(frame, signals, task)
      modifies this`signals, deadlines
      ensures Valid0() && Propagated(frame, old(signals), signals, {}, {}, {})
      ensures Delivered(frame, signals.cancelled, signals.abortFunc, task)
      ensures Spared(frame, old(signals), signals, {task})
      ensures old(signals.cancelCalled) <= signals.cancelCalled && deadlines.heap == old(deadlines.heap)
      ensures task !in old(signals.abortFunc) ==> signals == old(signals)
      ensures task in frame.taskStatus && frame.taskStatus[task] !in old(signals.cancelled) ==> signals == old(signals)
      ensures task in frame.taskStatus && frame.taskStatus[task] in old(signals.cancelled) ==> task !in signals.abortFunc
      decreases frame.deadline.Keys - signals.cancelCalled, 4, 0
    {
      hide WellFormed, Propagated, HeapOk, Spared;
      Unchanged(frame, signals);
      SparedSame(frame, signals, signals, {task});
      if task !in signals.abortFunc { return; }
      if frame.taskStatus[task] !in signals.cancelled { return; }
      AttemptAbort(task);
    }

    /**
     * The worklist propagation. It settles `status` and unsettles none, whatever the state of the
     * statuses elsewhere, and even though the clock check in `CancelCalled` and the abort callback of
     * a nursery can start further propagations from inside it. What it reads from the parent is right
     * (`Rooted`) wherever it is called: the scope was just cancelled, or all outward of it is settled.
     */
    method Recalculate(status: Status)
      requires Valid0() && status in frame.scopeOf && Rooted(frame, signals.cancelled, signals.cancelCalled, status)
      requires status in frame.closed ==> status in signals.cancelled && frame.scopeOf[status] in signals.cancelCalled
      modifies this`signals, deadlines
      ensures Valid0() && Propagated(frame, old(signals), signals, {}, {}, {})
      ensures Settled(frame, signals.cancelled, signals.cancelCalled, status)
      ensures Spared(frame, old(signals), signals, {})
      ensures old(status in signals.cancelled && frame.scopeOf[status] in signals.cancelCalled) ==> signals == old(signals)
      ensures old(signals.cancelCalled) <= signals.cancelCalled && deadlines.heap == old(deadlines.heap)
      decreases frame.deadline.Keys - signals.cancelCalled, 5
    {
      hide WellFormed, Propagated, HeapOk, Worklist, Spared, Rooted, Settled;
      ghost var f, g := frame, signals;
      ghost var visited: set<Status> := {};
      var todo: seq<Status> := [status];
      ProgressStarts(f, g, status);
      while todo != []
        invariant Valid0() && frame == f && g.cancelCalled <= signals.cancelCalled && deadlines.heap == old(deadlines.heap)
        invariant Progress(f, g, signals, status, todo, visited) && visited <= f.scopeOf.Keys
        invariant status in g.cancelled && f.scopeOf[status] in g.cancelCalled ==> signals == g && (todo == [status] || todo == [])
        decreases f.scopeOf.Keys - visited
      {
        ghost var before, u := todo, signals;
        ProgressNext(f, g, u, status, todo, visited);
        var current := todo[|todo| - 1];
        todo := todo[..|todo| - 1];
        var changed := Visit(current);
        var more: seq<Status> := [];
        if changed {
          more := Elements(frame.children[current]);
        }
        NothingIn(more);
        ProgressMade(f, g, u, signals, status, before, visited, more);
        todo := todo + more;
        visited := visited + {current};
      }
      NothingIn(todo);
    }

    /** One round of `recalculate`, for the status taken off the worklist. */
    method Visit(current: Status) returns (changed: bool)
      requires Valid0() && current in frame.scopeOf && current in frame.members && current in frame.children
      requires frame.scopeOf[current] in frame.deadline && Rooted(frame, signals.cancelled, signals.cancelCalled, current)
      requires current in frame.closed ==> current in signals.cancelled && frame.scopeOf[current] in signals.cancelCalled
      modifies this`signals, deadlines
      ensures Valid0()
      ensures Propagated(frame, old(signals), signals, if changed then frame.children[current] else {}, {}, {})
      ensures Settled(frame, signals.cancelled, signals.cancelCalled, current)
      ensures Spared(frame, old(signals), signals, {})
      ensures old(current in signals.cancelled && frame.scopeOf[current] in signals.cancelCalled) ==>
        signals == old(signals) && !changed
      ensures old(signals.cancelCalled) <= signals.cancelCalled && deadlines.heap == old(deadlines.heap)
      decreases frame.deadline.Keys - signals.cancelCalled, 4, 2
    {
      hide WellFormed, Propagated, HeapOk, Spared, Rooted, Reached;
      ghost var f, g := frame, signals;
      var called := CancelCalled(frame.scopeOf[current]);
      ghost var v := signals;
      ClosedStays(f, g, v, current);
      RootedStays(f, g, v, {}, {}, {}, current);
      var newState := called ||
        (current in frame.parent && frame.scopeOf[current] !in frame.shielded && frame.parent[current] in signals.cancelled);
      changed := newState != (current in signals.cancelled);
      if changed {
        FlippedLater(f, g, v, current);
        signals := signals.(cancelled :=
          if newState then signals.cancelled + {current} else signals.cancelled - {current});
        ghost var w := signals;
        ghost var told := if newState then f.members[current] else {};
        if newState {
          TellTasks(current);
          Then(f, g, w, signals, f.children[current], told, {});
          SparedOthers(f, g, v, w, signals, current);
          StaysSettled(f, w, signals, {}, {}, {}, current);
        }
        Discharge(f, g, signals, f.children[current], told, {}, f.children[current], {}, {});
      }
    }

    method TellTasks(status: Status)
      requires Valid0() && status in frame.members
      requires status in signals.cancelled && Reached(frame, signals.cancelled, signals.cancelCalled, status)
      modifies this`signals, deadlines
      ensures Valid0() && Propagated(frame, old(signals), signals, {}, {}, {})
      ensures forall t :: t in frame.members[status] ==> Delivered(frame, signals.cancelled, signals.abortFunc, t)
      ensures Spared(frame, old(signals), signals, frame.members[status])
      ensures old(signals.cancelCalled) <= signals.cancelCalled && deadlines.heap == old(deadlines.heap)
      decreases frame.deadline.Keys - signals.cancelCalled, 4, 1
    {
      hide WellFormed, Propagated, HeapOk, Spared, Reached;
      ghost var f, g := frame, signals;
      Unchanged(f, g);
      SparedSame(f, g, g, f.members[status]);
      MembersHaveStatus(f, g, status);
      var order := Elements(frame.members[status]);
      assert forall t :: t in order ==> t in ToSet(order);
      for i := 0 to |order|
        invariant Valid0() && frame == f && g.cancelCalled <= signals.cancelCalled && deadlines.heap == old(deadlines.heap)
        invariant Propagated(f, g, signals, {}, {}, {}) && Spared(f, g, signals, f.members[status])
        invariant forall j :: 0 <= j < i ==> Delivered(f, signals.cancelled, signals.abortFunc, order[j])
      {
        ghost var u := signals;
        StaysReached(f, g, u, status);
        ReachedTasks(f, u, status, order[i]);
        AttemptDeliveryOfAnyPendingCancel(order[i]);
        SparedThen(f, g, u, signals, {}, {}, {}, f.members[status], {order[i]});
        Then(f, g, u, signals, {}, {}, {});
        StayDelivered(f, u, signals);
      }
      assert forall t :: t in frame.members[status] ==> t in ToSet(order);
    }

    /** The clean-up half of `_might_change_registered_deadline`. */
    method UpdateRegisteredDeadline(c: Scope)
      requires c in frame.deadline && deadlines.active == |signals.registered|
      requires HeapOk(deadlines.heap, signals.registered - {c}, frame.deadline.Keys)
      requires c in signals.registered ==> signals.registered[c] != Inf
      requires c in signals.registered && c in Reregistered(frame, signals, c) ==> Entry(signals.registered[c], c) in deadlines.heap
      modifies this`signals, deadlines
      ensures HeapOk(deadlines.heap, signals.registered, frame.deadline.Keys)
      ensures deadlines.active == |signals.registered|
      ensures signals == old(signals).(registered := Reregistered(frame, old(signals), c))
      ensures c !in signals.registered ==> deadlines.heap == old(deadlines.heap)
    {
      hide HeapOk;
      ghost var r, heap := signals.registered, deadlines.heap;
      var was := if c in signals.registered then signals.registered[c] else Inf;
      var now := if c !in frame.statusOf || c in signals.cancelCalled then Inf else frame.deadline[c];
      PutChanges(r, c, now);
      if was != now {
        signals := signals.(registered := if now == Inf then signals.registered - {c} else signals.registered[c := now]);
        deadlines.Change(was, now, c, r, frame.deadline.Keys);
      } else {
        SortedHeap(heap, r - {c}, frame.deadline.Keys);
        PutInHeap(heap, r, frame.deadline.Keys, c, now, heap);
      }
    }

    method Cancel(c: Scope)
      requires WellFormed(frame, signals) && deadlines.active == |signals.registered|
      requires HeapOk(deadlines.heap, signals.registered - {c}, frame.deadline.Keys)
      requires c in frame.deadline && InPlace(frame, c)
      modifies this`signals, deadlines
      ensures Valid0() && Propagated(frame, old(signals), signals, {}, {}, {c})
      ensures c in signals.cancelCalled && old(signals.cancelCalled) <= signals.cancelCalled
      ensures deadlines.heap == old(deadlines.heap)
      ensures Spared(frame, old(signals), signals, {})
      ensures (c in frame.statusOf ==> frame.statusOf[c] in old(signals.cancelled)) ==>
        signals.abortFunc == old(signals.abortFunc) && signals.cancelled == old(signals.cancelled)
      decreases frame.deadline.Keys - signals.cancelCalled, 1
    {
      hide WellFormed, Propagated, HeapOk, Spared;
      ghost var f, g := frame, signals;
      if c in signals.cancelCalled {
        Unchanged(f, g);
        SparedSame(f, g, g, {});
        Discharge(f, g, g, {}, {}, {}, {}, {}, {c});
        CancelledNotRegistered(f, g, c);
        return;
      }
      FlaggedPropagated(f, g, c);
      StatusInPlace(f, g, c);
      signals := signals.(cancelCalled := signals.cancelCalled + {c});
      UpdateRegisteredDeadline(c);
      ghost var h := signals;
      assert h == Flagged(g, c);
      SparedSame(f, g, h, {});
      if c in frame.statusOf {
        Recalculate(frame.statusOf[c]);
        SparedThen(f, g, h, signals, {f.statusOf[c]}, {}, {c}, {}, {});
        Then(f, g, h, signals, {frame.statusOf[c]}, {}, {c});
        Discharge(f, g, signals, {frame.statusOf[c]}, {}, {c}, {}, {}, {c});
      }
    }

    /** The `cancel_called` getter, which can itself cancel when the clock has passed the deadline. */
    method CancelCalled(c: Scope) returns (called: bool)
      requires Valid0() && c in frame.deadline
      modifies this`signals, deadlines
      ensures Valid0() && Propagated(frame, old(signals), signals, {}, {}, {})
      ensures called == (c in signals.cancelCalled) && old(signals.cancelCalled) <= signals.cancelCalled
      ensures deadlines.heap == old(deadlines.heap)
      ensures Spared(frame, old(signals), signals, {})
      ensures c in old(signals.cancelCalled) ==> signals == old(signals)
      decreases frame.deadline.Keys - signals.cancelCalled, 2
    {
      hide WellFormed, Propagated, HeapOk, Spared;
      ghost var f, g := frame, signals;
      Unchanged(f, g);
      SparedSame(f, g, g, {});
      if c in frame.statusOf || c !in frame.entered {
        if c !in signals.cancelCalled {
          var now := CurrentTime();
          ghost var h := signals;
          ClockRead(f, g, now);
          SparedSame(f, g, h, {});
          if Le(frame.deadline[c], At(now)) {
            UnenteredInPlace(f, g, c);
            FewerRegistered(deadlines.heap, g.registered, f.deadline.Keys, c);
            Cancel(c);
            LatestClock(f, h, signals, c);
            SparedThen(f, g, h, signals, {}, {}, {}, {}, {});
            Then(f, g, h, signals, {}, {}, {});
          }
        }
      }
      called := c in signals.cancelCalled;
    }

    // ---------- operations of the program ----------

    ghost predicate Valid()
      reads this, deadlines
    {
      ValidBut(NO_GAPS)
    }

    ghost predicate ValidBut(x: Gaps)
      reads this, deadlines
    {
      && Sound(frame, signals, x)
      && HeapOk(deadlines.heap, signals.registered, frame.deadline.Keys)
      && deadlines.active == |signals.registered|
    }

    /** A new `CancelScope` object. */
    method NewScope(c: Scope, deadline: Time, shield: bool)
      requires Valid() && c !in frame.deadline
      modifies this`frame
      ensures Valid()
      ensures frame == old(frame).(deadline := old(frame.deadline)[c := deadline], shielded := Toggled(old(frame.shielded), c, shield))
    {
      hide WellFormed, Propagated, Sound;
      NewScopeSound(frame, signals, NO_GAPS, c, deadline, shield);
      MoreScopes(deadlines.heap, signals.registered, frame.deadline.Keys, frame.deadline[c := deadline].Keys);
      frame := frame.(deadline := frame.deadline[c := deadline], shielded := if shield then frame.shielded + {c} else frame.shielded - {c});
    }

    /** A task that may have come under a cancelled status is told of it. */
    method Tell(task: Task, ghost x: Gaps)
      requires ValidBut(x.(tasks := x.tasks + {task})) && task in frame.taskStatus
      requires task in signals.abortFunc ==> x.statuses == {}
      modifies this`signals, deadlines
      ensures ValidBut(x) && Effects(frame, old(signals), signals, {})
      ensures old(signals.cancelCalled) <= signals.cancelCalled
      ensures x.statuses == {} ==> old(signals.cancelled) <= signals.cancelled
      ensures task !in old(signals.abortFunc) || frame.taskStatus[task] !in old(signals.cancelled) ==> signals == old(signals)
      ensures frame.taskStatus[task] in old(signals.cancelled) ==> task !in signals.abortFunc
      ensures task in old(signals.abortFunc) && task !in old(signals.nextSend) && task !in signals.abortFunc ==>
        (task in signals.nextSend <==> old(signals.abortFunc)[task] == QueueAbort(Succeeded))
    {
      hide WellFormed, Propagated, HeapOk, Sound, Effects, Spared, InCancelled;
      ghost var f, g, y := frame, signals, x.(tasks := x.tasks + {task});
      SoundWellFormed(f, g, y);
      SoundLinked(f, g, y);
      if task in g.abortFunc { SoundInCancelled(f, g, y, task); }
      AttemptDeliveryOfAnyPendingCancel(task);
      PropagatedSound(f, g, signals, y, {});
      if y.statuses == {} { CancelledGrows(f, g, signals, y, {}); }
      PropagatedEffects(f, g, signals, {}, {}, {});
      if task in g.abortFunc && task !in g.nextSend { WokenByAbort(f, g, signals, {}, task); }
      Filled(f, signals, y, x);
    }

    /** `_activate_cancel_status`: a task changes its status, and hears of a cancellation it comes under. */
    method Activate(task: Task, status: Option<Status>, ghost x: Gaps)
      requires ValidBut(x) && task in frame.pauses && (status.Some? ==> status.value in frame.scopeOf)
      requires task in signals.abortFunc ==> x.statuses == {}
      modifies this, deadlines
      ensures ValidBut(x) && Effects(frame, old(signals), signals, {})
      ensures frame == old(frame).(members := frame.members,
        taskStatus := if status.Some? then old(frame.taskStatus)[task := status.value] else old(frame.taskStatus) - {task})
      ensures task !in old(signals.abortFunc) || status.None? ==> signals == old(signals)
      ensures x.statuses == {} ==> old(signals.cancelled) <= signals.cancelled
    {
      hide WellFormed, HeapOk, Sound, Effects;
      Deactivate(task, x);
      if status.Some? {
        Join(task, status.value, x);
      } else {
        NoEffects(frame, signals, signals);
        Filled(frame, signals, x.(tasks := x.tasks + {task}), x);
      }
    }

    method Join(task: Task, s: Status, ghost x: Gaps)
      requires ValidBut(x.(tasks := x.tasks + {task})) && task in frame.pauses && task !in frame.taskStatus && s in frame.scopeOf
      requires task in signals.abortFunc ==> x.statuses == {}
      modifies this, deadlines
      ensures ValidBut(x) && Effects(frame, old(signals), signals, {})
      ensures frame == old(frame).(members := frame.members, taskStatus := old(frame.taskStatus)[task := s])
      ensures task !in old(signals.abortFunc) ==> signals == old(signals)
      ensures x.statuses == {} ==> old(signals.cancelled) <= signals.cancelled
    {
      hide WellFormed, HeapOk, Sound, Effects;
      ghost var y := x.(tasks := x.tasks + {task});
      ActiveInSound(frame, signals, y, task, s);
      assert y.tasks + {task} == y.tasks;
      frame := frame.(members := frame.members[s := frame.members[s] + {task}], taskStatus := frame.taskStatus[task := s]);
      Tell(task, x);
    }

    method Deactivate(task: Task, ghost x: Gaps)
      requires ValidBut(x) && task in frame.pauses
      modifies this`frame
      ensures ValidBut(x.(tasks := x.tasks + {task}))
      ensures frame == old(frame).(members := frame.members, taskStatus := old(frame.taskStatus) - {task})
    {
      hide WellFormed, HeapOk, Sound;
      InactiveSound(frame, signals, x, task);
      InactiveKeeps(frame, task);
      if task in frame.taskStatus {
        var was := frame.taskStatus[task];
        frame := frame.(members := frame.members[was := frame.members[was] - {task}], taskStatus := frame.taskStatus - {task});
      }
    }

    /** The same for a state in which the rest of the operation may still have to be done. */
    method RefreshRegisteredDeadline(c: Scope, ghost x: Gaps)
      requires ValidBut(x) && c in frame.deadline
      modifies this`signals, deadlines
      ensures ValidBut(x.(scopes := x.scopes - {c}))
      ensures signals == old(signals).(registered := Reregistered(frame, old(signals), c))
    {
      hide WellFormed, HeapOk, Sound, Reregistered;
      ghost var g := signals;
      SoundWellFormed(frame, g, x);
      StatusInPlace(frame, g, c);
      FewerRegistered(deadlines.heap, g.registered, frame.deadline.Keys, c);
      RegisteredInHeap(deadlines.heap, g.registered, frame.deadline.Keys, c);
      UpdateRegisteredDeadline(c);
      ReregisteredSound(frame, g, x, c);
    }

    /** The check on entry to a scope. */
    method CancelIfLate(c: Scope)
      requires Valid() && c in frame.deadline && c !in frame.statusOf
      modifies this`signals, deadlines
      ensures Valid() && Effects(frame, old(signals), signals, {})
      ensures Le(frame.deadline[c], At(old(signals.clock))) ==> c in signals.cancelCalled
      ensures signals.abortFunc == old(signals.abortFunc)
    {
      hide WellFormed, Propagated, HeapOk, Sound, Effects;
      ghost var f, g := frame, signals;
      var now := CurrentTime();
      ghost var h := signals;
      SoundWellFormed(f, g, NO_GAPS);
      SoundInPlace(f, g, c);
      ClockRead(f, g, now);
      if Le(frame.deadline[c], At(now)) {
        FewerRegistered(deadlines.heap, g.registered, f.deadline.Keys, c);
        Cancel(c);
        LatestClock(f, h, signals, c);
        Then(f, g, h, signals, {}, {}, {});
      }
      PropagatedSound(f, g, signals, NO_GAPS, {});
      PropagatedEffects(f, g, signals, {}, {}, {});
    }

    /** The constructor of `CancelStatus`. Without a parent nothing is recalculated. */
    method NewStatus(c: Scope, parent: Option<Status>) returns (s: Status)
      requires ValidBut(NO_GAPS) && c in frame.entered && (parent.Some? ==> parent.value in frame.scopeOf)
      requires c !in frame.statusOf && (forall z :: z in frame.scopeOf ==> frame.scopeOf[z] != c)
      requires forall t :: !ExitsNursery(signals, t, c)
      modifies this, deadlines
      ensures s == old(frame.nextStatus) && s !in old(frame.scopeOf) && ValidBut(Gaps({s}, {}, {}))
      ensures frame == old(frame).(nextStatus := s + 1, scopeOf := old(frame.scopeOf)[s := c],
        parent := if parent.Some? then old(frame.parent)[s := parent.value] else old(frame.parent),
        children := frame.children, members := frame.members)
      ensures s !in frame.closed && Effects(frame, old(signals), signals, {})
      ensures old(signals.cancelCalled) <= signals.cancelCalled
      ensures Settled(frame, signals.cancelled, signals.cancelCalled, s) <==> parent.Some? || c !in signals.cancelCalled
      ensures parent.None? ==> signals == old(signals) && s !in signals.cancelled
    {
      hide WellFormed, Propagated, HeapOk, Sound, Effects;
      ghost var f, g := frame, signals;
      s := frame.nextStatus;
      ghost var x := Gaps({s}, {}, {});
      SoundWellFormed(f, g, NO_GAPS);
      SoundLinked(f, g, NO_GAPS);
      WithStatusSound(f, g, NO_GAPS, c);
      assert {} + {s} == {s} && {s} + {s} == {s};
      frame := frame.(nextStatus := s + 1, scopeOf := frame.scopeOf[s := c], children := frame.children[s := {}], members := frame.members[s := {}]);
      ghost var d := frame;
      NoEffects(d, g, signals);
      if parent.Some? {
        AttachedSound(d, g, x, s, parent.value);
        frame := frame.(children := frame.children[parent.value := frame.children[parent.value] + {s}], parent := frame.parent[s := parent.value]);
        SoundWellFormed(frame, g, x);
        SoundRooted(frame, g, x, s);
        Recalculate(s);
        PropagatedSound(frame, g, signals, x, {});
        PropagatedEffects(frame, g, signals, {}, {}, {});
      }
    }

    /** The second half of `__enter__`: the scope learns its status, and the task moves into it. */
    method MoveIn(task: Task, c: Scope, s: Status)
      requires ValidBut(Gaps({s}, {}, {})) && task in frame.pauses && task !in signals.abortFunc
      requires s in frame.scopeOf && frame.scopeOf[s] == c && s !in frame.closed && c !in frame.statusOf && c in frame.deadline
      modifies this, deadlines
      ensures frame == old(frame).(statusOf := old(frame.statusOf)[c := s], taskStatus := old(frame.taskStatus)[task := s], members := frame.members)
      ensures Effects(frame, old(signals), signals, {})
      ensures signals.cancelled == old(signals.cancelled) && signals.cancelCalled == old(signals.cancelCalled)
      ensures ValidBut(if Settled(old(frame), old(signals.cancelled), old(signals.cancelCalled), s) then NO_GAPS else Gaps({s}, {}, {}))
    {
      hide WellFormed, Propagated, HeapOk, Sound, Effects;
      ghost var g := signals;
      ghost var settled := Settled(frame, g.cancelled, g.cancelCalled, s);
      ghost var x := Gaps(if settled then {} else {s}, {}, {c});
      WithHomeSound(frame, g, Gaps({s}, {}, {}), s);
      assert {s} - {s} == {} && {} + {c} == {c} && {c} - {c} == {};
      frame := frame.(statusOf := frame.statusOf[c := s]);
      Activate(task, Some(s), x);
      RefreshRegisteredDeadline(c, x);
      NoEffects(frame, g, signals);
    }

    /** The first half of `__enter__`: the check for a deadline in the past, and the new status. */
    method BeginEntry(c: Scope, parent: Option<Status>) returns (s: Status)
      requires Valid() && c in frame.deadline && c !in frame.entered && (parent.Some? ==> parent.value in frame.scopeOf)
      modifies this, deadlines
      ensures s == old(frame.nextStatus) && ValidBut(Gaps({s}, {}, {})) && s !in frame.closed && s in frame.scopeOf && c !in frame.statusOf
      ensures frame == old(frame).(entered := old(frame.entered) + {c}, nextStatus := s + 1, scopeOf := old(frame.scopeOf)[s := c],
        parent := if parent.Some? then old(frame.parent)[s := parent.value] else old(frame.parent),
        children := frame.children, members := frame.members)
      ensures Effects(frame, old(signals), signals, {})
      ensures Le(frame.deadline[c], At(old(signals.clock))) ==> c in signals.cancelCalled
      ensures Settled(frame, signals.cancelled, signals.cancelCalled, s) <==> parent.Some? || c !in signals.cancelCalled
      ensures parent.None? ==> s !in signals.cancelled
    {
      hide WellFormed, Propagated, HeapOk, Sound, Effects, Settled, Extends;
      ghost var f, g := frame, signals;
      SoundWellFormed(f, g, NO_GAPS);
      NotEntered(f, g, c);
      EnteredSound(f, g, NO_GAPS, c);
      frame := frame.(entered := frame.entered + {c});
      CancelIfLate(c);
      ghost var d, h := frame, signals;
      NoExits(g, h, c);
      s := NewStatus(c, parent);
      ExtendedByStatus(d, frame, g.abortFunc, s);
      EffectsGoOn(d, frame, g, h, signals);
    }

    /** `__enter__`; a scope can be used once. */
    method Enter(task: Task, c: Scope) returns (ok: bool)
      requires Valid() && Running(frame, signals, task) && c in frame.deadline
      modifies this, deadlines
      ensures ok == (c !in old(frame.entered))
      ensures !ok ==> frame == old(frame) && signals == old(signals) && Valid()
      ensures ok ==> HasEntered(old(frame), frame, task, c)
      ensures ok ==> Effects(frame, old(signals), signals, {}) && Running(frame, signals, task)
      ensures ok && Le(frame.deadline[c], At(old(signals.clock))) ==> c in signals.cancelCalled
      ensures ok && (task in old(frame.taskStatus) || c !in signals.cancelCalled) ==> Valid()
      ensures ok && !(task in old(frame.taskStatus) || c !in signals.cancelCalled) ==>
        ValidBut(Gaps({old(frame.nextStatus)}, {}, {})) && old(frame.nextStatus) !in signals.cancelled
    {
      hide WellFormed, Propagated, HeapOk, Sound, Effects, Settled, Reregistered, Running, Extends, HasEntered;
      ok := c !in frame.entered;
      if !ok { return; }
      ghost var f, g := frame, signals;
      SoundLinked(f, g, NO_GAPS);
      var s := BeginEntry(c, if task in frame.taskStatus then Some(frame.taskStatus[task]) else None);
      ghost var e, v := frame, signals;
      StaysRunning(f, g, e, v, {}, task);
      RunningNotBlocked(e, v, task);
      MoveIn(task, c, s);
      RunningNotBlocked(f, g, task);
      ExtendedByTask(e, frame, g.abortFunc, task, s);
      RunningMoved(f, g, e, frame, v, signals, task);
      EnteredNow(f, e, frame, task, c);
    }

    /** The `parent` setter: only a new parent makes it recalculate. */
    method SetParent(s: Status, parent: Option<Status>)
      requires Valid() && s in frame.scopeOf && s !in frame.closed
      requires parent.Some? ==> parent.value in frame.scopeOf && parent.value < s
      modifies this, deadlines
      ensures frame == old(frame).(children := frame.children,
        parent := if parent.Some? then old(frame.parent)[s := parent.value] else old(frame.parent) - {s})
      ensures Effects(frame, old(signals), signals, {})
      ensures parent.Some? ==> Valid()
      ensures s !in old(frame.parent) ==> old(signals.cancelled) <= signals.cancelled
      ensures parent.None? ==> signals == old(signals) && ValidBut(Gaps({s}, {}, {}))
      ensures parent.None? && !ParentCancellationIsVisible(old(frame), old(signals.cancelled), s) ==> Valid()
    {
      hide WellFormed, HeapOk, Sound, Effects, ParentCancellationIsVisible, Housed;
      Detach(s);
      if parent.Some? {
        Attach(s, parent.value);
      }
    }

    method Detach(s: Status)
      requires Valid() && s in frame.scopeOf && s !in frame.closed
      modifies this`frame
      ensures frame == old(frame).(children := frame.children, parent := old(frame.parent) - {s})
      ensures frame.children.Keys == frame.scopeOf.Keys && Housed(frame, s)
      ensures ValidBut(Gaps({s}, {}, {})) && Effects(frame, signals, signals, {})
      ensures s !in old(frame.parent) || !ParentCancellationIsVisible(old(frame), signals.cancelled, s) ==> Valid()
    {
      hide WellFormed, HeapOk, Sound, Effects, ParentCancellationIsVisible;
      ghost var f, g := frame, signals;
      SoundLinked(f, g, NO_GAPS);
      DetachedSound(f, g, NO_GAPS, s);
      assert {} + {s} == {s};
      if !ParentCancellationIsVisible(f, g.cancelled, s) {
        DetachedQuietly(f, g, NO_GAPS, s);
      }
      if s in frame.parent {
        var p := frame.parent[s];
        frame := frame.(children := frame.children[p := frame.children[p] - {s}], parent := frame.parent - {s});
      }
      DetachedKeeps(f, s);
      SoundHoused(f, g, NO_GAPS, s);
      NoEffects(frame, g, g);
    }

    method Attach(s: Status, p: Status)
      requires ValidBut(Gaps({s}, {}, {})) && Housed(frame, s)
      requires s in frame.scopeOf && s !in frame.closed && s !in frame.parent && p in frame.children && p in frame.scopeOf && p < s
      modifies this, deadlines
      ensures frame == old(frame).(children := frame.children, parent := old(frame.parent)[s := p])
      ensures Valid() && Effects(frame, old(signals), signals, {})
      ensures old(Valid()) ==> old(signals.cancelled) <= signals.cancelled
    {
      hide WellFormed, Propagated, HeapOk, Sound, Effects;
      ghost var f, g, y := frame, signals, Gaps({s}, {}, {});
      AttachedSound(f, g, y, s, p);
      assert y.statuses + {s} == y.statuses;
      frame := frame.(children := frame.children[p := frame.children[p] + {s}], parent := frame.parent[s := p]);
      SoundWellFormed(frame, g, y);
      SoundRooted(frame, g, y, s);
      Recalculate(s);
      if old(Valid()) { AttachedGrows(f, g, signals, s, p); }
      PropagatedSound(frame, g, signals, y, {});
      PropagatedEffects(frame, g, signals, {}, {}, {});
      Filled(frame, signals, y, NO_GAPS);
    }

    method EnclosesStatus(s: Status, other: Option<Status>) returns (r: bool)
      requires Linked(frame)
      ensures r <==> other.Some? && Encloses(frame.parent, s, other.value)
    {
      var current := other;
      while current.Some?
        invariant other.Some? && current.None? ==> !Encloses(frame.parent, s, other.value)
        invariant current.Some? ==> other.Some? && (Encloses(frame.parent, s, other.value) <==> Encloses(frame.parent, s, current.value))
        decreases current.Some?, if current.Some? then current.value else 0
      {
        if current.value == s { return true; }
        current := if current.value in frame.parent then Some(frame.parent[current.value]) else None;
      }
      r := false;
    }

    /** `_mark_abandoned`, which marks exactly the statuses that `s` encloses. */
    method MarkAbandoned(s: Status)
      requires Linked(frame) && s in frame.scopeOf
      modifies this`frame
      ensures frame == old(frame).(abandoned := frame.abandoned)
      ensures forall z :: z in frame.abandoned <==> z in old(frame.abandoned) || (z in frame.scopeOf && Encloses(frame.parent, s, z))
      decreases frame.nextStatus - s
    {
      hide Linked, Encloses;
      ghost var f, before := frame, frame.abandoned;
      frame := frame.(abandoned := frame.abandoned + {s});
      EnclosesItself(f.parent, s);
      LinkedKeys(f);
      LinkedSame(f, frame);
      var order := Elements(frame.children[s]);
      for i := 0 to |order|
        invariant Linked(frame) && frame == f.(abandoned := frame.abandoned)
        invariant before <= frame.abandoned && s in frame.abandoned
        invariant forall z :: z in frame.abandoned ==> z in before || (z in f.scopeOf && Encloses(f.parent, s, z))
        invariant forall j, z :: 0 <= j < i && z in f.scopeOf && Encloses(f.parent, order[j], z) ==> z in frame.abandoned
      {
        assert order[i] in ToSet(order);
        ChildLinked(f, s, order[i]);
        ghost var d := frame;
        MarkAbandoned(order[i]);
        LinkedSame(d, frame);
        assert forall z :: z in d.abandoned ==> z in frame.abandoned;
        forall z | z in f.scopeOf && Encloses(f.parent, order[i], z) ensures Encloses(f.parent, s, z) {
          EnclosesChild(f, s, order[i], z);
        }
      }
      forall z | z in f.scopeOf && Encloses(f.parent, s, z) ensures z in frame.abandoned {
        if z != s {
          EnclosedByChild(f, s, z);
          var c :| c in f.children[s] && Encloses(f.parent, c, z);
          assert c in ToSet(order);
        }
      }
    }

    method RecalculateChildren(s: Status)
      requires Valid0() && s in frame.children && s !in frame.children[s]
      requires forall c :: c in frame.children[s] ==> c in frame.scopeOf && c !in frame.closed
      requires s in frame.closed && s in frame.scopeOf
      modifies this`signals, deadlines
      ensures Valid0() && Propagated(frame, old(signals), signals, {}, {}, {})
      ensures forall c :: c in frame.children[s] ==> Settled(frame, signals.cancelled, signals.cancelCalled, c)
    {
      hide WellFormed, Propagated, HeapOk, Settled, Rooted, Spared;
      ghost var f, g := frame, signals;
      Unchanged(f, g);
      var order := Elements(frame.children[s]);
      assert forall c :: c in order ==> c in ToSet(order);
      for i := 0 to |order|
        invariant Valid0() && frame == f && Propagated(f, g, signals, {}, {}, {})
        invariant forall j :: 0 <= j < i ==> Settled(f, signals.cancelled, signals.cancelCalled, order[j])
      {
        ghost var u := signals;
        ChildOfClosed(f, u, s, order[i]);
        Recalculate(order[i]);
        Then(f, g, u, signals, {}, {}, {});
        StayAllSettled(f, u, signals);
      }
      assert forall c :: c in frame.children[s] ==> c in ToSet(order);
    }

    /** `close`: a status with tasks or children left becomes an abandoned root, cancelled for good. */
    method CloseStatus(s: Status)
      requires Valid() && s in frame.scopeOf && s !in frame.closed
      modifies this, deadlines
      ensures ValidBut(Gaps({s}, {}, {})) && Effects(frame, old(signals), signals, {})
      ensures s !in frame.parent && s in frame.members && s in frame.children
      ensures frame == old(frame).(parent := old(frame.parent) - {s}, children := frame.children, abandoned := frame.abandoned,
        closed := if frame.members[s] != {} || frame.children[s] != {} then old(frame.closed) + {s} else old(frame.closed))
      ensures frame.members[s] != {} || frame.children[s] != {} ==> s in signals.cancelled && (forall z ::
        z in frame.abandoned <==> z in old(frame.abandoned) || (z in frame.scopeOf && Encloses(frame.parent, s, z)))
      ensures frame.members[s] == {} && frame.children[s] == {} ==>
        frame.abandoned == old(frame.abandoned) && signals == old(signals)
    {
      hide WellFormed, Propagated, HeapOk, Sound, Effects, ParentCancellationIsVisible, Encloses;
      ghost var f, g := frame, signals;
      SetParent(s, None);
      ghost var x := Gaps({s}, {}, {});
      SoundLinked(frame, g, x);
      SoundLinks(frame, g, x);
      if frame.members[s] != {} || frame.children[s] != {} {
        MarkAbandoned(s);
        ghost var d := frame;
        MarkedSound(d.(abandoned := f.abandoned), d, g, x);
        AbandonedRootSound(d, g, x, s);
        ChildrenOpen(d, g, x, s);
        frame := frame.(closed := frame.closed + {s});
        signals := signals.(cancelled := signals.cancelled + {s});
        ghost var h := signals;
        NoEffects(frame, g, h);
        Abandon(s);
        EffectsThen(frame, g, h, signals, {});
      }
    }

    method Abandon(s: Status)
      requires s in frame.scopeOf && s in frame.members && s in frame.children && s in frame.closed && s in signals.cancelled
      requires ValidBut(Gaps({s} + {s} + frame.children[s], {} + frame.members[s], {}))
      requires forall c :: c in frame.children[s] ==> c in frame.scopeOf && c !in frame.closed && s < c
      requires forall z :: z != s ==> Housed(frame, z)
      modifies this`signals, deadlines
      ensures ValidBut(Gaps({s}, {}, {})) && s in signals.cancelled
      ensures Effects(frame, old(signals), signals, {})
    {
      hide WellFormed, Propagated, HeapOk, Sound, Effects;
      ghost var f, g := frame, signals;
      ghost var x := Gaps({s} + {s} + frame.children[s], {} + frame.members[s], {});
      SoundWellFormed(f, g, x);
      TellTasks(s);
      ghost var h := signals;
      PropagatedSound(f, g, h, x, {});
      ClosedStays(f, g, h, s);
      RecalculateChildren(s);
      PropagatedSound(f, h, signals, x, {});
      ClosedStays(f, h, signals, s);
      StayDelivered(f, h, signals);
      Filled(f, signals, x, Gaps({s}, {}, {}));
      Then(f, g, h, signals, {}, {}, {});
      PropagatedEffects(f, g, signals, {}, {}, {});
    }

    /** The end of `_close`: the scope forgets its status, and its deadline is not registered any more. */
    method Forget(c: Scope)
      requires c in frame.statusOf && c in frame.deadline && frame.statusOf[c] !in frame.parent
      requires ValidBut(Gaps({frame.statusOf[c]}, {}, {}))
      modifies this, deadlines
      ensures Valid() && Effects(frame, old(signals), signals, {})
      ensures frame == old(frame).(statusOf := old(frame.statusOf) - {c}, closed := old(frame.closed) + {old(frame.statusOf)[c]})
      ensures signals == old(signals).(registered := signals.registered) && c !in signals.registered
    {
      hide WellFormed, HeapOk, Sound, Effects;
      ghost var g := signals;
      var s := frame.statusOf[c];
      WithoutHomeSound(frame, g, Gaps({s}, {}, {}), c);
      assert {s} - {s} == {} && {} + {c} == {c} && {c} - {c} == {};
      frame := frame.(statusOf := frame.statusOf - {c}, closed := frame.closed + {s});
      RefreshRegisteredDeadline(c, Gaps({}, {}, {c}));
      NoEffects(frame, g, signals);
    }

    /** The first part of `_close`: who is leaving, and are the scopes nested as they should be? */
    method LeaveScope(task: Task, c: Scope) returns (exit: ExitCase)
      requires Valid() && Running(frame, signals, task)
      modifies this, deadlines
      ensures Valid() && signals == old(signals) && exit == Exit(old(frame), task, c)
      ensures exit == Refused || exit == AlreadyAbandoned ==> frame == old(frame)
      ensures exit != Refused ==> c in old(frame.statusOf)
      ensures exit == Nested || exit == Misnested ==>
        frame == old(frame).(taskStatus := MovedOut(old(frame), task, old(frame.statusOf)[c]), members := frame.members)
    {
      hide WellFormed, HeapOk, Sound, Effects, Encloses;
      if c !in frame.statusOf { return Refused; }
      OpenStatus(frame, signals, c);
      SoundLinks(frame, signals, NO_GAPS);
      var s := frame.statusOf[c];
      if task in frame.taskStatus && frame.taskStatus[task] == s {
        exit := Nested;
      } else if s in frame.abandoned {
        return AlreadyAbandoned;
      } else {
        var below := EnclosesStatus(s, if task in frame.taskStatus then Some(frame.taskStatus[task]) else None);
        if !below { return Refused; }
        exit := Misnested;
      }
      Activate(task, if s in frame.parent then Some(frame.parent[s]) else None, NO_GAPS);
    }

    /** The middle part of `_close`. */
    method CatchIn(c: Scope, exc: Option<Exc>) returns (rest: Option<Exc>)
      requires Valid() && c in frame.statusOf
      modifies this`frame
      ensures Valid()
      ensures var catches := exc.Some? && Catches(old(frame), signals.cancelled, c);
        && rest == (if catches then Catch(exc.value).1 else exc)
        && frame == old(frame).(caught := if catches && Catch(exc.value).0 then old(frame.caught) + {c} else old(frame.caught))
    {
      hide WellFormed, HeapOk, Sound, Catch;
      OpenStatus(frame, signals, c);
      var s := frame.statusOf[c];
      rest := exc;
      if exc.Some? && s in signals.cancelled && !(s in frame.parent && c !in frame.shielded && frame.parent[s] in signals.cancelled) {
        var (caught, left) := Catch(exc.value);
        rest := left;
        if caught {
          MarkedSound(frame, frame.(caught := frame.caught + {c}), signals, NO_GAPS);
          frame := frame.(caught := frame.caught + {c});
        }
      }
    }

    /** `_close`: the exit from a scope with the exception `exc`, if any; what it lets through. */
    method CloseScope(task: Task, c: Scope, exc: Option<Exc>) returns (rest: Option<Exc>)
      requires Valid() && Running(frame, signals, task)
      modifies this, deadlines
      ensures Valid() && Running(frame, signals, task) && Effects(frame, old(signals), signals, {})
      ensures HasClosed(old(frame), old(signals), frame, signals, task, c, exc, rest)
    {
      hide WellFormed, HeapOk, Sound, Effects, ParentCancellationIsVisible, Encloses, Catch, Exit, HasClosed, Catches;
      ghost var f, g := frame, signals;
      NoEffects(f, g, g);
      var exit := LeaveScope(task, c);
      if exit == Refused {
        RefusedClosed(f, g, task, c, exc);
        return Some(StackCorrupted);
      }
      var s := frame.statusOf[c];
      OpenStatus(frame, g, c);
      SameCatches(f, frame, g.cancelled, c);
      rest := CatchIn(c, Raised(exit, exc));
      CloseStatus(s);
      ghost var d, h := frame, signals;
      Forget(c);
      ClosedEffects(d, frame, g, h, signals, s);
      StaysRunning(f, g, frame, signals, {}, task);
      CaseClosed(f, g, d, frame, signals, task, c, exc, rest);
    }

    /** The `cancel` method, as the program calls it. */
    method CancelScope(c: Scope)
      requires Valid() && c in frame.deadline
      modifies this`signals, deadlines
      ensures Valid() && c in signals.cancelCalled
      ensures Propagated(frame, old(signals), signals, {}, {}, {c}) && old(signals.cancelled) <= signals.cancelled
    {
      hide WellFormed, Propagated, HeapOk, Sound;
      SoundWellFormed(frame, signals, NO_GAPS);
      SoundInPlace(frame, signals, c);
      FewerRegistered(deadlines.heap, signals.registered, frame.deadline.Keys, c);
      Cancel(c);
      PropagatedSound(frame, old(signals), signals, NO_GAPS, {c});
      CancelledGrows(frame, old(signals), signals, NO_GAPS, {c});
    }

    /** The `shield` setter. */
    method SetShield(c: Scope, value: bool)
      requires Valid() && c in frame.deadline
      modifies this, deadlines
      ensures Valid() && frame == old(frame).(shielded := Toggled(old(frame.shielded), c, value))
      ensures Effects(frame, old(signals), signals, {})
    {
      hide WellFormed, Propagated, HeapOk, Sound, Effects;
      ghost var f, g := frame, signals;
      ShieldSound(f, g, c, value);
      frame := frame.(shielded := Toggled(frame.shielded, c, value));
      if c in frame.statusOf {
        var s := frame.statusOf[c];
        ghost var x := Gaps({s}, {}, {});
        SoundWellFormed(frame, g, x);
        SoundRooted(frame, g, x, s);
        Recalculate(s);
        PropagatedSound(frame, g, signals, x, {});
        PropagatedEffects(frame, g, signals, {}, {}, {});
        Filled(frame, signals, x, NO_GAPS);
      } else {
        NoEffects(frame, g, g);
      }
    }

    /** The `deadline` setter. */
    method SetDeadline(c: Scope, d: Time)
      requires Valid() && c in frame.deadline
      modifies this, deadlines
      ensures Valid() && frame == old(frame).(deadline := old(frame.deadline)[c := d])
      ensures signals == old(signals).(registered := Reregistered(frame, old(signals), c))
    {
      hide WellFormed, HeapOk, Sound, Reregistered;
      DeadlineSound(frame, signals, c, d);
      assert frame.deadline[c := d].Keys == frame.deadline.Keys && {c} - {c} == {};
      frame := frame.(deadline := frame.deadline[c := d]);
      RefreshRegisteredDeadline(c, Gaps({}, {}, {c}));
    }

    // ---------- tasks ----------

    /** `reschedule`, as the program calls it for a task that is blocked. */
    method RescheduleTask(task: Task, send: Send, ghost x: Gaps)
      requires ValidBut(x) && task in frame.pauses && task in signals.queueings
      requires task !in signals.nextSend && signals.queueings[task] == frame.pauses[task]
      modifies this`signals
      ensures ValidBut(x) && signals == Rescheduled(old(signals), task, send)
    {
      hide WellFormed, HeapOk, Sound;
      SoundWellFormed(frame, signals, x);
      RescheduledSound(frame, signals, x, task, send);
      Reschedule(task, send);
    }

    /** The part of `spawn_impl` about the new task itself. */
    method Spawn(task: Task, status: Option<Status>)
      requires Valid() && task !in frame.pauses && (status.Some? ==> status.value in frame.scopeOf)
      modifies this, deadlines
      ensures Valid()
      ensures HasSpawned(old(frame), old(signals), frame, signals, task, status)
    {
      hide WellFormed, HeapOk, Sound, Effects;
      ghost var f, g := frame, signals;
      SpawnedSound(f, g, NO_GAPS, task);
      frame := frame.(pauses := frame.pauses[task := 0]);
      signals := signals.(queueings := signals.queueings[task := 0], abortCalls := signals.abortCalls[task := 0]);
      if status.Some? {
        Activate(task, status, NO_GAPS);
      }
      RescheduleTask(task, Value, NO_GAPS);
      assert signals.abortFunc == g.abortFunc && signals.queueings == g.queueings[task := 1];
    }

    /** The part of `task_exited` about the task itself. */
    method ExitTask(task: Task)
      requires Valid() && Running(frame, signals, task)
      modifies this, deadlines
      ensures Valid()
      ensures frame == old(frame).(pauses := old(frame.pauses) - {task}, members := frame.members, taskStatus := old(frame.taskStatus) - {task})
      ensures signals == old(signals).(abortCalls := old(signals.abortCalls) - {task}, queueings := old(signals.queueings) - {task})
    {
      hide WellFormed, HeapOk, Sound, Effects;
      Activate(task, None, NO_GAPS);
      ExitedSound(frame, signals, NO_GAPS, task);
      frame := frame.(pauses := frame.pauses - {task});
      signals := signals.(queueings := signals.queueings - {task}, abortCalls := signals.abortCalls - {task});
    }

    /** The run loop takes all scheduled tasks as its next batch, in an order of its choice. */
    method StartBatch(order: seq<Task>)
      requires Valid() && frame.batch == [] && multiset(order) == multiset(signals.runq)
      modifies this
      ensures Valid() && frame == old(frame).(batch := order) && signals == old(signals).(runq := [])
    {
      hide WellFormed, HeapOk, Sound;
      BatchSound(frame, signals, NO_GAPS, order);
      frame := frame.(batch := order);
      signals := signals.(runq := []);
    }

    /** The next task of the batch starts running; it had something to be sent. */
    method PopTask() returns (task: Task, send: Send)
      requires Valid() && frame.batch != []
      modifies this
      ensures Valid() && Running(frame, signals, task)
      ensures old(frame.batch) == frame.batch + [task] && frame == old(frame).(batch := frame.batch)
      ensures task in old(signals.nextSend) && send == old(signals.nextSend)[task]
      ensures signals == old(signals).(nextSend := old(signals.nextSend) - {task})
    {
      hide WellFormed, HeapOk, Sound;
      PoppedSound(frame, signals, NO_GAPS);
      task := frame.batch[|frame.batch| - 1];
      frame := frame.(batch := frame.batch[..|frame.batch| - 1]);
      send := signals.nextSend[task];
      signals := signals.(nextSend := signals.nextSend - {task});
    }

    /** A task pauses with `CancelShieldedCheckpoint`, or with a message that is not understood. */
    method PauseAndGoOn(task: Task, send: Send)
      requires Valid() && Running(frame, signals, task)
      modifies this
      ensures Valid() && frame == Paused(old(frame), task) && signals == Rescheduled(old(signals), task, send)
    {
      hide WellFormed, HeapOk, Sound;
      PausedSound(frame, signals, NO_GAPS, task);
      frame := frame.(pauses := frame.pauses[task := frame.pauses[task] + 1]);
      RescheduleTask(task, send, NO_GAPS);
    }

    /** A task that pauses leaves its abort function behind. */
    method Block(task: Task, abort: AbortFunc)
      requires Valid() && Running(frame, signals, task) && Callable(frame, abort)
      modifies this
      ensures ValidBut(Gaps({}, {task}, {})) && frame == Paused(old(frame), task) && signals == Waiting(old(signals), task, abort)
      ensures task !in old(signals.nextSend)
    {
      hide WellFormed, HeapOk, Sound;
      ghost var g := signals;
      PausedSound(frame, g, NO_GAPS, task);
      frame := frame.(pauses := frame.pauses[task := frame.pauses[task] + 1]);
      BlockedSound(frame, g, NO_GAPS, task, abort);
      assert NO_GAPS.(tasks := {} + {task}) == Gaps({}, {task}, {});
      signals := signals.(abortFunc := signals.abortFunc[task := abort]);
    }

    method AnswerInterrupt(task: Task, result: Abort)
      requires WellFormed(frame, signals) && task in frame.pauses
      requires task in signals.queueings && task in signals.abortCalls
      requires task !in signals.nextSend && signals.queueings[task] == frame.pauses[task]
      modifies this`signals
      ensures WellFormed(frame, signals) && signals == Interrupted(old(signals), task, result)
    {
      hide WellFormed;
      NotedWellFormed(frame, signals, task);
      signals := signals.(abortCalls := signals.abortCalls[task := signals.abortCalls[task] + 1]);
      signals := signals.(abortFunc := signals.abortFunc - {task});
      if result == Succeeded {
        Reschedule(task, RaiseError);
      }
    }

    /** A task pauses with `WaitTaskRescheduled`; a cancellation that is already there is delivered at once. */
    method PauseAndWait(task: Task, abort: AbortFunc)
      requires Valid() && Running(frame, signals, task) && task in frame.taskStatus && Callable(frame, abort)
      modifies this, deadlines
      ensures Valid() && frame == Paused(old(frame), task)
      ensures Effects(frame, Waiting(old(signals), task, abort), signals, {})
      ensures old(signals.cancelled) <= signals.cancelled
      ensures frame.taskStatus[task] in old(signals.cancelled) ==> task !in signals.abortFunc
      ensures frame.taskStatus[task] in old(signals.cancelled) ==> (task in signals.nextSend <==> abort == QueueAbort(Succeeded))
      ensures frame.taskStatus[task] !in old(signals.cancelled) ==> signals == Waiting(old(signals), task, abort)
      ensures old(signals.cancelCalled) <= signals.cancelCalled
    {
      hide WellFormed, HeapOk, Sound, Effects;
      Block(task, abort);
      assert NO_GAPS.(tasks := {} + {task}) == Gaps({}, {task}, {});
      Tell(task, NO_GAPS);
    }

    /**
     * The delivery of KeyboardInterrupt to the blocked main task. It calls the abort function without
     * asking about cancellation first, and a nursery's callback cancels the nursery's scope; if that
     * is what cancels the task's own status, the propagation finds the abort function still in place
     * and calls it again. `between` is the state after the callback and before its answer is used.
     */
    method DeliverKeyboardInterrupt(task: Task) returns (ghost between: Signals)
      requires ValidBut(Gaps({}, {task}, {})) && task in signals.abortFunc && task in frame.taskStatus
      modifies this`signals, deadlines
      ensures Valid() && task !in signals.abortFunc
      ensures Propagated(frame, old(signals), between, {}, {}, Cancels(old(signals.abortFunc)[task]))
      ensures old(signals.abortFunc)[task].QueueAbort? ==> between == old(signals)
      ensures Cancels(old(signals.abortFunc)[task]) <= between.cancelCalled
      ensures task in between.queueings && task in between.abortCalls && task in old(signals.abortCalls)
      ensures signals == Interrupted(between, task, AnswerOf(old(signals.abortFunc)[task]))
      ensures InterruptCounted(frame, old(signals), between, signals, task)
    {
      hide WellFormed, Propagated, HeapOk, Sound, Spared, InterruptCounted, Interrupted, Reenters;
      ghost var f, g, x := frame, signals, Gaps({}, {task}, {});
      SoundWellFormed(f, g, x);
      BlockedTask(f, g, task);
      var result := CallAbortFunc(task);
      between := signals;
      PropagatedSound(f, g, between, x, Cancels(g.abortFunc[task]));
      InterruptedSound(f, between, x, task, result);
      AnswerInterrupt(task, result);
      InterruptCalls(f, g, between, task);
      Filled(f, signals, x, NO_GAPS);
    }

    /** A task pauses with `WaitTaskRescheduled` while a KeyboardInterrupt is pending for it. */
    method PauseInterrupted(task: Task, abort: AbortFunc) returns (ghost between: Signals)
      requires Valid() && Running(frame, signals, task) && task in frame.taskStatus && Callable(frame, abort)
      modifies this, deadlines
      ensures Valid() && frame == Paused(old(frame), task) && task !in signals.abortFunc
      ensures Propagated(frame, Waiting(old(signals), task, abort), between, {}, {}, Cancels(abort))
      ensures task in between.queueings && task in between.abortCalls && task in old(signals.abortCalls)
      ensures signals == Interrupted(between, task, AnswerOf(abort))
      ensures InterruptCounted(frame, Waiting(old(signals), task, abort), between, signals, task)
    {
      hide WellFormed, HeapOk, Sound, Propagated, InterruptCounted, Interrupted;
      Block(task, abort);
      between := DeliverKeyboardInterrupt(task);
    }

    // ---------- the clock ----------

    /** `expire`: the scopes whose registered deadline is not after `now` are cancelled. */
    method Expire(now: real) returns (didSomething: bool)
      requires Valid()
      modifies this`signals, deadlines
      ensures Valid() && Propagated(frame, old(signals), signals, {}, {}, Due(old(signals.registered), now))
      ensures old(signals.cancelled) <= signals.cancelled
      ensures Due(signals.registered, now) == {}
      ensures Due(old(signals.registered), now) <= signals.cancelCalled
      ensures didSomething <==> Due(old(signals.registered), now) != {}
      ensures !didSomething ==> signals == old(signals)
      ensures |deadlines.heap| <= 2 * |signals.registered| + DEADLINE_HEAP_MIN_PRUNE_THRESHOLD
    {
      hide WellFormed, Propagated, HeapOk, Sound, Sorted;
      ghost var f, g := frame, signals;
      ghost var due := Due(g.registered, now);
      Unchanged(f, g);
      Discharge(f, g, g, {}, {}, {}, {}, {}, due);
      didSomething := false;
      while deadlines.heap != [] && Le(deadlines.heap[0].deadline, At(now))
        invariant Valid() && frame == f && Propagated(f, g, signals, {}, {}, due)
        invariant if didSomething then due != {} else signals == g
        decreases |deadlines.heap|
      {
        var head := deadlines.heap[0];
        if head.scope in signals.registered && signals.registered[head.scope] == head.deadline {
          StillRegistered(f, g, signals, due, head.scope);
          assert head.scope in due;
          didSomething := true;
          PopAndCancel(due, g);
        } else {
          PopStale(deadlines.heap, signals.registered, frame.deadline.Keys);
          deadlines.heap := deadlines.heap[1..];
        }
      }
      NothingDue(deadlines.heap, signals.registered, frame.deadline.Keys, now);
      DueCancelled(f, g, signals, now);
      CancelledGrows(f, g, signals, NO_GAPS, due);
      if |deadlines.heap| > deadlines.active * 2 + DEADLINE_HEAP_MIN_PRUNE_THRESHOLD {
        deadlines.Prune(signals.registered, frame.deadline.Keys);
      }
    }

    method PopAndCancel(ghost due: set<Scope>, ghost g: Signals)
      requires Valid() && Propagated(frame, g, signals, {}, {}, due)
      requires deadlines.heap != [] && deadlines.heap[0].scope in due
      modifies this`signals, deadlines
      ensures Valid() && Propagated(frame, g, signals, {}, {}, due)
      ensures deadlines.heap == old(deadlines.heap)[1..]
    {
      hide WellFormed, Propagated, HeapOk, Sound, Sorted;
      ghost var u := signals;
      var c := deadlines.heap[0].scope;
      PopLive(deadlines.heap, signals.registered, frame.deadline.Keys);
      SoundWellFormed(frame, u, NO_GAPS);
      SoundInPlace(frame, u, c);
      deadlines.heap := deadlines.heap[1..];
      Cancel(c);
      PropagatedSound(frame, u, signals, NO_GAPS, {c});
      ThenOneMore(frame, g, u, signals, due, c);
    }
  }
}
