/**
 * Cancel scopes, cancel statuses, deadlines and task wake-up of `trio/_core/_run.py`.
 *
 * Objects of the source that refer to each other in cycles (tasks, statuses, scopes) are numbers
 * here, and each of their attributes is a map or a set held by the `Runner`: an attribute that may
 * be None is a partial map, a boolean attribute is the set of those that have it. The proofs are
 * about snapshots of these attributes: `Frame`, which a propagation of cancellation leaves alone,
 * and `Signals`, which it changes.
 */
module CancelState {
  import opened Collections
  import opened Times
  import opened DeadlineHeap

  type Task = int
  type Status = int

  datatype Abort = Succeeded | Failed

  /**
   * What a blocked task has left behind to be called on cancellation. `QueueAbort` takes the task off
   * its own wait queue and answers `result`; `NurseryExit` is the callback of a nursery's `__aexit__`,
   * which cancels the nursery's scope, and so re-enters the propagation, before it answers `Failed`.
   */
  datatype AbortFunc = QueueAbort(result: Abort) | NurseryExit(scope: Scope)

  /** What a task finds when it runs again. */
  datatype Send = Value | RaiseCancelled | RaiseError

  /** The attributes that a propagation of cancellation leaves alone. */
  datatype Frame = Frame(
    // tasks
    taskStatus: map<Task, Status>,          // `_cancel_status`
    pauses: map<Task, nat>,                 // how often the task gave control back without exiting
    batch: seq<Task>,                       // what is left of the batch the run loop is working through
    // cancel statuses
    nextStatus: Status,
    scopeOf: map<Status, Scope>,            // `_scope`
    parent: map<Status, Status>,
    children: map<Status, set<Status>>,
    members: map<Status, set<Task>>,        // `_tasks`
    abandoned: set<Status>,                 // `abandoned_by_misnesting`
    // cancel scopes
    statusOf: map<Scope, Status>,           // `_cancel_status`
    entered: set<Scope>,                    // `_has_been_entered`
    deadline: map<Scope, Time>,
    shielded: set<Scope>,
    caught: set<Scope>,                     // `cancelled_caught`
    closed: set<Status>)                    // the statuses that their scope has forgotten, or is about to

  /** The attributes that a propagation changes. */
  datatype Signals = Signals(
    cancelled: set<Status>,                 // `effectively_cancelled`
    cancelCalled: set<Scope>,
    registered: map<Scope, Time>,           // `_registered_deadline`, where it is not infinite
    clock: real,                            // the last reading of the clock
    abortFunc: map<Task, AbortFunc>,
    nextSend: map<Task, Send>,              // `_next_send`, for the scheduled tasks
    runq: seq<Task>,
    queueings: map<Task, nat>,              // how often the task was put on the run queue
    abortCalls: map<Task, nat>)             // how often an abort function of the task was called

  const NO_FRAME := Frame(map[], map[], [], 0, map[], map[], map[], map[], {}, map[], {}, map[], {}, {}, {})

  function NoSignals(now: real): Signals {
    Signals({}, {}, map[], now, map[], map[], [], map[], map[])
  }

  // ---------- invariants ----------

  /** The parent and child links mirror each other, and so do a task's status and a status's tasks. */
  ghost predicate Linked(f: Frame) {
    && 0 <= f.nextStatus && f.children.Keys == f.scopeOf.Keys && f.members.Keys == f.scopeOf.Keys
    && StatusesLinked(f.nextStatus, f.scopeOf, f.parent, f.children)
    && TasksLinked(f.scopeOf, f.taskStatus, f.members, f.pauses)
  }

  ghost predicate StatusesLinked(nextStatus: Status, scopeOf: map<Status, Scope>, parent: map<Status, Status>, children: map<Status, set<Status>>) {
    && (forall s :: s in scopeOf ==> 0 <= s < nextStatus)
    && (forall s, c :: s in children && c in children[s] ==> c in parent && parent[c] == s)
    && (forall c {:trigger parent[c]} :: c in parent ==>
          c in scopeOf && parent[c] in scopeOf && parent[c] in children && c in children[parent[c]] && parent[c] < c)
  }

  ghost predicate TasksLinked(scopeOf: map<Status, Scope>, taskStatus: map<Task, Status>, members: map<Status, set<Task>>, pauses: map<Task, nat>) {
    && (forall s, t :: s in members && t in members[s] ==> t in taskStatus && taskStatus[t] == s)
    && (forall t {:trigger taskStatus[t]} :: t in taskStatus ==>
          t in pauses && taskStatus[t] in scopeOf && taskStatus[t] in members && t in members[taskStatus[t]])
  }

  ghost predicate ScopesOk(f: Frame, cancelled: set<Status>, cancelCalled: set<Scope>) {
    && (forall s :: s in f.scopeOf ==> f.scopeOf[s] in f.entered)
    && (forall s, z :: s in f.scopeOf && z in f.scopeOf && f.scopeOf[s] == f.scopeOf[z] ==> s == z)
    && (forall c :: c in f.statusOf ==> f.statusOf[c] in f.scopeOf && f.scopeOf[f.statusOf[c]] == c)
    && (forall c :: c in f.statusOf && f.statusOf[c] in f.closed ==> f.statusOf[c] in cancelled)
    && (forall s :: s in f.closed ==> s !in f.parent)
    && cancelled <= f.scopeOf.Keys && f.closed <= f.scopeOf.Keys
    && f.entered <= f.deadline.Keys && cancelCalled <= f.deadline.Keys
  }

  /** The run queue and the rest of the batch hold the scheduled tasks, each once. */
  ghost predicate QueuedOnce(runq: seq<Task>, batch: seq<Task>, scheduled: set<Task>) {
    && (forall t :: t in runq ==> t in scheduled)
    && (forall t :: t in batch ==> t in scheduled)
    && (forall t :: t in scheduled ==> multiset(runq)[t] + multiset(batch)[t] == 1)
  }

  /** A scheduled task has one queueing more than pauses; a blocked task has been queued for every earlier pause. */
  ghost predicate Counted(pauses: map<Task, nat>, queueings: map<Task, nat>, scheduled: set<Task>, abortable: set<Task>) {
    && queueings.Keys == pauses.Keys
    && (forall t :: t in scheduled ==> t in pauses && t !in abortable && queueings[t] == pauses[t] + 1)
    && (forall t :: t in abortable ==> t in pauses && queueings[t] == pauses[t])
  }

  /** The scope that an abort callback would cancel still has its status in place, or is done with it. */
  ghost predicate AbortsOk(f: Frame, abortFunc: map<Task, AbortFunc>) {
    forall t :: t in abortFunc && abortFunc[t].NurseryExit? ==>
      abortFunc[t].scope in f.entered && InPlace(f, abortFunc[t].scope)
  }

  ghost predicate InPlace(f: Frame, c: Scope) {
    forall s :: s in f.scopeOf && f.scopeOf[s] == c && s !in f.closed ==> c in f.statusOf
  }

  ghost predicate RegisteredOk(deadline: map<Scope, Time>, registered: map<Scope, Time>, cancelCalled: set<Scope>) {
    forall c :: c in registered ==> c in deadline && c !in cancelCalled && registered[c] != Inf
  }

  /** What holds all the time, in the middle of a propagation too. */
  ghost predicate WellFormed(f: Frame, g: Signals) {
    && Linked(f)
    && ScopesOk(f, g.cancelled, g.cancelCalled)
    && QueuedOnce(g.runq, f.batch, g.nextSend.Keys)
    && Counted(f.pauses, g.queueings, g.nextSend.Keys, g.abortFunc.Keys)
    && g.abortCalls.Keys == f.pauses.Keys
    && AbortsOk(f, g.abortFunc)
    && RegisteredOk(f.deadline, g.registered, g.cancelCalled)
  }

  /** The state that `recalculate` computes from a status's own scope and its parent. */
  ghost predicate Expected(f: Frame, cancelled: set<Status>, cancelCalled: set<Scope>, s: Status)
    requires s in f.scopeOf
  {
    f.scopeOf[s] in cancelCalled || ParentCancellationIsVisible(f, cancelled, s)
  }

  ghost predicate ParentCancellationIsVisible(f: Frame, cancelled: set<Status>, s: Status)
    requires s in f.scopeOf
  {
    s in f.parent && f.scopeOf[s] !in f.shielded && f.parent[s] in cancelled
  }

  ghost predicate Settled(f: Frame, cancelled: set<Status>, cancelCalled: set<Scope>, s: Status) {
    s in f.scopeOf && s !in f.closed ==> (s in cancelled <==> Expected(f, cancelled, cancelCalled, s))
  }

  /** No cancellation is being withheld from this task. */
  ghost predicate Delivered(f: Frame, cancelled: set<Status>, abortFunc: map<Task, AbortFunc>, t: Task) {
    t in abortFunc && t in f.taskStatus ==> f.taskStatus[t] !in cancelled
  }

  // ---------- what cancellation reaches ----------

  /** Cancellation of its parent reaches this status: there is no shield in between. */
  predicate Exposed(f: Frame, s: Status) {
    s in f.parent && s in f.scopeOf && f.scopeOf[s] !in f.shielded && 0 <= f.parent[s] < s
  }

  /** The statuses that cancellation can come from: outward from `s`, not past a shield. */
  function UnshieldedPath(f: Frame, s: Status): seq<Status>
    decreases s
  {
    [s] + if Exposed(f, s) then UnshieldedPath(f, f.parent[s]) else []
  }

  /**
   * Cancellation that reaches `s`, worked out from the scopes alone: its own was cancelled, or one
   * further out was, with no shield in between. A closed status is as its scope left it.
   */
  ghost predicate Reached(f: Frame, cancelled: set<Status>, cancelCalled: set<Scope>, s: Status)
    decreases s
  {
    s in f.scopeOf &&
    if s in f.closed then s in cancelled
    else f.scopeOf[s] in cancelCalled || (Exposed(f, s) && Reached(f, cancelled, cancelCalled, f.parent[s]))
  }

  /** What `recalculate` looks at for `s` is right: everything that cancellation could reach it from is settled. */
  ghost predicate Rooted(f: Frame, cancelled: set<Status>, cancelCalled: set<Scope>, s: Status)
    decreases s
  {
    s in f.scopeOf &&
    (s in f.closed || f.scopeOf[s] in cancelCalled || !Exposed(f, s)
     || (Settled(f, cancelled, cancelCalled, f.parent[s]) && Rooted(f, cancelled, cancelCalled, f.parent[s])))
  }

  /** A status that is settled, as is everything outward of it, is cancelled just when cancellation reaches it. */
  lemma {:induction false} RootedExact(f: Frame, cancelled: set<Status>, cancelCalled: set<Scope>, s: Status)
    requires Linked(f) && Rooted(f, cancelled, cancelCalled, s)
    ensures s !in f.closed ==> (Expected(f, cancelled, cancelCalled, s) <==> Reached(f, cancelled, cancelCalled, s))
    ensures Settled(f, cancelled, cancelCalled, s) ==> (s in cancelled <==> Reached(f, cancelled, cancelCalled, s))
    decreases s
  {
    if s !in f.closed && f.scopeOf[s] !in cancelCalled && Exposed(f, s) {
      RootedExact(f, cancelled, cancelCalled, f.parent[s]);
    }
  }

  lemma {:induction false} ReachedMore(f: Frame, cancelled: set<Status>, called: set<Scope>, cancelled2: set<Status>, called2: set<Scope>, s: Status)
    requires Reached(f, cancelled, called, s) && called <= called2 && f.closed * cancelled <= f.closed * cancelled2
    ensures Reached(f, cancelled2, called2, s)
    decreases s
  {
    if s in f.closed {
      assert s in f.closed * cancelled;
    } else if f.scopeOf[s] !in called {
      ReachedMore(f, cancelled, called, cancelled2, called2, f.parent[s]);
    }
  }

  lemma ReachedStays(f: Frame, g: Signals, h: Signals, s: Status)
    requires Reached(f, g.cancelled, g.cancelCalled, s)
    requires g.cancelCalled <= h.cancelCalled && f.closed * g.cancelled <= f.closed * h.cancelled
    ensures Reached(f, h.cancelled, h.cancelCalled, s)
  {
    ReachedMore(f, g.cancelled, g.cancelCalled, h.cancelled, h.cancelCalled, s);
  }

  /** Whoever is outward of `s`, not past a shield, reaches it. */
  lemma {:induction false} ReachedFrom(f: Frame, cancelled: set<Status>, cancelCalled: set<Scope>, s: Status, z: Status)
    requires z in UnshieldedPath(f, s) && z in f.scopeOf && z !in f.closed && f.scopeOf[z] in cancelCalled
    requires s in f.scopeOf && forall y :: y in f.parent ==> y !in f.closed && f.parent[y] in f.scopeOf
    ensures Reached(f, cancelled, cancelCalled, s)
    decreases s
  {
    if z != s {
      assert Exposed(f, s) && z in UnshieldedPath(f, f.parent[s]);
      ReachedFrom(f, cancelled, cancelCalled, f.parent[s], z);
    }
  }

  /** Where newly arrived cancellation comes from. */
  lemma {:induction false} NewlyReached(f: Frame, g: Signals, h: Signals, s: Status) returns (z: Status)
    requires Reached(f, h.cancelled, h.cancelCalled, s) && !Reached(f, g.cancelled, g.cancelCalled, s)
    requires f.closed * g.cancelled == f.closed * h.cancelled
    ensures z in UnshieldedPath(f, s) && z in f.scopeOf && z !in f.closed
    ensures f.scopeOf[z] in h.cancelCalled && f.scopeOf[z] !in g.cancelCalled
    decreases s
  {
    z := s;
    assert UnshieldedPath(f, s)[0] == s;
    assert s in f.closed ==> (s in f.closed * g.cancelled <==> s in f.closed * h.cancelled);
    if f.scopeOf[s] !in h.cancelCalled {
      z := NewlyReached(f, g, h, f.parent[s]);
      assert UnshieldedPath(f, s) == [s] + UnshieldedPath(f, f.parent[s]);
    }
  }

  // ---------- propagation, as a relation between two states ----------

  /**
   * What one propagation does, seen from outside: it cancels scopes for a reason, delivers
   * cancellations to the tasks that it reaches and to no others, and leaves settled what was settled,
   * except the statuses still on the worklist and the tasks still to be told. `origin` is the scope
   * whose cancellation started it, if any.
   */
  ghost predicate Propagated(f: Frame, g: Signals, h: Signals, todo: set<Status>, pending: set<Task>, origin: set<Scope>) {
    && Carried(f, g, h, todo, pending, origin)
    && Woken(g, h)
    && StayCancelled(f, g, h)
    && OnlyReached(f, g, h)
  }

  ghost predicate Carried(f: Frame, g: Signals, h: Signals, todo: set<Status>, pending: set<Task>, origin: set<Scope>) {
    && (forall s {:trigger Settled(f, h.cancelled, h.cancelCalled, s)} :: Settled(f, g.cancelled, g.cancelCalled, s) && s !in todo ==> Settled(f, h.cancelled, h.cancelCalled, s))
    && (forall t {:trigger Delivered(f, h.cancelled, h.abortFunc, t)} :: Delivered(f, g.cancelled, g.abortFunc, t) && t !in pending ==> Delivered(f, h.cancelled, h.abortFunc, t))
    && f.closed * g.cancelled == f.closed * h.cancelled
    && g.clock <= h.clock
    && ScopesCancelled(f, g, h, origin)
  }

  ghost predicate ScopesCancelled(f: Frame, g: Signals, h: Signals, origin: set<Scope>) {
    && g.cancelCalled <= h.cancelCalled
    && (forall n {:trigger Founded(f, g, h, n, origin)} :: Founded(f, g, h, n, origin))
    && h.registered.Keys == g.registered.Keys - (h.cancelCalled - g.cancelCalled)
    && (forall c :: c in h.registered ==> h.registered[c] == g.registered[c])
  }

  /**
   * Of any scopes that were cancelled there is one with a reason that does not depend on the others of
   * them: no two cancellations are each other's reason.
   */
  ghost predicate Founded(f: Frame, g: Signals, h: Signals, n: set<Scope>, origin: set<Scope>) {
    n != {} && n <= h.cancelCalled && n !! g.cancelCalled ==> exists c :: c in n && Reason(f, g, h, c, n, origin)
  }

  /**
   * Why a propagation cancelled a scope: it was asked to, the deadline is past, or a nursery's parent
   * was told to exit, by a cancellation that reaches it from elsewhere than the scopes of `n`.
   */
  ghost predicate Reason(f: Frame, g: Signals, h: Signals, c: Scope, n: set<Scope>, origin: set<Scope>) {
    c in origin || (c in f.deadline && Le(f.deadline[c], At(h.clock))) || (exists t :: ToldToExit(f, g, h, t, c, n))
  }

  /** The callback of this nursery exit has been called. */
  ghost predicate ToldToExit(f: Frame, g: Signals, h: Signals, t: Task, c: Scope, n: set<Scope>) {
    && ExitsNursery(g, t, c) && t !in h.abortFunc
    && t in f.taskStatus && Reached(f, h.cancelled, h.cancelCalled - n, f.taskStatus[t])
  }

  ghost predicate ExitsNursery(g: Signals, t: Task, c: Scope) {
    t in g.abortFunc && g.abortFunc[t] == NurseryExit(c)
  }

  /** A cancelled status that cancellation does reach stays cancelled. */
  ghost predicate StayCancelled(f: Frame, g: Signals, h: Signals) {
    forall s {:trigger s in h.cancelled} :: s in g.cancelled && Reached(f, g.cancelled, g.cancelCalled, s) ==> s in h.cancelled
  }

  /** The tasks whose abort function was called are in a cancelled status, one that cancellation does reach. */
  ghost predicate OnlyReached(f: Frame, g: Signals, h: Signals) {
    forall t {:trigger t in h.abortFunc} :: t in g.abortFunc && t !in h.abortFunc ==>
      t in f.taskStatus && f.taskStatus[t] in h.cancelled && Reached(f, h.cancelled, h.cancelCalled, f.taskStatus[t])
  }

  /**
   * Nobody but the tasks of `told` is told of a cancellation that was there before: its abort function
   * is left in place for whoever is about to call it.
   */
  ghost predicate Spared(f: Frame, g: Signals, h: Signals, told: set<Task>) {
    forall t {:trigger t in h.abortFunc} :: t in g.abortFunc && t !in told && InCancelled(f, g, t) ==> t in h.abortFunc
  }

  ghost predicate InCancelled(f: Frame, g: Signals, t: Task) {
    t in f.taskStatus && f.taskStatus[t] in g.cancelled && Reached(f, g.cancelled, g.cancelCalled, f.taskStatus[t])
  }

  /** The tasks that cancellation has woken are those whose abort function answered `Succeeded`. */
  ghost predicate Woken(g: Signals, h: Signals) {
    && g.runq <= h.runq
    && h.queueings.Keys == g.queueings.Keys && h.abortCalls.Keys == g.abortCalls.Keys
    && (forall t :: t in h.abortFunc ==> t in g.abortFunc && h.abortFunc[t] == g.abortFunc[t])
    && (forall t :: t in g.nextSend ==> t in h.nextSend && h.nextSend[t] == g.nextSend[t])
    && (forall t :: t in h.nextSend && t !in g.nextSend ==>
          t in g.abortFunc && t !in h.abortFunc && g.abortFunc[t] == QueueAbort(Succeeded) && h.nextSend[t] == RaiseCancelled)
    && (forall t :: t in g.abortFunc && t !in h.abortFunc && g.abortFunc[t] == QueueAbort(Succeeded) ==> t in h.nextSend)
    && (forall t :: t in g.queueings && (t in h.nextSend ==> t in g.nextSend) ==> h.queueings[t] == g.queueings[t])
    && (forall t {:trigger CalledOnce(g, h, t)} :: CalledOnce(g, h, t))
  }

  /** An abort function is called once when it is given up, and never otherwise. */
  ghost predicate CalledOnce(g: Signals, h: Signals, t: Task) {
    t in g.abortCalls && t in h.abortCalls ==>
      h.abortCalls[t] == g.abortCalls[t] + if t in g.abortFunc && t !in h.abortFunc then 1 else 0
  }

  /** What an operation that ends in frame `f` does to the tasks and scopes other than those it works on. */
  ghost predicate Effects(f: Frame, g: Signals, h: Signals, origin: set<Scope>) {
    && g.clock <= h.clock
    && g.cancelCalled <= h.cancelCalled
    && f.closed * g.cancelled <= f.closed * h.cancelled
    && (forall n {:trigger Founded(f, g, h, n, origin)} :: Founded(f, g, h, n, origin))
    && Woken(g, h)
    && OnlyCancelled(f, g, h)
  }

  ghost predicate OnlyCancelled(f: Frame, g: Signals, h: Signals) {
    forall t {:trigger t in h.abortFunc} :: t in g.abortFunc && t !in h.abortFunc ==>
      t in f.taskStatus && f.taskStatus[t] in h.cancelled
  }

  lemma PropagatedEffects(f: Frame, g: Signals, h: Signals, todo: set<Status>, pending: set<Task>, origin: set<Scope>)
    requires Propagated(f, g, h, todo, pending, origin)
    ensures Effects(f, g, h, origin)
  {
    hide Settled, Delivered, Reached, Founded, Woken;
  }

  lemma EffectsThen(f: Frame, g: Signals, h: Signals, k: Signals, origin: set<Scope>)
    requires Effects(f, g, h, origin) && Effects(f, h, k, origin)
    requires h.cancelled <= k.cancelled || g.abortFunc == h.abortFunc
    ensures Effects(f, g, k, origin)
  {
    hide CalledOnce, Founded;
    forall n ensures Founded(f, g, k, n, origin) {
      FoundedThen(f, g, h, k, n, origin, origin);
      assert origin + origin == origin;
    }
    WokenThen(g, h, k);
  }

  lemma FoundedThen(f: Frame, g: Signals, h: Signals, k: Signals, n: set<Scope>, origin: set<Scope>, origin2: set<Scope>)
    requires Founded(f, g, h, n * h.cancelCalled, origin) && Founded(f, h, k, n, origin2)
    requires g.cancelCalled <= h.cancelCalled <= k.cancelCalled && h.clock <= k.clock
    requires f.closed * h.cancelled <= f.closed * k.cancelled
    requires forall t :: t in k.abortFunc ==> t in h.abortFunc
    requires forall t :: t in h.abortFunc ==> t in g.abortFunc && h.abortFunc[t] == g.abortFunc[t]
    ensures Founded(f, g, k, n, origin + origin2)
  {
    if n != {} && n <= k.cancelCalled && n !! g.cancelCalled {
      var m := n * h.cancelCalled;
      if m != {} {
        var c :| c in m && Reason(f, g, h, c, m, origin);
        ReasonStays(f, g, h, k, c, n, origin);
        assert c in n && Reason(f, g, k, c, n, origin + origin2);
      } else {
        assert n !! h.cancelCalled by {
          forall c | c in n ensures c !in h.cancelCalled { assert c !in m; }
        }
        var c :| c in n && Reason(f, h, k, c, n, origin2);
        ReasonBefore(f, g, h, k, c, n, origin2);
        assert c in n && Reason(f, g, k, c, n, origin + origin2);
      }
    }
  }

  lemma ReasonStays(f: Frame, g: Signals, h: Signals, k: Signals, c: Scope, n: set<Scope>, origin: set<Scope>)
    requires Reason(f, g, h, c, n * h.cancelCalled, origin) && h.clock <= k.clock
    requires h.cancelCalled <= k.cancelCalled && f.closed * h.cancelled <= f.closed * k.cancelled
    requires forall t :: t in k.abortFunc ==> t in h.abortFunc
    ensures Reason(f, g, k, c, n, origin)
  {
    var m := n * h.cancelCalled;
    if t :| ToldToExit(f, g, h, t, c, m) {
      ReachedMore(f, h.cancelled, h.cancelCalled - m, k.cancelled, k.cancelCalled - n, f.taskStatus[t]);
      assert ToldToExit(f, g, k, t, c, n);
    }
  }

  lemma ReasonBefore(f: Frame, g: Signals, h: Signals, k: Signals, c: Scope, n: set<Scope>, origin: set<Scope>)
    requires Reason(f, h, k, c, n, origin)
    requires forall t :: t in h.abortFunc ==> t in g.abortFunc && h.abortFunc[t] == g.abortFunc[t]
    ensures Reason(f, g, k, c, n, origin)
  {
    if t :| ToldToExit(f, h, k, t, c, n) {
      assert ToldToExit(f, g, k, t, c, n);
    }
  }

  /** What reached a status in `f`, and which task has which status, is as it was. */
  ghost predicate Extends(f: Frame, d: Frame, abortFunc: map<Task, AbortFunc>) {
    && d.deadline == f.deadline && d.closed == f.closed && d.shielded == f.shielded
    && (forall s :: s in f.scopeOf ==> s in d.scopeOf && d.scopeOf[s] == f.scopeOf[s])
    && (forall s :: s in f.parent && s in f.scopeOf ==> s in d.parent && d.parent[s] == f.parent[s])
    && (forall t :: t in abortFunc && t in f.taskStatus ==> t in d.taskStatus && d.taskStatus[t] == f.taskStatus[t])
  }

  lemma {:induction false} ReachedExtended(f: Frame, d: Frame, abortFunc: map<Task, AbortFunc>, cancelled: set<Status>, called: set<Scope>, s: Status)
    requires Extends(f, d, abortFunc) && Reached(f, cancelled, called, s)
    ensures Reached(d, cancelled, called, s)
    decreases s
  {
    if s !in f.closed && f.scopeOf[s] !in called {
      ReachedExtended(f, d, abortFunc, cancelled, called, f.parent[s]);
    }
  }

  lemma EffectsMoved(f: Frame, d: Frame, g: Signals, h: Signals, origin: set<Scope>)
    requires Effects(f, g, h, origin) && Extends(f, d, g.abortFunc)
    ensures Effects(d, g, h, origin)
  {
    hide Woken;
    forall n ensures Founded(d, g, h, n, origin) {
      assert Founded(f, g, h, n, origin);
      if n != {} && n <= h.cancelCalled && n !! g.cancelCalled {
        var c :| c in n && Reason(f, g, h, c, n, origin);
        if t :| ToldToExit(f, g, h, t, c, n) {
          ReachedExtended(f, d, g.abortFunc, h.cancelled, h.cancelCalled - n, f.taskStatus[t]);
          assert ToldToExit(d, g, h, t, c, n);
        }
        assert Reason(d, g, h, c, n, origin);
      }
    }
  }

  /** One more operation, from `u` to `k`, that takes the frame from `f` to `d`. */
  lemma EffectsGoOn(f: Frame, d: Frame, g: Signals, u: Signals, k: Signals)
    requires Effects(f, g, u, {}) && Extends(f, d, g.abortFunc) && Effects(d, u, k, {})
    requires u.cancelled <= k.cancelled || g.abortFunc == u.abortFunc
    ensures Effects(d, g, k, {})
  {
    hide Effects, Extends;
    EffectsMoved(f, d, g, u, {});
    EffectsThen(d, g, u, k, {});
  }

  lemma ExtendedByStatus(f: Frame, d: Frame, abortFunc: map<Task, AbortFunc>, s: Status)
    requires s !in f.scopeOf && d.deadline == f.deadline && d.closed == f.closed && d.shielded == f.shielded && d.taskStatus == f.taskStatus
    requires s in d.scopeOf && d.scopeOf == f.scopeOf[s := d.scopeOf[s]]
    requires d.parent == f.parent || (s in d.parent && d.parent == f.parent[s := d.parent[s]])
    ensures Extends(f, d, abortFunc)
  {
  }

  lemma ExtendedByTask(f: Frame, d: Frame, abortFunc: map<Task, AbortFunc>, t: Task, s: Status)
    requires d.deadline == f.deadline && d.closed == f.closed && d.shielded == f.shielded && d.scopeOf == f.scopeOf && d.parent == f.parent
    requires d.taskStatus == f.taskStatus[t := s] && (t !in abortFunc || t !in f.taskStatus)
    ensures Extends(f, d, abortFunc)
  {
  }

  lemma ExtendedByParent(f: Frame, d: Frame, abortFunc: map<Task, AbortFunc>, s: Status, p: Status)
    requires d.deadline == f.deadline && d.closed == f.closed && d.shielded == f.shielded && d.scopeOf == f.scopeOf && d.taskStatus == f.taskStatus
    requires s !in f.parent && d.parent == f.parent[s := p]
    ensures Extends(f, d, abortFunc)
  {
  }

  lemma NoEffects(f: Frame, g: Signals, h: Signals)
    requires h == g.(registered := h.registered, cancelled := h.cancelled) && f.closed * g.cancelled <= f.closed * h.cancelled
    ensures Effects(f, g, h, {})
  {
  }

  /** The task whose code is running: it has given up its last queueing, and not paused since. */
  ghost predicate Running(f: Frame, g: Signals, t: Task) {
    && t in f.pauses && t in g.queueings && t !in g.nextSend && t !in g.abortFunc
    && g.queueings[t] == f.pauses[t] + 1
  }

  lemma StaysRunning(f: Frame, g: Signals, d: Frame, h: Signals, origin: set<Scope>, t: Task)
    requires Running(f, g, t) && d.pauses == f.pauses && Effects(d, g, h, origin)
    ensures Running(d, h, t)
  {
  }

  /** A status is forgotten by its scope, after it has become an abandoned root or nothing has happened. */
  lemma ClosedEffects(d: Frame, e: Frame, g: Signals, h: Signals, k: Signals, s: Status)
    requires Effects(d, g, h, {}) && Effects(e, h, k, {}) && h.cancelled <= k.cancelled
    requires e == d.(statusOf := e.statusOf, closed := d.closed + {s}) && (s in d.closed || h == g)
    ensures Effects(e, g, k, {})
  {
    hide Effects;
    if s in d.closed {
      assert e.closed == d.closed;
      EffectsMoved(d, e, g, h, {});
    } else {
      NoEffects(e, g, h);
    }
    EffectsThen(e, g, h, k, {});
  }

  lemma RunningNotBlocked(f: Frame, g: Signals, t: Task)
    requires Running(f, g, t)
    ensures t in f.pauses && t !in g.abortFunc
  {
  }

  /** The running task changes its status, between `v` and `k`. */
  lemma RunningMoved(f: Frame, g: Signals, d: Frame, e: Frame, v: Signals, k: Signals, t: Task)
    requires Running(f, g, t) && e.pauses == f.pauses
    requires Effects(d, g, v, {}) && Effects(e, v, k, {}) && v.cancelled <= k.cancelled && Extends(d, e, g.abortFunc)
    ensures Effects(e, g, k, {}) && Running(e, k, t)
  {
    hide Effects;
    EffectsMoved(d, e, g, v, {});
    EffectsThen(e, g, v, k, {});
    StaysRunning(f, g, e, k, {}, t);
  }

  lemma Chain(f: Frame, g: Signals, h: Signals, k: Signals, todo: set<Status>, pending: set<Task>, origin: set<Scope>,
              todo2: set<Status>, pending2: set<Task>, origin2: set<Scope>)
    requires Propagated(f, g, h, todo, pending, origin)
    requires Propagated(f, h, k, todo2, pending2, origin2)
    ensures Propagated(f, g, k, todo + todo2, pending + pending2, origin + origin2)
  {
    hide Settled, Delivered, Reached, CalledOnce, Founded;
    WokenThen(g, h, k);
    forall n ensures Founded(f, g, k, n, origin + origin2) {
      FoundedThen(f, g, h, k, n, origin, origin2);
    }
    forall s | s in g.cancelled && Reached(f, g.cancelled, g.cancelCalled, s) ensures s in k.cancelled {
      assert s in h.cancelled;
      ReachedStays(f, g, h, s);
    }
    forall t | t in g.abortFunc && t !in k.abortFunc
      ensures t in f.taskStatus && f.taskStatus[t] in k.cancelled && Reached(f, k.cancelled, k.cancelCalled, f.taskStatus[t])
    {
      if t !in h.abortFunc {
        ReachedStays(f, h, k, f.taskStatus[t]);
      }
    }
  }

  lemma SparedThen(f: Frame, g: Signals, h: Signals, k: Signals, todo: set<Status>, pending: set<Task>, origin: set<Scope>, told: set<Task>, told2: set<Task>)
    requires Propagated(f, g, h, todo, pending, origin)
    requires Spared(f, g, h, told) && Spared(f, h, k, told2) && told2 <= told
    ensures Spared(f, g, k, told)
  {
    hide Settled, Delivered, Reached, Woken, OnlyReached, ScopesCancelled;
    forall t | t in g.abortFunc && t !in told && InCancelled(f, g, t) ensures t in k.abortFunc {
      assert t in h.abortFunc;
      StaysInCancelled(f, g, h, todo, pending, origin, t);
    }
  }

  /** Telling the tasks of a status that was not cancelled tells nobody of an old cancellation. */
  lemma SparedOthers(f: Frame, g: Signals, v: Signals, w: Signals, k: Signals, s: Status)
    requires WellFormed(f, g) && s in f.members && s !in v.cancelled && w.abortFunc == v.abortFunc
    requires w.cancelCalled == v.cancelCalled && w.cancelled == v.cancelled + {s} && s !in f.closed
    requires Propagated(f, g, v, {}, {}, {}) && Spared(f, g, v, {}) && Spared(f, w, k, f.members[s])
    ensures Spared(f, g, k, {})
  {
    hide Settled, Delivered, Reached, Woken, OnlyReached, ScopesCancelled;
    forall t | t in g.abortFunc && InCancelled(f, g, t) ensures t in k.abortFunc {
      assert t in v.abortFunc;
      StaysInCancelled(f, g, v, {}, {}, {}, t);
      assert f.taskStatus[t] != s;
      ReachedStays(f, v, w, f.taskStatus[t]);
      assert InCancelled(f, w, t);
    }
  }

  lemma StaysInCancelled(f: Frame, g: Signals, h: Signals, todo: set<Status>, pending: set<Task>, origin: set<Scope>, t: Task)
    requires Propagated(f, g, h, todo, pending, origin) && InCancelled(f, g, t)
    ensures InCancelled(f, h, t)
  {
    hide Settled, Delivered, Reached, Woken, OnlyReached;
    ReachedStays(f, g, h, f.taskStatus[t]);
  }

  lemma SparedSame(f: Frame, g: Signals, h: Signals, told: set<Task>)
    requires g.abortFunc == h.abortFunc
    ensures Spared(f, g, h, told)
  {
  }

  lemma WokenThen(g: Signals, h: Signals, k: Signals)
    requires Woken(g, h) && Woken(h, k)
    ensures Woken(g, k)
  {
    forall t ensures CalledOnce(g, k, t) {
      assert CalledOnce(g, h, t) && CalledOnce(h, k, t);
    }
  }

  lemma Then(f: Frame, g: Signals, h: Signals, k: Signals, todo: set<Status>, pending: set<Task>, origin: set<Scope>)
    requires Propagated(f, g, h, todo, pending, origin)
    requires Propagated(f, h, k, {}, {}, {})
    ensures Propagated(f, g, k, todo, pending, origin)
  {
    Chain(f, g, h, k, todo, pending, origin, {}, {}, {});
    assert todo + {} == todo && pending + {} == pending && origin + {} == origin;
  }

  lemma ThenOneMore(f: Frame, g: Signals, h: Signals, k: Signals, origin: set<Scope>, c: Scope)
    requires Propagated(f, g, h, {}, {}, origin) && Propagated(f, h, k, {}, {}, {c}) && c in origin
    ensures Propagated(f, g, k, {}, {}, origin)
  {
    Chain(f, g, h, k, {}, {}, origin, {}, {}, {c});
    var none: set<Status>, nobody: set<Task> := {}, {};
    assert none + none == none && nobody + nobody == nobody && origin + {c} == origin;
  }

  /** Statuses that turn out settled and tasks that turn out told need not be excepted any more. */
  lemma Discharge(f: Frame, g: Signals, h: Signals, todo: set<Status>, pending: set<Task>, origin: set<Scope>,
                  todo2: set<Status>, pending2: set<Task>, origin2: set<Scope>)
    requires Propagated(f, g, h, todo, pending, origin)
    requires forall s :: s in todo && s !in todo2 ==> Settled(f, h.cancelled, h.cancelCalled, s)
    requires forall t :: t in pending && t !in pending2 ==> Delivered(f, h.cancelled, h.abortFunc, t)
    requires forall c :: c in origin && c !in origin2 ==> c in f.deadline && Le(f.deadline[c], At(h.clock))
    ensures Propagated(f, g, h, todo2, pending2, origin2)
  {
    hide Settled, Delivered, Woken, StayCancelled, OnlyReached;
    forall n ensures Founded(f, g, h, n, origin2) {
      assert Founded(f, g, h, n, origin);
      if n != {} && n <= h.cancelCalled && n !! g.cancelCalled {
        var c :| c in n && Reason(f, g, h, c, n, origin);
        assert Reason(f, g, h, c, n, origin2);
      }
    }
  }

  lemma Unchanged(f: Frame, g: Signals)
    ensures Propagated(f, g, g, {}, {}, {})
  {
    NobodyWoken(g, g);
  }

  lemma NobodyWoken(g: Signals, h: Signals)
    requires h.abortFunc == g.abortFunc && h.nextSend == g.nextSend && h.runq == g.runq
    requires h.queueings == g.queueings && h.abortCalls == g.abortCalls
    ensures Woken(g, h)
  {
  }

  // ---------- single steps ----------

  lemma ClockRead(f: Frame, g: Signals, now: real)
    requires WellFormed(f, g) && g.clock <= now
    ensures WellFormed(f, g.(clock := now)) && Propagated(f, g, g.(clock := now), {}, {}, {})
  {
    hide Woken, Linked, QueuedOnce, Counted, ScopesOk, AbortsOk;
    NobodyWoken(g, g.(clock := now));
  }

  /** `reschedule`. */
  function Rescheduled(g: Signals, task: Task, send: Send): Signals
    requires task in g.queueings
  {
    g.(nextSend := g.nextSend[task := send],
       abortFunc := g.abortFunc - {task},
       queueings := g.queueings[task := g.queueings[task] + 1],
       runq := g.runq + [task])
  }

  lemma RescheduledWellFormed(f: Frame, g: Signals, task: Task, send: Send)
    requires WellFormed(f, g) && task in f.pauses && task !in g.nextSend && g.queueings[task] == f.pauses[task]
    ensures WellFormed(f, Rescheduled(g, task, send))
  {
    assert task !in multiset(g.runq) && task !in multiset(f.batch);
    assert multiset(g.runq + [task]) == multiset(g.runq) + multiset{task};
    assert QueuedOnce(g.runq + [task], f.batch, g.nextSend.Keys + {task});
    assert g.nextSend[task := send].Keys == g.nextSend.Keys + {task};
  }

  /** The end of `_attempt_abort`, once the abort function has answered. */
  function Noted(g: Signals, task: Task): Signals
    requires task in g.abortCalls
  {
    g.(abortCalls := g.abortCalls[task := g.abortCalls[task] + 1], abortFunc := g.abortFunc - {task})
  }

  function Answered(g: Signals, task: Task, result: Abort): Signals
    requires task in g.queueings && task in g.abortCalls
  {
    if result == Succeeded then Rescheduled(Noted(g, task), task, RaiseCancelled) else Noted(g, task)
  }

  lemma NotedWellFormed(f: Frame, g: Signals, task: Task)
    requires WellFormed(f, g) && task in f.pauses
    ensures WellFormed(f, Noted(g, task))
  {
    assert Noted(g, task).abortCalls.Keys == g.abortCalls.Keys;
  }

  /** The scope that the abort function cancels. */
  function Cancels(abort: AbortFunc): set<Scope> {
    if abort.NurseryExit? then {abort.scope} else {}
  }

  function AnswerOf(abort: AbortFunc): Abort {
    match abort case QueueAbort(result) => result case NurseryExit(_) => Failed
  }

  /** The abort function of a cancelled task, whose callback led from `g` to `h`, has answered. */
  lemma AnsweredPropagated(f: Frame, g: Signals, h: Signals, task: Task)
    requires task in g.abortFunc && task in h.abortFunc && task in g.abortCalls && task !in h.nextSend
    requires Propagated(f, g, h, {}, {}, Cancels(g.abortFunc[task])) && InCancelled(f, g, task)
    requires task in h.queueings && task in h.abortCalls
    ensures Propagated(f, g, Answered(h, task, AnswerOf(g.abortFunc[task])), {}, {}, {})
  {
    hide Settled, Reached, Woken, Founded;
    var k := Answered(h, task, AnswerOf(g.abortFunc[task]));
    StaysInCancelled(f, g, h, {}, {}, Cancels(g.abortFunc[task]), task);
    AnsweredWoken(g, h, task);
    FewerAbortable(h, task, AnswerOf(g.abortFunc[task]));
    forall t | Delivered(f, g.cancelled, g.abortFunc, t) ensures Delivered(f, k.cancelled, k.abortFunc, t) {
      assert Delivered(f, h.cancelled, h.abortFunc, t);
    }
    forall n ensures Founded(f, g, k, n, {}) {
      AnsweredFounded(f, g, h, k, n, task);
    }
  }

  /** The scope that the callback cancelled has its reason in the cancellation that was there before. */
  lemma AnsweredFounded(f: Frame, g: Signals, h: Signals, k: Signals, n: set<Scope>, task: Task)
    requires task in g.abortFunc && task !in k.abortFunc && InCancelled(f, g, task)
    requires Founded(f, g, h, n, Cancels(g.abortFunc[task]))
    requires k.clock == h.clock && k.cancelled == h.cancelled && k.cancelCalled == h.cancelCalled && g.cancelCalled <= h.cancelCalled
    requires f.closed * g.cancelled == f.closed * h.cancelled
    requires forall t :: t in k.abortFunc ==> t in h.abortFunc
    ensures Founded(f, g, k, n, {})
  {
    if n != {} && n <= h.cancelCalled && n !! g.cancelCalled {
      var c :| c in n && Reason(f, g, h, c, n, Cancels(g.abortFunc[task]));
      if c in Cancels(g.abortFunc[task]) {
        ReachedMore(f, g.cancelled, g.cancelCalled, k.cancelled, k.cancelCalled - n, f.taskStatus[task]);
        assert ToldToExit(f, g, k, task, c, n);
      } else if t :| ToldToExit(f, g, h, t, c, n) {
        assert ToldToExit(f, g, k, t, c, n);
      }
      assert Reason(f, g, k, c, n, {});
    }
  }

  lemma AnsweredWoken(g: Signals, h: Signals, task: Task)
    requires task in g.abortFunc && task in h.abortFunc && task in g.abortCalls && task !in h.nextSend
    requires task in h.queueings && task in h.abortCalls && Woken(g, h)
    ensures Woken(g, Answered(h, task, AnswerOf(g.abortFunc[task])))
  {
    hide Woken;
    if AnswerOf(g.abortFunc[task]) == Succeeded {
      SucceededWoken(g, h, task);
    } else {
      FailedWoken(g, h, task);
    }
  }

  lemma SucceededWoken(g: Signals, h: Signals, task: Task)
    requires task in g.abortFunc && task in h.abortFunc && task in g.abortCalls && task !in h.nextSend
    requires task in h.queueings && task in h.abortCalls && Woken(g, h) && g.abortFunc[task] == QueueAbort(Succeeded)
    ensures Woken(g, Rescheduled(Noted(h, task), task, RaiseCancelled))
  {
    var k := Rescheduled(Noted(h, task), task, RaiseCancelled);
    forall t ensures CalledOnce(g, k, t) {
      assert CalledOnce(g, h, t);
    }
  }

  lemma FailedWoken(g: Signals, h: Signals, task: Task)
    requires task in g.abortFunc && task in h.abortFunc && task in g.abortCalls && task !in h.nextSend
    requires task in h.abortCalls && Woken(g, h) && g.abortFunc[task] != QueueAbort(Succeeded)
    ensures Woken(g, Noted(h, task))
  {
    forall t ensures CalledOnce(g, Noted(h, task), t) {
      assert CalledOnce(g, h, t);
    }
  }

  lemma FewerAbortable(h: Signals, task: Task, result: Abort)
    requires task in h.queueings && task in h.abortCalls
    ensures var k := Answered(h, task, result);
      && task !in k.abortFunc && (forall t :: t in k.abortFunc ==> t in h.abortFunc)
      && (forall t :: t in h.abortFunc && t != task ==> t in k.abortFunc)
      && k.cancelled == h.cancelled && k.cancelCalled == h.cancelCalled && k.registered == h.registered && k.clock == h.clock
  {
  }

  lemma AnsweredSpared(f: Frame, g: Signals, h: Signals, task: Task)
    requires task in h.queueings && task in h.abortCalls && Spared(f, g, h, {})
    ensures Spared(f, g, Answered(h, task, Succeeded), {task}) && Spared(f, g, Answered(h, task, Failed), {task})
  {
  }

  /** The flag that `cancel` raises, and the deadline that it takes back. */
  function Flagged(g: Signals, c: Scope): Signals {
    g.(cancelCalled := g.cancelCalled + {c}, registered := g.registered - {c})
  }

  /** `encloses`: the path outward from `other` comes by `s`. */
  predicate Encloses(parent: map<Status, Status>, s: Status, other: Status)
    decreases other
  {
    other == s || (other in parent && 0 <= parent[other] < other && Encloses(parent, s, parent[other]))
  }

  lemma EnclosesItself(parent: map<Status, Status>, s: Status)
    ensures Encloses(parent, s, s)
  {
  }

  lemma LinkedKeys(f: Frame)
    requires Linked(f)
    ensures f.children.Keys == f.scopeOf.Keys == f.members.Keys
  {
  }

  lemma LinkedSame(f: Frame, d: Frame)
    requires Linked(f) && d.nextStatus == f.nextStatus && d.scopeOf == f.scopeOf && d.parent == f.parent && d.children == f.children
    requires d.members == f.members && d.taskStatus == f.taskStatus
    requires d.pauses == f.pauses || forall t :: t in f.taskStatus ==> t in d.pauses
    ensures Linked(d)
  {
  }

  lemma ScopesSame(f: Frame, d: Frame, cancelled: set<Status>, cancelCalled: set<Scope>)
    requires ScopesOk(f, cancelled, cancelCalled) && d.scopeOf == f.scopeOf && d.statusOf == f.statusOf && d.closed == f.closed
    requires d.parent == f.parent && f.entered <= d.entered <= d.deadline.Keys && f.deadline.Keys <= d.deadline.Keys
    ensures ScopesOk(d, cancelled, cancelCalled)
  {
  }

  lemma AbortsSame(f: Frame, d: Frame, abortFunc: map<Task, AbortFunc>)
    requires AbortsOk(f, abortFunc) && d.scopeOf == f.scopeOf && d.statusOf == f.statusOf
    requires f.closed <= d.closed && f.entered <= d.entered
    ensures AbortsOk(d, abortFunc)
  {
    forall t | t in abortFunc && abortFunc[t].NurseryExit? ensures InPlace(d, abortFunc[t].scope) {
      assert InPlace(f, abortFunc[t].scope);
    }
  }

  /** The parts of well-formedness that the frame has no part in but for its tasks and the set of its scopes. */
  lemma WellFormedFrom(f: Frame, g: Signals, d: Frame, h: Signals)
    requires WellFormed(f, g) && Linked(d) && ScopesOk(d, h.cancelled, h.cancelCalled) && AbortsOk(d, h.abortFunc)
    requires d.pauses == f.pauses && d.batch == f.batch && f.deadline.Keys <= d.deadline.Keys
    requires h == g.(cancelled := h.cancelled)
    ensures WellFormed(d, h)
  {
  }

  lemma ChildLinked(f: Frame, s: Status, c: Status)
    requires Linked(f) && s in f.children && c in f.children[s]
    ensures c in f.scopeOf && c in f.parent && f.parent[c] == s && 0 <= s < c < f.nextStatus
  {
    assert f.parent[c] == s;
    assert c in f.scopeOf && s in f.scopeOf;
  }

  /** The statuses enclosed by `s` are `s` itself and those enclosed by one of its children. */
  lemma {:induction false} EnclosedByChild(f: Frame, s: Status, other: Status)
    requires Linked(f) && Encloses(f.parent, s, other) && other != s && s in f.children
    ensures exists c :: c in f.children[s] && Encloses(f.parent, c, other)
    decreases other
  {
    var p := f.parent[other];
    if p == s {
      assert Encloses(f.parent, other, other);
    } else {
      EnclosedByChild(f, s, p);
      var c :| c in f.children[s] && Encloses(f.parent, c, p);
      assert Encloses(f.parent, c, other);
    }
  }

  lemma {:induction false} EnclosesChild(f: Frame, s: Status, c: Status, other: Status)
    requires Linked(f) && s in f.children && c in f.children[s] && Encloses(f.parent, c, other)
    ensures Encloses(f.parent, s, other)
    decreases other
  {
    if other == c {
      assert f.parent[c] == s && Encloses(f.parent, s, s);
    } else {
      EnclosesChild(f, s, c, f.parent[other]);
    }
  }

  lemma OnlyStatus(f: Frame, c: Scope, s: Status)
    requires InPlace(f, c) && s in f.scopeOf && s !in f.closed && f.scopeOf[s] == c
    requires forall s, z :: s in f.scopeOf && z in f.scopeOf && f.scopeOf[s] == f.scopeOf[z] ==> s == z
    requires forall c :: c in f.statusOf ==> f.statusOf[c] in f.scopeOf && f.scopeOf[f.statusOf[c]] == c
    ensures c in f.statusOf && f.statusOf[c] == s
  {
    assert f.scopeOf[f.statusOf[c]] == c;
  }

  lemma FlaggedWellFormed(f: Frame, g: Signals, c: Scope)
    requires WellFormed(f, g) && c in f.deadline
    ensures WellFormed(f, Flagged(g, c))
  {
    hide Linked, QueuedOnce, Counted, AbortsOk;
  }

  lemma FlaggedPropagated(f: Frame, g: Signals, c: Scope)
    requires WellFormed(f, g) && c in f.deadline && c !in g.cancelCalled && InPlace(f, c)
    ensures WellFormed(f, Flagged(g, c))
    ensures Propagated(f, g, Flagged(g, c), if c in f.statusOf then {f.statusOf[c]} else {}, {}, {c})
  {
    hide Woken, Linked, QueuedOnce, Counted;
    var h := Flagged(g, c);
    NobodyWoken(g, h);
    FlaggedWellFormed(f, g, c);
    forall s | Settled(f, g.cancelled, g.cancelCalled, s) && !(c in f.statusOf && s == f.statusOf[c])
      ensures Settled(f, h.cancelled, h.cancelCalled, s)
    {
      if s in f.scopeOf && s !in f.closed && f.scopeOf[s] == c {
        OnlyStatus(f, c, s);
      }
    }
  }

  /** One status changes its state. */
  function Flipped(g: Signals, s: Status): Signals {
    g.(cancelled := if s in g.cancelled then g.cancelled - {s} else g.cancelled + {s})
  }

  lemma FlippedWellFormed(f: Frame, g: Signals, s: Status)
    requires WellFormed(f, g) && s in f.scopeOf && s !in f.closed
    ensures WellFormed(f, Flipped(g, s))
  {
  }

  /** The clock check, then the flip. */
  lemma FlippedLater(f: Frame, g: Signals, v: Signals, s: Status)
    requires WellFormed(f, v) && s in f.scopeOf && s !in f.closed && Rooted(f, v.cancelled, v.cancelCalled, s)
    requires s in f.children && s in f.members && (s in v.cancelled) != Expected(f, v.cancelled, v.cancelCalled, s)
    requires Propagated(f, g, v, {}, {}, {}) && Spared(f, g, v, {})
    ensures var w, told := Flipped(v, s), if s in v.cancelled then {} else f.members[s];
      && WellFormed(f, w) && Settled(f, w.cancelled, w.cancelCalled, s)
      && Propagated(f, g, w, f.children[s], told, {}) && Spared(f, g, w, {})
      && (s !in v.cancelled ==> Reached(f, w.cancelled, w.cancelCalled, s))
  {
    hide Propagated, WellFormed, Settled, Rooted, Reached, Spared, Expected;
    var w, told := Flipped(v, s), if s in v.cancelled then {} else f.members[s];
    FlippedPropagated(f, v, s);
    Chain(f, g, v, w, {}, {}, {}, f.children[s], told, {});
    Discharge(f, g, w, {} + f.children[s], {} + told, {} + {}, f.children[s], told, {});
    SparedSame(f, v, w, {});
    SparedThen(f, g, v, w, {}, {}, {}, {}, {});
  }

  lemma FlippedPropagated(f: Frame, g: Signals, s: Status)
    requires WellFormed(f, g) && s in f.scopeOf && s !in f.closed && Rooted(f, g.cancelled, g.cancelCalled, s)
    requires (s in g.cancelled) != Expected(f, g.cancelled, g.cancelCalled, s)
    ensures WellFormed(f, Flipped(g, s)) && Settled(f, Flipped(g, s).cancelled, g.cancelCalled, s)
    ensures Propagated(f, g, Flipped(g, s), f.children[s], if s in g.cancelled then {} else f.members[s], {})
    ensures s !in g.cancelled ==> Reached(f, Flipped(g, s).cancelled, g.cancelCalled, s)
  {
    hide Woken, Reached, Rooted;
    var h := Flipped(g, s);
    NobodyWoken(g, h);
    FlippedWellFormed(f, g, s);
    RootedExact(f, g.cancelled, g.cancelCalled, s);
    if s !in g.cancelled { ReachedStays(f, g, h, s); }
    forall z | Settled(f, g.cancelled, g.cancelCalled, z) && z !in f.children[s] ensures Settled(f, h.cancelled, h.cancelCalled, z) {
      if z in f.parent { assert f.parent[z] in f.scopeOf; }
    }
    forall t | Delivered(f, g.cancelled, g.abortFunc, t) && t !in (if s in g.cancelled then {} else f.members[s]) ensures Delivered(f, h.cancelled, h.abortFunc, t) {
      if t in f.taskStatus { assert t in f.members[f.taskStatus[t]]; }
    }
  }

  // ---------- the worklist ----------

  /** The worklist holds distinct statuses below `root`, none visited, each entered from a visited parent. */
  ghost predicate Worklist(f: Frame, root: Status, todo: seq<Status>, visited: set<Status>) {
    && visited <= f.scopeOf.Keys
    && (forall i :: 0 <= i < |todo| ==> todo[i] in f.scopeOf && todo[i] !in visited && FoundFrom(f, root, todo[i], visited))
    && Distinct(todo)
    && (forall s :: s in visited ==> FoundFrom(f, root, s, visited))
  }

  ghost predicate FoundFrom(f: Frame, root: Status, s: Status, visited: set<Status>) {
    root <= s && (s == root || (s in f.parent && f.parent[s] in visited))
  }

  lemma LastOf(todo: seq<Status>)
    requires todo != [] && Distinct(todo)
    ensures var last, rest := todo[|todo| - 1], todo[..|todo| - 1];
      ToSet(todo) == ToSet(rest) + {last} && last !in rest
  {
    assert todo == todo[..|todo| - 1] + [todo[|todo| - 1]];
  }

  lemma WorklistPopped(f: Frame, g: Signals, root: Status, todo: seq<Status>, visited: set<Status>)
    requires WellFormed(f, g) && Worklist(f, root, todo, visited) && todo != []
    ensures f.children.Keys == f.scopeOf.Keys == f.members.Keys
    ensures var current := todo[|todo| - 1];
      && current in f.scopeOf && f.scopeOf[current] in f.deadline && current !in visited
      && Worklist(f, root, todo[..|todo| - 1], visited + {current})
      && ToSet(todo) == ToSet(todo[..|todo| - 1]) + {current} && current !in todo[..|todo| - 1]
      && root !in f.children[current]
  {
    hide ToSet;
    var current := todo[|todo| - 1];
    LastOf(todo);
    assert FoundFrom(f, root, current, visited);
    forall c | c in f.children[current] ensures root != c {
      assert f.parent[c] == current && current < c;
    }
  }

  lemma WorklistExtended(f: Frame, g: Signals, root: Status, todo: seq<Status>, visited: set<Status>, current: Status, more: seq<Status>)
    requires WellFormed(f, g) && Worklist(f, root, todo, visited)
    requires current in visited && forall i :: 0 <= i < |todo| ==> todo[i] !in f.children[current]
    requires forall s :: s in visited ==> s !in f.children[current]
    requires ToSet(more) == f.children[current]
    requires Distinct(more)
    ensures Worklist(f, root, todo + more, visited)
    ensures ToSet(todo + more) == ToSet(todo) + f.children[current]
  {
    assert FoundFrom(f, root, current, visited);
    forall i | 0 <= i < |more|
      ensures more[i] in f.scopeOf && more[i] !in visited && FoundFrom(f, root, more[i], visited)
    {
      var c := more[i];
      assert c in ToSet(more);
      assert c in f.parent && f.parent[c] == current;
    }
  }

  /** Nothing already seen is a child of a status seen only now. */
  lemma ChildrenUnseen(f: Frame, g: Signals, root: Status, todo: seq<Status>, visited: set<Status>)
    requires WellFormed(f, g) && Worklist(f, root, todo, visited) && todo != []
    ensures var current := todo[|todo| - 1];
      && (forall i :: 0 <= i < |todo| ==> todo[i] !in f.children[current])
      && (forall s :: s in visited + {current} ==> s !in f.children[current])
  {
    var current := todo[|todo| - 1];
    assert FoundFrom(f, root, current, visited);
    forall s | s in f.children[current] ensures s !in visited + {current} && forall i :: 0 <= i < |todo| ==> todo[i] != s {
      assert f.parent[s] == current && f.parent[s] < s;
      assert s in visited ==> FoundFrom(f, root, s, visited);
      assert forall i :: 0 <= i < |todo| ==> FoundFrom(f, root, todo[i], visited);
    }
  }

  /** The deadline that a scope should have registered: its own, while it is open and not cancelled. */
  function ToRegister(f: Frame, g: Signals, c: Scope): Time
    requires c in f.deadline
  {
    if c !in f.statusOf || c in g.cancelCalled then Inf else f.deadline[c]
  }

  function Reregistered(f: Frame, g: Signals, c: Scope): map<Scope, Time>
    requires c in f.deadline
  {
    Put(g.registered, c, ToRegister(f, g, c))
  }

  lemma NoExits(g: Signals, h: Signals, c: Scope)
    requires h.abortFunc == g.abortFunc && forall t :: !ExitsNursery(g, t, c)
    ensures forall t :: !ExitsNursery(h, t, c)
  {
    forall t ensures !ExitsNursery(h, t, c) {
      assert !ExitsNursery(g, t, c);
    }
  }

  lemma CallsCounted(f: Frame, g: Signals, h: Signals, task: Task, origin: set<Scope>)
    requires Propagated(f, g, h, {}, {}, origin) && task in g.abortFunc && task in g.abortCalls
    ensures task in h.abortCalls && h.abortCalls[task] == g.abortCalls[task] + if task in h.abortFunc then 0 else 1
  {
    assert CalledOnce(g, h, task);
  }

  lemma ClosedStays(f: Frame, g: Signals, h: Signals, s: Status)
    requires Propagated(f, g, h, {}, {}, {})
    ensures s in f.closed && s in g.cancelled ==> s in h.cancelled
  {
    assert s in f.closed && s in g.cancelled ==> s in f.closed * g.cancelled;
  }

  /** What the worklist comes to has everything outward of it settled. */
  lemma {:induction false} WorklistRooted(f: Frame, g: Signals, root: Status, todo: seq<Status>, visited: set<Status>, s: Status)
    requires Worklist(f, root, todo, visited) && Rooted(f, g.cancelled, g.cancelCalled, root)
    requires forall v :: v in visited ==> Settled(f, g.cancelled, g.cancelCalled, v)
    requires s in f.scopeOf && FoundFrom(f, root, s, visited)
    ensures Rooted(f, g.cancelled, g.cancelCalled, s)
    decreases s
  {
    if s != root && Exposed(f, s) {
      WorklistRooted(f, g, root, todo, visited, f.parent[s]);
    }
  }

  lemma {:induction false} RootedStays(f: Frame, g: Signals, h: Signals, todo: set<Status>, pending: set<Task>, origin: set<Scope>, s: Status)
    requires Propagated(f, g, h, todo, pending, origin) && Rooted(f, g.cancelled, g.cancelCalled, s)
    requires forall z :: z in todo ==> s <= z
    ensures Rooted(f, h.cancelled, h.cancelCalled, s)
    decreases s
  {
    hide Woken, StayCancelled, OnlyReached, Founded;
    if Exposed(f, s) && Rooted(f, g.cancelled, g.cancelCalled, f.parent[s]) {
      RootedStays(f, g, h, todo, pending, origin, f.parent[s]);
    }
  }

  /** How far `recalculate` for `root` has come from `g`: `u` is the state, `visited` the statuses it is done with. */
  ghost predicate Progress(f: Frame, g: Signals, u: Signals, root: Status, todo: seq<Status>, visited: set<Status>) {
    && Worklist(f, root, todo, visited)
    && Propagated(f, g, u, ToSet(todo), {}, {}) && Spared(f, g, u, {})
    && Rooted(f, u.cancelled, u.cancelCalled, root)
    && (forall v :: v in visited ==> Settled(f, u.cancelled, u.cancelCalled, v))
    && (Settled(f, u.cancelled, u.cancelCalled, root) || root in todo)
  }

  lemma ProgressStarts(f: Frame, g: Signals, root: Status)
    requires root in f.scopeOf && Rooted(f, g.cancelled, g.cancelCalled, root)
    ensures Progress(f, g, g, root, [root], {})
  {
    hide Propagated, Settled, Rooted, Spared;
    Unchanged(f, g);
    SparedSame(f, g, g, {});
    Discharge(f, g, g, {}, {}, {}, ToSet([root]), {}, {});
  }

  /** What `recalculate` may rely on for the status that it takes next. */
  lemma ProgressNext(f: Frame, g: Signals, u: Signals, root: Status, todo: seq<Status>, visited: set<Status>)
    requires WellFormed(f, u) && Progress(f, g, u, root, todo, visited) && todo != [] && root in f.scopeOf
    requires root in f.closed ==> root in g.cancelled && f.scopeOf[root] in g.cancelCalled
    ensures var s := todo[|todo| - 1];
      && s in f.scopeOf && s in f.members && s in f.children && f.scopeOf[s] in f.deadline && s !in visited
      && Rooted(f, u.cancelled, u.cancelCalled, s)
      && (s in f.closed ==> s in u.cancelled && f.scopeOf[s] in u.cancelCalled)
  {
    hide Propagated, Settled, Rooted, Worklist, WellFormed;
    WorklistPopped(f, u, root, todo, visited);
    OnlyRootClosed(f, g, u, root, todo, visited);
    FoundLast(f, root, todo, visited);
    WorklistRooted(f, u, root, todo, visited, todo[|todo| - 1]);
  }

  lemma FoundLast(f: Frame, root: Status, todo: seq<Status>, visited: set<Status>)
    requires Worklist(f, root, todo, visited) && todo != []
    ensures FoundFrom(f, root, todo[|todo| - 1], visited) && todo[|todo| - 1] in f.scopeOf
  {
  }

  lemma ChildrenAbove(f: Frame, g: Signals, root: Status, todo: seq<Status>, visited: set<Status>, below: set<Status>)
    requires WellFormed(f, g) && Worklist(f, root, todo, visited) && todo != []
    requires todo[|todo| - 1] in f.children && below <= f.children[todo[|todo| - 1]]
    ensures forall z :: z in below ==> root <= z
  {
    var current := todo[|todo| - 1];
    assert FoundFrom(f, root, current, visited);
    forall z | z in below ensures root <= z {
      assert f.parent[z] == current && current < z;
    }
  }

  lemma StaySettled(f: Frame, g: Signals, h: Signals, todo: set<Status>, pending: set<Task>, origin: set<Scope>, statuses: set<Status>)
    requires Propagated(f, g, h, todo, pending, origin)
    requires forall s :: s in statuses ==> s !in todo && Settled(f, g.cancelled, g.cancelCalled, s)
    ensures forall s :: s in statuses ==> Settled(f, h.cancelled, h.cancelCalled, s)
  {
    hide Settled, Woken, StayCancelled, OnlyReached, ScopesCancelled;
  }

  /** After the visit of the last of the worklist, from `u` to `k`, with `more` to be put there instead. */
  lemma ProgressMade(f: Frame, g: Signals, u: Signals, k: Signals, root: Status, todo: seq<Status>, visited: set<Status>, more: seq<Status>)
    requires WellFormed(f, u) && Progress(f, g, u, root, todo, visited) && todo != []
    requires var current := todo[|todo| - 1];
      && current in f.children && (ToSet(more) == f.children[current] || more == [])
      && Propagated(f, u, k, ToSet(more), {}, {}) && Spared(f, u, k, {})
      && Settled(f, k.cancelled, k.cancelCalled, current)
    requires Distinct(more)
    ensures Progress(f, g, k, root, todo[..|todo| - 1] + more, visited + {todo[|todo| - 1]})
  {
    hide Propagated, Settled, Rooted, WellFormed, Spared, Worklist, ToSet;
    var current, rest, below := todo[|todo| - 1], todo[..|todo| - 1], ToSet(more);
    WorklistPopped(f, u, root, todo, visited);
    ChildrenUnseen(f, u, root, todo, visited);
    ProgressPropagated(f, g, u, k, todo, more);
    SparedThen(f, g, u, k, ToSet(todo), {}, {}, {}, {});
    NothingIn(more);
    StaySettled(f, u, k, below, {}, {}, visited);
    StaysSettled(f, u, k, below, {}, {}, root);
    ChildrenAbove(f, u, root, todo, visited, below);
    RootedStays(f, u, k, below, {}, {}, root);
    if more == [] {
      assert rest + more == rest;
    } else {
      WorklistExtended(f, u, root, rest, visited + {current}, current, more);
    }
  }

  lemma NothingIn(more: seq<Status>)
    ensures more == [] ==> ToSet(more) == {}
  {
  }

  lemma ProgressPropagated(f: Frame, g: Signals, u: Signals, k: Signals, todo: seq<Status>, more: seq<Status>)
    requires Propagated(f, g, u, ToSet(todo), {}, {}) && Propagated(f, u, k, ToSet(more), {}, {}) && todo != []
    requires Settled(f, k.cancelled, k.cancelCalled, todo[|todo| - 1])
    ensures Propagated(f, g, k, ToSet(todo[..|todo| - 1] + more), {}, {})
  {
    hide Propagated, Settled;
    Chain(f, g, u, k, ToSet(todo), {}, {}, ToSet(more), {}, {});
    assert todo == todo[..|todo| - 1] + [todo[|todo| - 1]];
    Discharge(f, g, k, ToSet(todo) + ToSet(more), {} + {}, {} + {}, ToSet(todo[..|todo| - 1] + more), {}, {});
  }

  lemma StaysReached(f: Frame, g: Signals, h: Signals, s: Status)
    requires Propagated(f, g, h, {}, {}, {}) && s in g.cancelled && Reached(f, g.cancelled, g.cancelCalled, s)
    ensures s in h.cancelled && Reached(f, h.cancelled, h.cancelCalled, s)
  {
    hide Settled, Woken, OnlyReached, Founded;
    ReachedStays(f, g, h, s);
  }

  lemma ReachedTasks(f: Frame, g: Signals, s: Status, t: Task)
    requires WellFormed(f, g) && s in f.members && t in f.members[s]
    requires s in g.cancelled && Reached(f, g.cancelled, g.cancelCalled, s)
    ensures InCancelled(f, g, t)
  {
  }

  lemma CancelledStays(f: Frame, g: Signals, h: Signals, origin: set<Scope>, s: Status)
    requires Propagated(f, g, h, {}, {}, origin)
    ensures s in g.cancelled && Reached(f, g.cancelled, g.cancelCalled, s) ==> s in h.cancelled
  {
    hide Reached, Settled, Delivered, Woken, Founded;
  }

  lemma StaysSettled(f: Frame, g: Signals, h: Signals, todo: set<Status>, pending: set<Task>, origin: set<Scope>, s: Status)
    requires Propagated(f, g, h, todo, pending, origin)
    ensures Settled(f, g.cancelled, g.cancelCalled, s) && s !in todo ==> Settled(f, h.cancelled, h.cancelCalled, s)
  {
  }

  lemma StayAllSettled(f: Frame, g: Signals, h: Signals)
    requires Propagated(f, g, h, {}, {}, {})
    ensures forall s :: Settled(f, g.cancelled, g.cancelCalled, s) ==> Settled(f, h.cancelled, h.cancelCalled, s)
  {
  }

  lemma StayDelivered(f: Frame, g: Signals, h: Signals)
    requires Propagated(f, g, h, {}, {}, {})
    ensures forall t :: Delivered(f, g.cancelled, g.abortFunc, t) ==> Delivered(f, h.cancelled, h.abortFunc, t)
  {
  }

  lemma MembersHaveStatus(f: Frame, g: Signals, s: Status)
    requires WellFormed(f, g) && s in f.members
    ensures forall t :: t in f.members[s] ==> t in f.taskStatus
  {
  }

  /** A status on the worklist that is closed can only be the root. */
  lemma OnlyRootClosed(f: Frame, g: Signals, h: Signals, root: Status, todo: seq<Status>, visited: set<Status>)
    requires WellFormed(f, h) && Worklist(f, root, todo, visited) && todo != []
    requires Propagated(f, g, h, ToSet(todo), {}, {})
    requires root in f.scopeOf && (root in f.closed ==> root in g.cancelled && f.scopeOf[root] in g.cancelCalled)
    ensures var s := todo[|todo| - 1];
      s in f.closed ==> s in f.scopeOf && s in h.cancelled && f.scopeOf[s] in h.cancelCalled
  {
    assert FoundFrom(f, root, todo[|todo| - 1], visited);
    assert root in f.closed ==> root in f.closed * g.cancelled;
  }

  lemma StatusInPlace(f: Frame, g: Signals, c: Scope)
    requires WellFormed(f, g)
    ensures c in f.statusOf ==> f.statusOf[c] in f.scopeOf && f.scopeOf[f.statusOf[c]] == c
    ensures c in f.statusOf && f.statusOf[c] in f.closed ==> f.statusOf[c] in g.cancelled
    ensures c in g.registered ==> g.registered[c] != Inf
  {
  }

  lemma CancelledNotRegistered(f: Frame, g: Signals, c: Scope)
    requires WellFormed(f, g) && c in g.cancelCalled
    ensures g.registered - {c} == g.registered
  {
  }

  lemma UnenteredInPlace(f: Frame, g: Signals, c: Scope)
    requires WellFormed(f, g) && (c in f.statusOf || c !in f.entered)
    ensures InPlace(f, c)
  {
  }

  /** A scope cancelled because the clock has passed its deadline has that reason. */
  lemma LatestClock(f: Frame, g: Signals, h: Signals, c: Scope)
    requires Propagated(f, g, h, {}, {}, {c}) && c in f.deadline && Le(f.deadline[c], At(g.clock))
    ensures Propagated(f, g, h, {}, {}, {})
  {
    Discharge(f, g, h, {}, {}, {c}, {}, {}, {});
  }

  lemma StillRegistered(f: Frame, g: Signals, h: Signals, origin: set<Scope>, c: Scope)
    requires Propagated(f, g, h, {}, {}, origin) && c in h.registered
    ensures c in g.registered && g.registered[c] == h.registered[c]
  {
  }

  /** A scope that has a deadline registered no more has been cancelled. */
  lemma DueCancelled(f: Frame, g: Signals, h: Signals, now: real)
    requires Propagated(f, g, h, {}, {}, Due(g.registered, now)) && Due(h.registered, now) == {}
    ensures Due(g.registered, now) <= h.cancelCalled
  {
    forall c | c in Due(g.registered, now) ensures c in h.cancelCalled {
      assert c in h.registered ==> c in Due(h.registered, now);
      assert c in g.registered.Keys;
    }
  }

  /** A task that loses its abort function to a propagation wakes up if the function says so. */
  lemma WokenByAbort(f: Frame, g: Signals, h: Signals, origin: set<Scope>, task: Task)
    requires Propagated(f, g, h, {}, {}, origin) && task in g.abortFunc && task !in g.nextSend
    ensures task !in h.abortFunc ==> (task in h.nextSend <==> g.abortFunc[task] == QueueAbort(Succeeded))
  {
  }

  lemma BlockedTask(f: Frame, g: Signals, task: Task)
    requires WellFormed(f, g) && task in g.abortFunc
    ensures task in f.pauses && task !in g.nextSend && g.queueings.Keys == f.pauses.Keys == g.abortCalls.Keys
    ensures g.queueings[task] == f.pauses[task]
    ensures g.abortFunc[task].NurseryExit? ==> g.abortFunc[task].scope in f.deadline && InPlace(f, g.abortFunc[task].scope)
  {
  }

  /** After the callback of a nursery exit, the task is blocked as before. */
  lemma NurseryExited(f: Frame, g: Signals, h: Signals, c: Scope, task: Task)
    requires WellFormed(f, g) && WellFormed(f, h) && ExitsNursery(g, task, c)
    requires Propagated(f, g, h, {}, {}, {c})
    ensures task !in h.nextSend && h.queueings[task] == f.pauses[task]
    ensures h.queueings.Keys == f.pauses.Keys == h.abortCalls.Keys
    ensures task in h.abortFunc ==> h.abortFunc[task] == NurseryExit(c)
  {
  }
}
