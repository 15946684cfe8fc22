/** What the incremental upkeep of the cancel statuses means: the simple definitions that it agrees with. */
module CancelMeaning {
  import opened Times
  import opened DeadlineHeap
  import opened CancelState
  import opened CancelTree

  /** A status that is cancelled on its own account: its scope was cancelled, or it was left cancelled when it was closed. */
  ghost predicate CancelledItself(f: Frame, g: Signals, z: Status) {
    z in f.scopeOf && if z in f.closed then z in g.cancelled else f.scopeOf[z] in g.cancelCalled
  }

  ghost predicate CancelledOnPath(f: Frame, g: Signals, s: Status) {
    exists z :: z in UnshieldedPath(f, s) && CancelledItself(f, g, z)
  }

  /** What one status can tell from its own scope and its parent. */
  lemma LocalState(f: Frame, g: Signals, s: Status)
    requires Sound(f, g, NO_GAPS) && s in f.scopeOf
    ensures s in f.closed ==> s !in f.parent
    ensures s !in f.closed ==> (s in g.cancelled <==> f.scopeOf[s] in g.cancelCalled || ParentCancellationIsVisible(f, g.cancelled, s))
    ensures s in f.parent ==> f.parent[s] in f.scopeOf && 0 <= f.parent[s] < s
    ensures f.scopeOf[s] in f.deadline
  {
    assert Settled(f, g.cancelled, g.cancelCalled, s);
  }

  /**
   * `effectively_cancelled` says whether some status on the way outward, up to the first shield, was
   * itself cancelled: the worklist that stops early loses nothing.
   */
  lemma {:induction false} CancelledMeansOnPath(f: Frame, g: Signals, s: Status)
    requires Sound(f, g, NO_GAPS) && s in f.scopeOf
    ensures s in g.cancelled <==> CancelledOnPath(f, g, s)
    decreases s
  {
    hide Sound;
    LocalState(f, g, s);
    var path := UnshieldedPath(f, s);
    assert path[0] == s;
    if s in f.parent && f.scopeOf[s] !in f.shielded {
      var p := f.parent[s];
      var outer := UnshieldedPath(f, p);
      CancelledMeansOnPath(f, g, p);
      assert path == [s] + outer;
      assert forall z :: z in path <==> z == s || z in outer;
      if s in g.cancelled && !CancelledItself(f, g, s) {
        var z :| z in outer && CancelledItself(f, g, z);
        assert z in path;
      }
    } else {
      assert path == [s] && s in path;
      assert s in g.cancelled <==> CancelledItself(f, g, s);
    }
  }

  /**
   * What every reachable state has, in terms of paths and queues: the flags agree with the simple
   * definition, no task that could be woken is left asleep under a cancellation, and run queue and batch
   * together hold every scheduled task once and nothing else.
   */
  lemma ReachableStates(f: Frame, g: Signals)
    requires Sound(f, g, NO_GAPS)
    ensures forall s :: s in f.scopeOf ==> (s in g.cancelled <==> CancelledOnPath(f, g, s))
    ensures forall t :: t in g.abortFunc && t in f.taskStatus ==> !CancelledOnPath(f, g, f.taskStatus[t])
    ensures forall t :: multiset(g.runq)[t] + multiset(f.batch)[t] == if t in g.nextSend then 1 else 0
    ensures forall c :: c in f.deadline ==>
      (c in g.registered <==> c in f.statusOf && c !in g.cancelCalled && f.deadline[c] != Inf)
  {
    forall s | s in f.scopeOf ensures s in g.cancelled <==> CancelledOnPath(f, g, s) {
      CancelledMeansOnPath(f, g, s);
    }
    SoundLinked(f, g, NO_GAPS);
    forall t | t in g.abortFunc && t in f.taskStatus ensures !CancelledOnPath(f, g, f.taskStatus[t]) {
      assert Delivered(f, g.cancelled, g.abortFunc, t);
    }
    QueuesExact(g.runq, f.batch, g.nextSend.Keys);
    forall c | c in f.deadline ensures c in g.registered <==> c in f.statusOf && c !in g.cancelCalled && f.deadline[c] != Inf {
      assert UpToDate(f, g.cancelCalled, g.registered, c);
    }
  }

  /**
   * What an operation does to a task that was blocked before: its abort function is called, once, just
   * when the task has come under a cancelled scope, and the task wakes up just when it answers
   * `Succeeded`. Nobody else's is called.
   */
  lemma ExactlyTheCancelledAreTold(f: Frame, g: Signals, h: Signals, origin: set<Scope>, t: Task)
    requires Sound(f, h, NO_GAPS) && Effects(f, g, h, origin)
    requires t in g.abortFunc && t in f.taskStatus && t !in g.nextSend && t in g.abortCalls
    ensures t in h.abortFunc <==> !CancelledOnPath(f, h, f.taskStatus[t])
    ensures t in h.abortCalls && h.abortCalls[t] == g.abortCalls[t] + if CancelledOnPath(f, h, f.taskStatus[t]) then 1 else 0
    ensures t in h.nextSend <==> CancelledOnPath(f, h, f.taskStatus[t]) && g.abortFunc[t] == QueueAbort(Succeeded)
  {
    hide CancelledOnPath;
    SoundLinked(f, h, NO_GAPS);
    CancelledMeansOnPath(f, h, f.taskStatus[t]);
    assert Delivered(f, h.cancelled, h.abortFunc, t);
    assert CalledOnce(g, h, t);
  }

  lemma QueuesExact(runq: seq<Task>, batch: seq<Task>, scheduled: set<Task>)
    requires QueuedOnce(runq, batch, scheduled)
    ensures forall t :: multiset(runq)[t] + multiset(batch)[t] == if t in scheduled then 1 else 0
  {
    forall t | t !in scheduled ensures t !in multiset(runq) && t !in multiset(batch) {
      assert t in multiset(runq) ==> t in runq;
      assert t in multiset(batch) ==> t in batch;
    }
  }

  /** The scope whose exit would catch: the first, outward from `s`, that the cancellation of its parent does not reach. */
  function Catcher(f: Frame, cancelled: set<Status>, s: Status): Status
    decreases s
  {
    if s in f.parent && s in f.scopeOf && f.scopeOf[s] !in f.shielded && 0 <= f.parent[s] < s && f.parent[s] in cancelled
    then Catcher(f, cancelled, f.parent[s]) else s
  }

  /**
   * From a cancelled status the way outward always reaches a scope that would catch `Cancelled`, and
   * that scope was itself cancelled, or is an abandoned root; nothing on the way would have caught it.
   */
  lemma {:induction false} CancellationIsCaught(f: Frame, g: Signals, s: Status)
    requires Sound(f, g, NO_GAPS) && s in f.scopeOf && s in g.cancelled
    ensures var z := Catcher(f, g.cancelled, s);
      && z in f.scopeOf && z in g.cancelled && !ParentCancellationIsVisible(f, g.cancelled, z)
      && CancelledItself(f, g, z) && z in UnshieldedPath(f, s) && Encloses(f.parent, z, s)
      && (forall y :: y in f.scopeOf && Encloses(f.parent, y, s) && Encloses(f.parent, z, y) && y != z ==>
            y in g.cancelled && ParentCancellationIsVisible(f, g.cancelled, y))
    decreases s
  {
    hide Sound;
    LocalState(f, g, s);
    var z := Catcher(f, g.cancelled, s);
    if ParentCancellationIsVisible(f, g.cancelled, s) {
      var p := f.parent[s];
      CancellationIsCaught(f, g, p);
      assert UnshieldedPath(f, s) == [s] + UnshieldedPath(f, p);
      forall y | y in f.scopeOf && Encloses(f.parent, y, s) && Encloses(f.parent, z, y) && y != z
        ensures y in g.cancelled && ParentCancellationIsVisible(f, g.cancelled, y)
      {
        assert y == s || Encloses(f.parent, y, p);
      }
    } else {
      assert z == s && UnshieldedPath(f, s)[0] == s;
      forall y | Encloses(f.parent, y, s) && Encloses(f.parent, s, y) ensures y == s {
        EnclosesOrder(f.parent, y, s);
        EnclosesOrder(f.parent, s, y);
      }
    }
  }

  lemma {:induction false} EnclosesOrder(parent: map<Status, Status>, s: Status, other: Status)
    requires Encloses(parent, s, other)
    ensures s <= other
    decreases other
  {
    if other != s {
      EnclosesOrder(parent, s, parent[other]);
    }
  }

  /** `effective_deadline`. */
  function EffectiveDeadline(f: Frame, g: Signals, s: Status): Time
    decreases s
  {
    if s in g.cancelled then NegInf
    else
      var own := if s in f.scopeOf && f.scopeOf[s] in f.deadline then f.deadline[f.scopeOf[s]] else Inf;
      if s in f.parent && s in f.scopeOf && f.scopeOf[s] !in f.shielded && 0 <= f.parent[s] < s
      then Min(own, EffectiveDeadline(f, g, f.parent[s])) else own
  }

  /** An exited scope whose status is still in use, which no deadline can cancel any more. */
  ghost predicate PastItsScope(f: Frame, g: Signals, now: real, z: Status) {
    && z in f.scopeOf && z in f.closed && z !in g.cancelled
    && f.scopeOf[z] in f.deadline && Le(f.deadline[f.scopeOf[z]], At(now))
  }

  /**
   * Once `expire(now)` has left no registered deadline behind it, a status has an effective deadline in
   * the past just when it is effectively cancelled, through any nesting of scopes and shields. The one
   * exception is a deadline of a scope that has been exited while its status was not.
   */
  lemma {:induction false} DeadlinesKept(f: Frame, g: Signals, now: real, s: Status)
    requires Sound(f, g, NO_GAPS) && Due(g.registered, now) == {} && s in f.scopeOf
    ensures Le(EffectiveDeadline(f, g, s), At(now)) <==>
      s in g.cancelled || exists z :: z in UnshieldedPath(f, s) && PastItsScope(f, g, now, z)
    decreases s
  {
    hide Sound;
    LocalState(f, g, s);
    if s in g.cancelled { return; }
    OwnDeadline(f, g, now, s);
    var path := UnshieldedPath(f, s);
    assert path[0] == s && s in path;
    if s in f.parent && f.scopeOf[s] !in f.shielded {
      var p := f.parent[s];
      var outer := UnshieldedPath(f, p);
      DeadlinesKept(f, g, now, p);
      assert path == [s] + outer;
      assert forall z :: z in path <==> z == s || z in outer;
      MinLe(f.deadline[f.scopeOf[s]], EffectiveDeadline(f, g, p), At(now));
    } else {
      assert path == [s];
    }
  }

  lemma MinLe(a: Time, b: Time, c: Time)
    ensures Le(Min(a, b), c) <==> Le(a, c) || Le(b, c)
  {
  }

  lemma OwnDeadline(f: Frame, g: Signals, now: real, s: Status)
    requires Sound(f, g, NO_GAPS) && Due(g.registered, now) == {} && s in f.scopeOf && s !in g.cancelled
    ensures f.scopeOf[s] in f.deadline
    ensures Le(f.deadline[f.scopeOf[s]], At(now)) <==> PastItsScope(f, g, now, s)
  {
    var c := f.scopeOf[s];
    assert Housed(f, s) && UpToDate(f, g.cancelCalled, g.registered, c);
    assert Settled(f, g.cancelled, g.cancelCalled, s);
    assert c in g.registered ==> c !in Due(g.registered, now);
  }
}
