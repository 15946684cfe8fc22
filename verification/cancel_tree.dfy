/**
 * The tree of cancel statuses: what its incremental upkeep amounts to, and the single steps by
 * which `trio/_core/_run.py` changes its shape.
 */
module CancelTree {
  import opened Options
  import opened Times
  import opened DeadlineHeap
  import opened CancelState

  // ---------- what holds between operations ----------

  /** What an operation in progress has yet to put right. */
  datatype Gaps = Gaps(statuses: set<Status>, tasks: set<Task>, scopes: set<Scope>)

  const NO_GAPS := Gaps({}, {}, {})

  /** The scope of a status knows it until the status is closed. */
  ghost predicate Housed(f: Frame, s: Status) {
    s in f.scopeOf ==> (s in f.closed <==> f.scopeOf[s] !in f.statusOf)
  }

  /** An open scope that is not cancelled has its finite deadline registered, and no other scope has. */
  ghost predicate UpToDate(f: Frame, cancelCalled: set<Scope>, registered: map<Scope, Time>, c: Scope) {
    c in f.deadline ==>
      && (c in registered <==> c in f.statusOf && c !in cancelCalled && f.deadline[c] != Inf)
      && (c in registered ==> registered[c] == f.deadline[c])
  }

  ghost predicate Sound(f: Frame, g: Signals, x: Gaps) {
    && WellFormed(f, g)
    && (forall s :: s !in x.statuses ==> Settled(f, g.cancelled, g.cancelCalled, s))
    && (forall s :: s !in x.statuses ==> Housed(f, s))
    && (forall t :: t !in x.tasks ==> Delivered(f, g.cancelled, g.abortFunc, t))
    && (forall c :: c !in x.scopes ==> UpToDate(f, g.cancelCalled, g.registered, c))
  }

  lemma EmptySound(f: Frame, g: Signals)
    requires f == NO_FRAME && g == NoSignals(g.clock)
    ensures Sound(f, g, NO_GAPS)
  {
  }

  lemma PropagatedSound(f: Frame, g: Signals, h: Signals, x: Gaps, origin: set<Scope>)
    requires Sound(f, g, x) && WellFormed(f, h) && Propagated(f, g, h, {}, {}, origin)
    ensures Sound(f, h, x)
  {
  }

  /** Everything outward of `s` is settled. */
  lemma {:induction false} SoundRooted(f: Frame, g: Signals, x: Gaps, s: Status)
    requires Sound(f, g, x) && s in f.scopeOf && forall z :: z in x.statuses ==> s <= z
    ensures Rooted(f, g.cancelled, g.cancelCalled, s)
    decreases s
  {
    if Exposed(f, s) {
      SoundRooted(f, g, x, f.parent[s]);
    }
  }

  /** Between operations a status is cancelled just when cancellation reaches it. */
  lemma SoundReached(f: Frame, g: Signals, x: Gaps, s: Status)
    requires Sound(f, g, x) && x.statuses == {} && s in f.scopeOf
    ensures s in g.cancelled <==> Reached(f, g.cancelled, g.cancelCalled, s)
  {
    SoundRooted(f, g, x, s);
    RootedExact(f, g.cancelled, g.cancelCalled, s);
  }

  lemma SoundInCancelled(f: Frame, g: Signals, x: Gaps, t: Task)
    requires Sound(f, g, x) && x.statuses == {} && t in f.taskStatus
    ensures f.taskStatus[t] in g.cancelled ==> InCancelled(f, g, t)
  {
    SoundLinked(f, g, x);
    SoundReached(f, g, x, f.taskStatus[t]);
  }

  /** Between operations no propagation takes back a cancellation. */
  lemma CancelledGrows(f: Frame, g: Signals, h: Signals, x: Gaps, origin: set<Scope>)
    requires Sound(f, g, x) && x.statuses == {} && Propagated(f, g, h, {}, {}, origin)
    ensures g.cancelled <= h.cancelled
  {
    hide Propagated;
    forall s | s in g.cancelled ensures s in h.cancelled {
      assert s in f.scopeOf;
      SoundReached(f, g, x, s);
      CancelledStays(f, g, h, origin, s);
    }
  }

  lemma Filled(f: Frame, g: Signals, x: Gaps, y: Gaps)
    requires Sound(f, g, x)
    requires forall s :: s in x.statuses && s !in y.statuses ==> Settled(f, g.cancelled, g.cancelCalled, s) && Housed(f, s)
    requires forall t :: t in x.tasks && t !in y.tasks ==> Delivered(f, g.cancelled, g.abortFunc, t)
    requires forall c :: c in x.scopes && c !in y.scopes ==> UpToDate(f, g.cancelCalled, g.registered, c)
    ensures Sound(f, g, y)
  {
  }

  /** The registered deadline brought up to date. */
  lemma ReregisteredSound(f: Frame, g: Signals, x: Gaps, c: Scope)
    requires Sound(f, g, x) && c in f.deadline
    ensures Sound(f, g.(registered := Reregistered(f, g, c)), x.(scopes := x.scopes - {c}))
  {
    var r := Reregistered(f, g, c);
    forall z | z !in x.scopes - {c} ensures UpToDate(f, g.cancelCalled, r, z) {
      assert z != c ==> UpToDate(f, g.cancelCalled, g.registered, z);
    }
  }

  // ---------- steps that change the shape of the tree ----------

  /** Two frames that agree on everything but the place of one status in the tree. */
  ghost predicate SameExcept(f: Frame, d: Frame, s: Status) {
    && d.taskStatus == f.taskStatus && d.statusOf == f.statusOf && d.deadline == f.deadline
    && d.closed == f.closed && d.shielded == f.shielded
    && (forall z :: z in d.scopeOf && z != s ==> z in f.scopeOf && d.scopeOf[z] == f.scopeOf[z])
    && (forall z :: z in d.scopeOf && z != s ==> (z in d.parent <==> z in f.parent))
    && (forall z :: z in d.scopeOf && z != s && z in f.parent && z in d.parent ==> d.parent[z] == f.parent[z])
  }

  lemma MovedSound(f: Frame, d: Frame, g: Signals, x: Gaps, s: Status)
    requires Sound(f, g, x) && WellFormed(d, g) && SameExcept(f, d, s)
    ensures Sound(d, g, x.(statuses := x.statuses + {s}))
  {
    forall z | z !in x.statuses + {s} ensures Settled(d, g.cancelled, g.cancelCalled, z) && Housed(d, z) {
      assert Settled(f, g.cancelled, g.cancelCalled, z) && Housed(f, z);
    }
    forall t | t !in x.tasks ensures Delivered(d, g.cancelled, g.abortFunc, t) {
      assert Delivered(f, g.cancelled, g.abortFunc, t);
    }
    forall c | c !in x.scopes ensures UpToDate(d, g.cancelCalled, g.registered, c) {
      assert UpToDate(f, g.cancelCalled, g.registered, c);
    }
  }

  /** A status taken from its parent. */
  function Detached(f: Frame, s: Status): Frame
    requires s in f.parent ==> f.parent[s] in f.children
  {
    if s !in f.parent then f
    else f.(children := f.children[f.parent[s] := f.children[f.parent[s]] - {s}], parent := f.parent - {s})
  }

  lemma DetachedLinked(f: Frame, s: Status)
    requires Linked(f)
    ensures s in f.parent ==> f.parent[s] in f.children
    ensures Linked(Detached(f, s))
  {
    hide TasksLinked;
  }

  lemma DetachedWellFormed(f: Frame, g: Signals, s: Status)
    requires WellFormed(f, g)
    ensures s in f.parent ==> f.parent[s] in f.children
    ensures WellFormed(Detached(f, s), g)
  {
    var d := Detached(f, s);
    DetachedLinked(f, s);
    assert ScopesOk(d, g.cancelled, g.cancelCalled);
    AbortsSame(f, d, g.abortFunc);
    WellFormedFrom(f, g, d, g);
  }

  lemma DetachedSame(f: Frame, g: Signals, s: Status)
    requires WellFormed(f, g)
    ensures (s in f.parent ==> f.parent[s] in f.children) && SameExcept(f, Detached(f, s), s)
  {
    hide ScopesOk, QueuedOnce, Counted, AbortsOk, RegisteredOk, TasksLinked;
  }

  lemma DetachedSound(f: Frame, g: Signals, x: Gaps, s: Status)
    requires Sound(f, g, x)
    ensures s in f.parent ==> f.parent[s] in f.children
    ensures Sound(Detached(f, s), g, x.(statuses := x.statuses + {s}))
  {
    hide WellFormed, SameExcept;
    SoundWellFormed(f, g, x);
    DetachedSame(f, g, s);
    DetachedWellFormed(f, g, s);
    MovedSound(f, Detached(f, s), g, x, s);
  }

  lemma DetachedKeeps(f: Frame, s: Status)
    requires s in f.parent ==> f.parent[s] in f.children
    ensures var d := Detached(f, s);
      && s !in d.parent && d == f.(children := d.children, parent := f.parent - {s})
      && d.children.Keys == f.children.Keys
  {
    assert s !in f.parent ==> f.parent - {s} == f.parent;
  }

  /** Nothing has to be worked out again for a status that its parent did not cancel. */
  lemma DetachedQuietly(f: Frame, g: Signals, x: Gaps, s: Status)
    requires Sound(f, g, x) && s in f.scopeOf && !ParentCancellationIsVisible(f, g.cancelled, s)
    ensures s in f.parent ==> f.parent[s] in f.children
    ensures Sound(Detached(f, s), g, x)
  {
    DetachedSound(f, g, x, s);
    var d := Detached(f, s);
    assert Settled(f, g.cancelled, g.cancelCalled, s) ==> Settled(d, g.cancelled, g.cancelCalled, s);
    assert Housed(f, s) ==> Housed(d, s);
  }

  /** A status without a parent given one. */
  function AttachedTo(f: Frame, s: Status, p: Status): Frame
    requires p in f.children
  {
    f.(children := f.children[p := f.children[p] + {s}], parent := f.parent[s := p])
  }

  lemma AttachedLinked(f: Frame, s: Status, p: Status)
    requires Linked(f) && s in f.scopeOf && s !in f.parent && p in f.scopeOf && p < s
    ensures p in f.children && Linked(AttachedTo(f, s, p))
  {
    hide TasksLinked;
  }

  lemma AttachedWellFormed(f: Frame, g: Signals, s: Status, p: Status)
    requires WellFormed(f, g) && s in f.scopeOf && s !in f.parent && s !in f.closed && p in f.scopeOf && p < s
    ensures p in f.children && WellFormed(AttachedTo(f, s, p), g)
  {
    AttachedLinked(f, s, p);
    var d := AttachedTo(f, s, p);
    assert ScopesOk(d, g.cancelled, g.cancelCalled);
    AbortsSame(f, d, g.abortFunc);
    WellFormedFrom(f, g, d, g);
  }

  lemma AttachedSound(f: Frame, g: Signals, x: Gaps, s: Status, p: Status)
    requires Sound(f, g, x) && s in f.scopeOf && s !in f.parent && s !in f.closed && p in f.scopeOf && p < s
    ensures p in f.children && Sound(AttachedTo(f, s, p), g, x.(statuses := x.statuses + {s}))
  {
    AttachedWellFormed(f, g, s, p);
    MovedSound(f, AttachedTo(f, s, p), g, x, s);
  }

  /** What reaches a status still does once a root has been attached somewhere. */
  lemma {:induction false} AttachedReached(f: Frame, g: Signals, s: Status, p: Status, z: Status)
    requires s !in f.parent && p in f.children && Reached(f, g.cancelled, g.cancelCalled, z)
    ensures Reached(AttachedTo(f, s, p), g.cancelled, g.cancelCalled, z)
    decreases z
  {
    if z !in f.closed && f.scopeOf[z] !in g.cancelCalled {
      AttachedReached(f, g, s, p, f.parent[z]);
    }
  }

  /** Attaching a root takes back no cancellation. */
  lemma AttachedGrows(f: Frame, g: Signals, h: Signals, s: Status, p: Status)
    requires Sound(f, g, NO_GAPS) && s !in f.parent && p in f.children
    requires Propagated(AttachedTo(f, s, p), g, h, {}, {}, {})
    ensures g.cancelled <= h.cancelled
  {
    hide Propagated;
    forall z | z in g.cancelled ensures z in h.cancelled {
      assert z in f.scopeOf;
      SoundReached(f, g, NO_GAPS, z);
      AttachedReached(f, g, s, p, z);
      CancelledStays(AttachedTo(f, s, p), g, h, {}, z);
    }
  }

  /** A new status for a scope, outside the tree as yet. */
  function WithStatus(f: Frame, c: Scope): Frame {
    var s := f.nextStatus;
    f.(nextStatus := s + 1, scopeOf := f.scopeOf[s := c], children := f.children[s := {}], members := f.members[s := {}])
  }

  lemma WithStatusLinked(f: Frame, c: Scope)
    requires Linked(f) && 0 <= f.nextStatus
    ensures Linked(WithStatus(f, c)) && f.nextStatus !in f.scopeOf && f.nextStatus !in f.parent
  {
  }

  lemma WithStatusWellFormed(f: Frame, g: Signals, c: Scope)
    requires WellFormed(f, g) && 0 <= f.nextStatus && c in f.entered && c !in f.statusOf
    requires forall s :: s in f.scopeOf ==> f.scopeOf[s] != c
    requires forall t :: !ExitsNursery(g, t, c)
    ensures WellFormed(WithStatus(f, c), g)
    ensures f.nextStatus !in f.scopeOf && f.nextStatus !in f.parent && f.nextStatus !in f.closed && f.nextStatus !in g.cancelled
  {
    var d := WithStatus(f, c);
    WithStatusLinked(f, c);
    forall t | t in g.abortFunc && g.abortFunc[t].NurseryExit?
      ensures g.abortFunc[t].scope in d.entered && InPlace(d, g.abortFunc[t].scope)
    {
      assert !ExitsNursery(g, t, c);
      assert InPlace(f, g.abortFunc[t].scope);
    }
  }

  lemma WithStatusSound(f: Frame, g: Signals, x: Gaps, c: Scope)
    requires Sound(f, g, x) && 0 <= f.nextStatus && c in f.entered && c !in f.statusOf
    requires forall s :: s in f.scopeOf ==> f.scopeOf[s] != c
    requires forall t :: !ExitsNursery(g, t, c)
    ensures Sound(WithStatus(f, c), g, x.(statuses := x.statuses + {f.nextStatus}))
    ensures f.nextStatus !in f.scopeOf && f.nextStatus !in f.parent && f.nextStatus !in f.closed && f.nextStatus !in g.cancelled
  {
    WithStatusWellFormed(f, g, c);
    MovedSound(f, WithStatus(f, c), g, x, f.nextStatus);
  }

  /** The scope told of its new status, at the end of `__enter__`. */
  function WithHome(f: Frame, s: Status): Frame
    requires s in f.scopeOf
  {
    f.(statusOf := f.statusOf[f.scopeOf[s] := s])
  }

  lemma WithHomeWellFormed(f: Frame, g: Signals, s: Status)
    requires WellFormed(f, g) && s in f.scopeOf && s !in f.closed && f.scopeOf[s] !in f.statusOf
    ensures WellFormed(WithHome(f, s), g)
  {
    var d := WithHome(f, s);
    LinkedSame(f, d);
    assert ScopesOk(d, g.cancelled, g.cancelCalled);
    forall t | t in g.abortFunc && g.abortFunc[t].NurseryExit? ensures InPlace(d, g.abortFunc[t].scope) {
      assert InPlace(f, g.abortFunc[t].scope);
    }
    WellFormedFrom(f, g, d, g);
  }

  lemma WithHomeSound(f: Frame, g: Signals, x: Gaps, s: Status)
    requires Sound(f, g, x) && s in f.scopeOf && s !in f.closed && f.scopeOf[s] !in f.statusOf
    ensures Settled(f, g.cancelled, g.cancelCalled, s) ==>
      Sound(WithHome(f, s), g, Gaps(x.statuses - {s}, x.tasks, x.scopes + {f.scopeOf[s]}))
    ensures Sound(WithHome(f, s), g, x.(scopes := x.scopes + {f.scopeOf[s]}))
  {
    var d, c := WithHome(f, s), f.scopeOf[s];
    WithHomeWellFormed(f, g, s);
    assert Housed(d, s);
    forall z | z !in x.statuses && z != s ensures Settled(d, g.cancelled, g.cancelCalled, z) && Housed(d, z) {
      assert Settled(f, g.cancelled, g.cancelCalled, z) && Housed(f, z);
    }
    forall t | t !in x.tasks ensures Delivered(d, g.cancelled, g.abortFunc, t) {
      assert Delivered(f, g.cancelled, g.abortFunc, t);
    }
    forall z | z !in x.scopes + {c} ensures UpToDate(d, g.cancelCalled, g.registered, z) {
      assert UpToDate(f, g.cancelCalled, g.registered, z);
    }
    assert Settled(f, g.cancelled, g.cancelCalled, s) ==> Settled(d, g.cancelled, g.cancelCalled, s);
  }

  /** The scope forgetting its status, at the end of `_close`. */
  function WithoutHome(f: Frame, c: Scope): Frame
    requires c in f.statusOf
  {
    f.(statusOf := f.statusOf - {c}, closed := f.closed + {f.statusOf[c]})
  }

  lemma WithoutHomeInPlace(f: Frame, cancelled: set<Status>, cancelCalled: set<Scope>, c: Scope, z: Scope)
    requires ScopesOk(f, cancelled, cancelCalled) && c in f.statusOf && InPlace(f, z)
    ensures InPlace(WithoutHome(f, c), z)
  {
    forall s | s in f.scopeOf && f.scopeOf[s] == z && s !in f.closed && s != f.statusOf[c] ensures z in f.statusOf - {c} {
      assert f.scopeOf[f.statusOf[c]] == c && f.statusOf[c] in f.scopeOf;
    }
  }

  lemma WithoutHomeWellFormed(f: Frame, g: Signals, c: Scope)
    requires WellFormed(f, g) && c in f.statusOf && f.statusOf[c] !in f.parent
    ensures WellFormed(WithoutHome(f, c), g)
  {
    var d := WithoutHome(f, c);
    LinkedSame(f, d);
    assert ScopesOk(d, g.cancelled, g.cancelCalled);
    forall t | t in g.abortFunc && g.abortFunc[t].NurseryExit? ensures InPlace(d, g.abortFunc[t].scope) {
      WithoutHomeInPlace(f, g.cancelled, g.cancelCalled, c, g.abortFunc[t].scope);
    }
    WellFormedFrom(f, g, d, g);
  }

  lemma WithoutHomeSound(f: Frame, g: Signals, x: Gaps, c: Scope)
    requires Sound(f, g, x) && c in f.statusOf && f.statusOf[c] !in f.parent
    ensures Sound(WithoutHome(f, c), g, Gaps(x.statuses - {f.statusOf[c]}, x.tasks, x.scopes + {c}))
  {
    var d, s := WithoutHome(f, c), f.statusOf[c];
    WithoutHomeWellFormed(f, g, c);
    forall z | z !in x.statuses - {s} ensures Settled(d, g.cancelled, g.cancelCalled, z) && Housed(d, z) {
      assert z != s ==> Settled(f, g.cancelled, g.cancelCalled, z) && Housed(f, z);
    }
    forall t | t !in x.tasks ensures Delivered(d, g.cancelled, g.abortFunc, t) {
      assert Delivered(f, g.cancelled, g.abortFunc, t);
    }
    forall z | z !in x.scopes + {c} ensures UpToDate(d, g.cancelCalled, g.registered, z) {
      assert UpToDate(f, g.cancelCalled, g.registered, z);
    }
  }

  /** A status left to itself with tasks or children still in it: cancelled for good. */
  function AbandonedRoot(f: Frame, s: Status): Frame {
    f.(closed := f.closed + {s})
  }

  lemma AbandonedRootWellFormed(f: Frame, g: Signals, s: Status)
    requires WellFormed(f, g) && s in f.scopeOf && s !in f.parent
    ensures WellFormed(AbandonedRoot(f, s), g.(cancelled := g.cancelled + {s})) && s in f.children && s in f.members
  {
    var d, h := AbandonedRoot(f, s), g.(cancelled := g.cancelled + {s});
    LinkedKeys(f);
    LinkedSame(f, d);
    assert ScopesOk(d, h.cancelled, h.cancelCalled);
    AbortsSame(f, d, h.abortFunc);
    WellFormedFrom(f, g, d, h);
  }

  lemma AbandonedRootSound(f: Frame, g: Signals, x: Gaps, s: Status)
    requires Sound(f, g, x) && s in f.scopeOf && s !in f.parent
    ensures s in f.children && s in f.members
    ensures Sound(AbandonedRoot(f, s), g.(cancelled := g.cancelled + {s}),
                  Gaps(x.statuses + {s} + f.children[s], x.tasks + f.members[s], x.scopes))
    ensures forall z :: z !in x.statuses && z != s ==> Housed(AbandonedRoot(f, s), z)
  {
    var d, h := AbandonedRoot(f, s), g.(cancelled := g.cancelled + {s});
    AbandonedRootWellFormed(f, g, s);
    forall z | z !in x.statuses && z != s ensures Housed(d, z) {
      assert Housed(f, z);
    }
    forall z | z !in x.statuses + {s} + f.children[s] ensures Settled(d, h.cancelled, h.cancelCalled, z) {
      assert Settled(f, g.cancelled, g.cancelCalled, z);
      assert z in f.parent ==> z in f.children[f.parent[z]];
    }
    forall t | t !in x.tasks + f.members[s] ensures Delivered(d, h.cancelled, h.abortFunc, t) {
      assert Delivered(f, g.cancelled, g.abortFunc, t);
      assert t in f.taskStatus ==> t in f.members[f.taskStatus[t]];
    }
    forall z | z !in x.scopes ensures UpToDate(d, h.cancelCalled, h.registered, z) {
      assert UpToDate(f, g.cancelCalled, g.registered, z);
    }
  }

  /** The two attributes that nothing else depends on. */
  lemma MarkedSound(f: Frame, d: Frame, g: Signals, x: Gaps)
    requires Sound(f, g, x) && d == f.(abandoned := d.abandoned, caught := d.caught)
    ensures Sound(d, g, x)
  {
    MarkedWellFormed(f, d, g);
    forall z | z !in x.statuses ensures Settled(d, g.cancelled, g.cancelCalled, z) && Housed(d, z) {
      assert Settled(f, g.cancelled, g.cancelCalled, z) && Housed(f, z);
    }
    forall t | t !in x.tasks ensures Delivered(d, g.cancelled, g.abortFunc, t) {
      assert Delivered(f, g.cancelled, g.abortFunc, t);
    }
    forall c | c !in x.scopes ensures UpToDate(d, g.cancelCalled, g.registered, c) {
      assert UpToDate(f, g.cancelCalled, g.registered, c);
    }
  }

  lemma MarkedWellFormed(f: Frame, d: Frame, g: Signals)
    requires WellFormed(f, g) && d == f.(abandoned := d.abandoned, caught := d.caught)
    ensures WellFormed(d, g)
  {
    LinkedSame(f, d);
    ScopesSame(f, d, g.cancelled, g.cancelCalled);
    AbortsSame(f, d, g.abortFunc);
    WellFormedFrom(f, g, d, g);
  }

  /** The parent of these is as settled as it can be. */
  lemma ChildOfClosed(f: Frame, g: Signals, s: Status, c: Status)
    requires WellFormed(f, g) && s in f.closed && s in f.children && c in f.children[s]
    ensures Rooted(f, g.cancelled, g.cancelCalled, c)
  {
    assert c in f.parent && f.parent[c] == s;
    assert Rooted(f, g.cancelled, g.cancelCalled, s);
  }

  lemma ChildrenOpen(f: Frame, g: Signals, x: Gaps, s: Status)
    requires Sound(f, g, x) && s in f.children
    ensures forall c :: c in f.children[s] ==> c in f.scopeOf && c !in f.closed && s < c < f.nextStatus
  {
    forall c | c in f.children[s] ensures c in f.scopeOf && c !in f.closed && s < c < f.nextStatus {
      assert c in f.parent && f.parent[c] == s;
    }
  }

  /** A task taken from its status. */
  function Inactive(f: Frame, t: Task): Frame
    requires t in f.taskStatus ==> f.taskStatus[t] in f.members
  {
    if t !in f.taskStatus then f
    else f.(members := f.members[f.taskStatus[t] := f.members[f.taskStatus[t]] - {t}], taskStatus := f.taskStatus - {t})
  }

  /** A task without a status given one. */
  function ActiveIn(f: Frame, t: Task, s: Status): Frame
    requires s in f.members
  {
    f.(members := f.members[s := f.members[s] + {t}], taskStatus := f.taskStatus[t := s])
  }

  /** Two frames that agree on everything but the status of one task. */
  ghost predicate SameExceptTask(f: Frame, d: Frame, t: Task) {
    && d.statusOf == f.statusOf && d.deadline == f.deadline && d.scopeOf == f.scopeOf && d.parent == f.parent
    && d.closed == f.closed && d.shielded == f.shielded
    && (forall z :: z in d.taskStatus && z != t ==> z in f.taskStatus && d.taskStatus[z] == f.taskStatus[z])
  }

  lemma ActivatedSound(f: Frame, d: Frame, g: Signals, x: Gaps, t: Task)
    requires Sound(f, g, x) && WellFormed(d, g) && SameExceptTask(f, d, t)
    ensures Sound(d, g, x.(tasks := x.tasks + {t}))
  {
    forall z | z !in x.statuses ensures Settled(d, g.cancelled, g.cancelCalled, z) && Housed(d, z) {
      assert Settled(f, g.cancelled, g.cancelCalled, z) && Housed(f, z);
    }
    forall z | z !in x.tasks + {t} ensures Delivered(d, g.cancelled, g.abortFunc, z) {
      assert Delivered(f, g.cancelled, g.abortFunc, z);
    }
    forall c | c !in x.scopes ensures UpToDate(d, g.cancelCalled, g.registered, c) {
      assert UpToDate(f, g.cancelCalled, g.registered, c);
    }
  }

  lemma InactiveLinked(f: Frame, t: Task)
    requires Linked(f)
    ensures t in f.taskStatus ==> f.taskStatus[t] in f.members
    ensures Linked(Inactive(f, t))
  {
  }

  lemma ActiveInLinked(f: Frame, t: Task, s: Status)
    requires Linked(f) && t !in f.taskStatus && t in f.pauses && s in f.scopeOf
    ensures s in f.members && Linked(ActiveIn(f, t, s))
  {
  }

  lemma InactiveKeeps(f: Frame, t: Task)
    requires t in f.taskStatus ==> f.taskStatus[t] in f.members
    ensures var d := Inactive(f, t);
      && t !in d.taskStatus && d.pauses == f.pauses && d.scopeOf == f.scopeOf
      && d == f.(members := d.members, taskStatus := f.taskStatus - {t})
  {
    if t !in f.taskStatus {
      assert f.taskStatus - {t} == f.taskStatus;
    }
  }

  lemma InactiveSound(f: Frame, g: Signals, x: Gaps, t: Task)
    requires Sound(f, g, x)
    ensures t in f.taskStatus ==> f.taskStatus[t] in f.members
    ensures Sound(Inactive(f, t), g, x.(tasks := x.tasks + {t}))
  {
    InactiveLinked(f, t);
    assert WellFormed(Inactive(f, t), g);
    ActivatedSound(f, Inactive(f, t), g, x, t);
  }

  lemma ActiveInSound(f: Frame, g: Signals, x: Gaps, t: Task, s: Status)
    requires Sound(f, g, x) && t !in f.taskStatus && t in f.pauses && s in f.scopeOf
    ensures s in f.members && Sound(ActiveIn(f, t, s), g, x.(tasks := x.tasks + {t}))
  {
    ActiveInLinked(f, t, s);
    assert WellFormed(ActiveIn(f, t, s), g);
    ActivatedSound(f, ActiveIn(f, t, s), g, x, t);
  }

  // ---------- steps of single tasks and scopes ----------

  lemma OpenEntered(f: Frame, g: Signals, c: Scope)
    requires WellFormed(f, g) && c in f.statusOf
    ensures c in f.entered
  {
    var s := f.statusOf[c];
    assert s in f.scopeOf && f.scopeOf[s] == c;
  }

  lemma NotEntered(f: Frame, g: Signals, c: Scope)
    requires WellFormed(f, g) && c !in f.entered
    ensures c !in f.statusOf && forall s :: s in f.scopeOf ==> f.scopeOf[s] != c
    ensures forall t :: !ExitsNursery(g, t, c)
  {
    if c in f.statusOf {
      OpenEntered(f, g, c);
    }
  }

  /** A new scope that nobody has entered. */
  lemma NewScopeSound(f: Frame, g: Signals, x: Gaps, c: Scope, d: Time, shield: bool)
    requires Sound(f, g, x) && c !in f.deadline
    ensures Sound(f.(deadline := f.deadline[c := d], shielded := Toggled(f.shielded, c, shield)), g, x)
  {
    var e := f.(deadline := f.deadline[c := d], shielded := Toggled(f.shielded, c, shield));
    NewScopeWellFormed(f, g, c, d, shield);
    NotEntered(f, g, c);
    forall s | s !in x.statuses ensures Settled(e, g.cancelled, g.cancelCalled, s) && Housed(e, s) {
      assert Settled(f, g.cancelled, g.cancelCalled, s) && Housed(f, s);
    }
    forall t | t !in x.tasks ensures Delivered(e, g.cancelled, g.abortFunc, t) {
      assert Delivered(f, g.cancelled, g.abortFunc, t);
    }
    forall z | z !in x.scopes ensures UpToDate(e, g.cancelCalled, g.registered, z) {
      assert UpToDate(f, g.cancelCalled, g.registered, z);
    }
  }

  lemma NewScopeWellFormed(f: Frame, g: Signals, c: Scope, d: Time, shield: bool)
    requires WellFormed(f, g) && c !in f.deadline
    ensures c !in f.entered && WellFormed(f.(deadline := f.deadline[c := d], shielded := Toggled(f.shielded, c, shield)), g)
  {
    var e := f.(deadline := f.deadline[c := d], shielded := Toggled(f.shielded, c, shield));
    assert e.deadline.Keys == f.deadline.Keys + {c};
    LinkedSame(f, e);
    ScopesSame(f, e, g.cancelled, g.cancelCalled);
    AbortsSame(f, e, g.abortFunc);
    WellFormedFrom(f, g, e, g);
  }

  lemma EnteredSound(f: Frame, g: Signals, x: Gaps, c: Scope)
    requires Sound(f, g, x) && c in f.deadline && c !in f.entered
    ensures Sound(f.(entered := f.entered + {c}), g, x)
  {
    var d := f.(entered := f.entered + {c});
    EnteredWellFormed(f, g, c);
    NotEntered(f, g, c);
    forall s | s !in x.statuses ensures Settled(d, g.cancelled, g.cancelCalled, s) && Housed(d, s) {
      assert Settled(f, g.cancelled, g.cancelCalled, s) && Housed(f, s);
    }
    forall t | t !in x.tasks ensures Delivered(d, g.cancelled, g.abortFunc, t) {
      assert Delivered(f, g.cancelled, g.abortFunc, t);
    }
    forall z | z !in x.scopes ensures UpToDate(d, g.cancelCalled, g.registered, z) {
      assert UpToDate(f, g.cancelCalled, g.registered, z);
    }
  }

  lemma EnteredWellFormed(f: Frame, g: Signals, c: Scope)
    requires WellFormed(f, g) && c in f.deadline && c !in f.entered
    ensures WellFormed(f.(entered := f.entered + {c}), g)
  {
    var d := f.(entered := f.entered + {c});
    LinkedSame(f, d);
    ScopesSame(f, d, g.cancelled, g.cancelCalled);
    AbortsSame(f, d, g.abortFunc);
    WellFormedFrom(f, g, d, g);
  }

  // ---------- parts of soundness, and small changes ----------

  lemma SoundWellFormed(f: Frame, g: Signals, x: Gaps)
    requires Sound(f, g, x)
    ensures WellFormed(f, g)
  {
  }

  lemma SoundLinked(f: Frame, g: Signals, x: Gaps)
    requires Sound(f, g, x)
    ensures 0 <= f.nextStatus && f.children.Keys == f.scopeOf.Keys == f.members.Keys
    ensures forall s :: s in f.scopeOf ==> 0 <= s < f.nextStatus
    ensures forall t :: t in f.taskStatus ==> f.taskStatus[t] in f.scopeOf
    ensures forall t :: t in g.abortFunc ==> t in f.pauses
    ensures g.queueings.Keys == f.pauses.Keys == g.abortCalls.Keys
  {
  }

  lemma SoundLinks(f: Frame, g: Signals, x: Gaps)
    requires Sound(f, g, x)
    ensures Linked(f)
  {
  }

  lemma OpenStatus(f: Frame, g: Signals, c: Scope)
    requires Sound(f, g, NO_GAPS) && c in f.statusOf
    ensures f.statusOf[c] in f.scopeOf && f.scopeOf[f.statusOf[c]] == c && f.statusOf[c] !in f.closed && c in f.deadline
    ensures f.statusOf[c] in f.parent ==> f.parent[f.statusOf[c]] in f.scopeOf
  {
    StatusInPlace(f, g, c);
    OpenEntered(f, g, c);
    assert Housed(f, f.statusOf[c]);
  }

  /** The abort callback would cancel a scope from which cancellation reaches the task, and has not yet. */
  ghost predicate Reenters(f: Frame, g: Signals, t: Task) {
    && t in g.abortFunc && g.abortFunc[t].NurseryExit? && t in f.taskStatus && f.taskStatus[t] !in g.cancelled
    && g.abortFunc[t].scope in f.statusOf && f.statusOf[g.abortFunc[t].scope] in UnshieldedPath(f, f.taskStatus[t])
  }

  /**
   * Some other scope around the task was cancelled on the way, because its deadline had passed or
   * because another nursery's parent was told to exit.
   */
  ghost predicate CancelledBesides(f: Frame, g: Signals, h: Signals, t: Task, c: Scope) {
    t in f.taskStatus && exists z :: OtherReason(f, g, h, f.taskStatus[t], c, z)
  }

  ghost predicate OtherReason(f: Frame, g: Signals, h: Signals, s: Status, c: Scope, z: Status) {
    && z in UnshieldedPath(f, s) && z in f.scopeOf && z !in f.closed && f.scopeOf[z] != c
    && f.scopeOf[z] in h.cancelCalled && f.scopeOf[z] !in g.cancelCalled && Reason(f, g, h, f.scopeOf[z], {f.scopeOf[z]}, {})
  }

  /** Another open scope around the task has a deadline, or is that of a nursery that someone else waits to exit. */
  ghost predicate OthersMayCancel(f: Frame, g: Signals, t: Task, c: Scope) {
    t in f.taskStatus && exists z :: MayCancel(f, g, f.taskStatus[t], c, z)
  }

  ghost predicate MayCancel(f: Frame, g: Signals, s: Status, c: Scope, z: Status) {
    && z in UnshieldedPath(f, s) && z in f.scopeOf && z !in f.closed && f.scopeOf[z] != c && f.scopeOf[z] !in g.cancelCalled
    && ((f.scopeOf[z] in f.deadline && f.deadline[f.scopeOf[z]] != Inf) || exists t :: ExitsNursery(g, t, f.scopeOf[z]))
  }

  /** Whether another scope may be cancelled meanwhile can be seen beforehand. */
  lemma CancelledBesidesForeseen(f: Frame, g: Signals, h: Signals, t: Task, c: Scope)
    requires CancelledBesides(f, g, h, t, c)
    ensures OthersMayCancel(f, g, t, c)
  {
    var s := f.taskStatus[t];
    var z :| OtherReason(f, g, h, s, c, z);
    var b := f.scopeOf[z];
    if u :| ToldToExit(f, g, h, u, b, {b}) {
      assert ExitsNursery(g, u, b);
    }
    assert MayCancel(f, g, s, c, z);
  }

  /**
   * A nursery's callback that is called whether or not the task is cancelled, and leads from `g` to `h`:
   * the propagation that it starts calls it again just when that is what cancels the task's own status.
   */
  lemma CalledBack(f: Frame, g: Signals, h: Signals, task: Task, c: Scope)
    requires Sound(f, g, Gaps({}, {task}, {})) && Sound(f, h, Gaps({}, {task}, {}))
    requires ExitsNursery(g, task, c) && task in f.taskStatus && c in h.cancelCalled
    requires Propagated(f, g, h, {}, {}, {c}) && Spared(f, g, h, {})
    ensures task !in h.abortFunc <==> f.taskStatus[task] !in g.cancelled && f.taskStatus[task] in h.cancelled
    ensures Reenters(f, g, task) ==> task !in h.abortFunc
    ensures task !in h.abortFunc && !Reenters(f, g, task) ==> CancelledBesides(f, g, h, task, c)
  {
    hide Sound, Propagated, Spared, Reached;
    var s, x := f.taskStatus[task], Gaps({}, {task}, {});
    SoundLinked(f, g, x);
    SoundReached(f, g, x, s);
    SoundReached(f, h, x, s);
    TakenAway(f, g, h, task, {c});
    if Reenters(f, g, task) {
      HomeOf(f, g, x, c);
      OnlyOpenHaveParents(f, g, x);
      ReachedFrom(f, h.cancelled, h.cancelCalled, s, f.statusOf[c]);
    } else if task !in h.abortFunc {
      ClosedSame(f, g, h, {c});
      var z := NewlyReached(f, g, h, s);
      KnownHome(f, g, x, z);
      NewlyCalled(f, g, h, {c}, f.scopeOf[z]);
      assert f.scopeOf[z] != c;
      assert OtherReason(f, g, h, s, c, z);
    }
  }

  /** When a propagation has called the abort function of a task that it was not about to tell. */
  lemma TakenAway(f: Frame, g: Signals, h: Signals, task: Task, origin: set<Scope>)
    requires Propagated(f, g, h, {}, {}, origin) && Spared(f, g, h, {})
    requires task in g.abortFunc && task in f.taskStatus
    requires f.taskStatus[task] in g.cancelled ==> Reached(f, g.cancelled, g.cancelCalled, f.taskStatus[task])
    ensures task !in h.abortFunc <==> f.taskStatus[task] !in g.cancelled && f.taskStatus[task] in h.cancelled
  {
    hide Reached;
    if f.taskStatus[task] in g.cancelled {
      assert InCancelled(f, g, task);
    } else {
      assert Delivered(f, g.cancelled, g.abortFunc, task);
      assert Delivered(f, h.cancelled, h.abortFunc, task);
    }
  }

  lemma ClosedSame(f: Frame, g: Signals, h: Signals, origin: set<Scope>)
    requires Propagated(f, g, h, {}, {}, origin)
    ensures f.closed * g.cancelled == f.closed * h.cancelled
  {
  }

  lemma NewlyCalled(f: Frame, g: Signals, h: Signals, origin: set<Scope>, c: Scope)
    requires Propagated(f, g, h, {}, {}, origin) && c in h.cancelCalled && c !in g.cancelCalled
    ensures c in origin || Reason(f, g, h, c, {c}, {})
  {
    assert Founded(f, g, h, {c}, origin);
  }

  lemma HomeOf(f: Frame, g: Signals, x: Gaps, c: Scope)
    requires Sound(f, g, x) && x.statuses == {}
    ensures c in f.statusOf ==> f.statusOf[c] in f.scopeOf && f.statusOf[c] !in f.closed && f.scopeOf[f.statusOf[c]] == c
  {
    assert c in f.statusOf ==> Housed(f, f.statusOf[c]);
  }

  lemma KnownHome(f: Frame, g: Signals, x: Gaps, s: Status)
    requires Sound(f, g, x) && x.statuses == {} && s in f.scopeOf && s !in f.closed
    ensures f.scopeOf[s] in f.statusOf && f.statusOf[f.scopeOf[s]] == s
  {
    assert Housed(f, s);
    var c := f.scopeOf[s];
    var z := f.statusOf[c];
    assert z in f.scopeOf && f.scopeOf[z] == c;
  }

  lemma OnlyOpenHaveParents(f: Frame, g: Signals, x: Gaps)
    requires Sound(f, g, x)
    ensures forall y :: y in f.parent ==> y !in f.closed && f.parent[y] in f.scopeOf
  {
  }

  lemma SoundHoused(f: Frame, g: Signals, x: Gaps, s: Status)
    requires Sound(f, g, x) && s !in x.statuses
    ensures Housed(f, s)
  {
  }

  lemma SoundInPlace(f: Frame, g: Signals, c: Scope)
    requires Sound(f, g, NO_GAPS)
    ensures InPlace(f, c)
  {
    forall s | s in f.scopeOf && f.scopeOf[s] == c && s !in f.closed ensures c in f.statusOf {
      assert Housed(f, s);
    }
  }

  lemma RegisteredInHeap(heap: seq<Entry>, registered: map<Scope, Time>, scopes: set<Scope>, c: Scope)
    requires HeapOk(heap, registered, scopes)
    ensures c in registered ==> Entry(registered[c], c) in heap
  {
  }

  function Toggled(shielded: set<Scope>, c: Scope, value: bool): set<Scope> {
    if value then shielded + {c} else shielded - {c}
  }

  lemma ShieldWellFormed(f: Frame, g: Signals, c: Scope, value: bool)
    requires WellFormed(f, g)
    ensures WellFormed(f.(shielded := Toggled(f.shielded, c, value)), g)
  {
    var d := f.(shielded := Toggled(f.shielded, c, value));
    LinkedSame(f, d);
    ScopesSame(f, d, g.cancelled, g.cancelCalled);
    AbortsSame(f, d, g.abortFunc);
    WellFormedFrom(f, g, d, g);
  }

  lemma ShieldSound(f: Frame, g: Signals, c: Scope, value: bool)
    requires Sound(f, g, NO_GAPS)
    ensures var d := f.(shielded := Toggled(f.shielded, c, value));
      && Sound(d, g, if c in f.statusOf then Gaps({f.statusOf[c]}, {}, {}) else NO_GAPS)
      && (c in f.statusOf ==> f.statusOf[c] in f.scopeOf && f.statusOf[c] !in f.closed && Housed(d, f.statusOf[c]))
  {
    var d := f.(shielded := Toggled(f.shielded, c, value));
    var x := if c in f.statusOf then Gaps({f.statusOf[c]}, {}, {}) else NO_GAPS;
    ShieldWellFormed(f, g, c, value);
    forall s | s !in x.statuses ensures Settled(d, g.cancelled, g.cancelCalled, s) && Housed(d, s) {
      assert Settled(f, g.cancelled, g.cancelCalled, s) && Housed(f, s);
      if s in f.scopeOf && s !in f.closed {
        KnownHome(f, g, NO_GAPS, s);
        assert f.scopeOf[s] != c;
      }
    }
    forall t ensures Delivered(d, g.cancelled, g.abortFunc, t) {
      assert Delivered(f, g.cancelled, g.abortFunc, t);
    }
    forall z ensures UpToDate(d, g.cancelCalled, g.registered, z) {
      assert UpToDate(f, g.cancelCalled, g.registered, z);
    }
    assert c in f.statusOf ==> Housed(f, f.statusOf[c]);
  }

  lemma DeadlineWellFormed(f: Frame, g: Signals, c: Scope, d: Time)
    requires WellFormed(f, g) && c in f.deadline
    ensures WellFormed(f.(deadline := f.deadline[c := d]), g)
  {
    var e := f.(deadline := f.deadline[c := d]);
    assert e.deadline.Keys == f.deadline.Keys;
    LinkedSame(f, e);
    ScopesSame(f, e, g.cancelled, g.cancelCalled);
    AbortsSame(f, e, g.abortFunc);
    WellFormedFrom(f, g, e, g);
  }

  lemma DeadlineSound(f: Frame, g: Signals, c: Scope, d: Time)
    requires Sound(f, g, NO_GAPS)
    requires c in f.deadline
    ensures Sound(f.(deadline := f.deadline[c := d]), g, Gaps({}, {}, {c}))
  {
    var e := f.(deadline := f.deadline[c := d]);
    DeadlineWellFormed(f, g, c, d);
    forall s ensures Settled(e, g.cancelled, g.cancelCalled, s) && Housed(e, s) {
      assert Settled(f, g.cancelled, g.cancelCalled, s) && Housed(f, s);
    }
    forall t ensures Delivered(e, g.cancelled, g.abortFunc, t) {
      assert Delivered(f, g.cancelled, g.abortFunc, t);
    }
    forall z | z != c ensures UpToDate(e, g.cancelCalled, g.registered, z) {
      assert UpToDate(f, g.cancelCalled, g.registered, z);
    }
  }
}
