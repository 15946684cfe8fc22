/** Locks, conditions, capacity limiters and semaphores: `trio/_sync.py`. */
module Sync {
  import opened Collections
  import opened Options
  import opened ParkingLot

  datatype Acquisition = Acquired | WouldBlock | RuntimeError

  /** A lock and the conditions that use it. */
  class LockAndConditions {
    const lots: ParkingLots
    const lockLot: Lot
    var owner: Option<Task>
    var returning: set<Task>            // the tasks that were unparked and have not run since

    constructor (lockLot: Lot, conditions: set<Lot>)
      ensures Valid() && owner == None && lots.parked.Keys == conditions + {lockLot} && fresh(lots) && this.lockLot == lockLot
    {
      this.lockLot := lockLot;
      lots := new ParkingLots(conditions + {lockLot});
      owner, returning := None, {};
    }

    /** A lock with a queue has an owner, and only the owner can be on its way back from the queue. */
    ghost predicate Valid()
      reads this, lots
    {
      && lots.Valid() && lockLot in lots.parked
      && (lots.parked[lockLot] != [] ==> owner.Some?)
      && (owner.Some? ==> owner.value !in lots.sleepData)
      && (forall t :: t in returning ==> owner == Some(t))
    }

    method AcquireNowait(task: Task) returns (r: Acquisition)
      requires Valid() && task !in lots.sleepData
      modifies this`owner
      ensures Valid()
      ensures r == if old(owner) == Some(task) then RuntimeError else if old(owner) == None then Acquired else WouldBlock
      ensures owner == if r == Acquired then Some(task) else old(owner)
    {
      if owner == Some(task) { return RuntimeError; }
      if owner == None && lots.parked[lockLot] == [] {
        owner := Some(task);
        return Acquired;
      }
      r := WouldBlock;
    }

    /** `acquire`, up to the point where the task sleeps, if it does (`WouldBlock`). */
    method Acquire(task: Task) returns (r: Acquisition)
      requires Valid() && task !in lots.sleepData
      modifies this`owner, lots
      ensures Valid() && lots.woken == old(lots.woken)
      ensures r == if old(owner) == Some(task) then RuntimeError else if old(owner) == None then Acquired else WouldBlock
      ensures owner == if r == Acquired then Some(task) else old(owner)
      ensures lots.parked == if r == WouldBlock then old(lots.parked)[lockLot := old(lots.parked)[lockLot] + [task]] else old(lots.parked)
    {
      r := AcquireNowait(task);
      if r == WouldBlock {
        lots.Park(lockLot, task);
      }
    }

    /** `release`: the first task in the queue, if any, becomes the owner and is the only one woken. */
    method Release(task: Task) returns (ok: bool)
      requires Valid() && task !in lots.sleepData && task !in returning
      modifies this, lots
      ensures Valid() && ok == (old(owner) == Some(task))
      ensures !ok ==> owner == old(owner) && lots.parked == old(lots.parked) && lots.woken == old(lots.woken) && returning == old(returning)
      ensures ok && old(lots.parked)[lockLot] == [] ==> owner == None && lots.parked == old(lots.parked) && lots.woken == old(lots.woken)
      ensures ok && old(lots.parked)[lockLot] != [] ==>
        var next := old(lots.parked)[lockLot][0];
        && owner == Some(next) && returning == {next} && lots.woken == old(lots.woken) + [next]
        && lots.parked == old(lots.parked)[lockLot := old(lots.parked)[lockLot][1..]]
      ensures forall t :: t in lots.sleepData ==> t in old(lots.sleepData)
    {
      if owner != Some(task) { return false; }
      ok := true;
      assert forall t :: t in returning ==> t == task;
      assert returning == {};
      if lots.parked[lockLot] != [] {
        ghost var q := lots.parked[lockLot];
        var tasks := lots.Unpark(lockLot, 1);
        assert q[..1] == [q[0]];
        var next := tasks[0];
        assert next in tasks;
        owner := Some(next);
        returning := {next};
      } else {
        owner := None;
      }
    }

    /** An unparked task runs again: it returns from `acquire`, or from `wait`, and owns the lock. */
    method Return(task: Task)
      requires Valid() && task in returning
      modifies this`returning
      ensures Valid() && owner == Some(task) && task !in returning
    {
      returning := returning - {task};
    }

    /** The abort function of a parked task, whichever lot it is in by now. */
    method Abort(task: Task)
      requires Valid() && task in lots.sleepData
      modifies lots
      ensures Valid() && task !in lots.sleepData && lots.woken == old(lots.woken)
      ensures old(lots.sleepData)[task] in old(lots.parked)
      ensures lots.parked == old(lots.parked)[old(lots.sleepData)[task] := Without(old(lots.parked)[old(lots.sleepData)[task]], task)]
    {
      ghost var q := lots.parked[lots.sleepData[task]];
      lots.Abort(task);
    }

    /** `Condition.wait`, up to the point where the task sleeps: it gives the lock to the next in line. */
    method Wait(condition: Lot, task: Task) returns (ok: bool)
      requires Valid() && task !in lots.sleepData && task !in returning && condition in lots.parked && condition != lockLot
      modifies this, lots
      ensures Valid() && ok == (old(owner) == Some(task))
      ensures !ok ==> owner == old(owner) && lots.parked == old(lots.parked) && lots.woken == old(lots.woken)
      ensures ok ==> task in lots.sleepData && lots.sleepData[task] == condition
      ensures ok ==> condition in lots.parked && condition in old(lots.parked) && lots.parked[condition] == old(lots.parked)[condition] + [task]
      ensures ok ==> owner == if old(lots.parked)[lockLot] == [] then None else Some(old(lots.parked)[lockLot][0])
    {
      ghost var q := lots.parked[lockLot];
      NotParked(lots.parked, lots.sleepData, task);
      ok := Release(task);
      if ok {
        lots.Park(condition, task);
      }
    }

    /** `notify`: the first waiting tasks go to the end of the queue for the lock; `notify_all` is for a count of all. */
    method Notify(condition: Lot, task: Task, n: int) returns (ok: bool)
      requires Valid() && task !in lots.sleepData && condition in lots.parked && condition != lockLot
      modifies lots
      ensures Valid() && ok == (owner == Some(task)) && lots.woken == old(lots.woken)
      ensures condition in old(lots.parked)
      ensures var waiting := old(lots.parked)[condition];
        var k := Several(n, waiting);
        lots.parked == if ok then old(lots.parked)[condition := waiting[k..]][lockLot := old(lots.parked)[lockLot] + waiting[..k]] else old(lots.parked)
      ensures lots.sleepData.Keys == old(lots.sleepData.Keys)
    {
      ok := owner == Some(task);
      if ok {
        lots.Repark(condition, lockLot, n);
      }
    }
  }

  lemma NotParked(parked: map<Lot, seq<Task>>, sleepData: map<Task, Lot>, task: Task)
    requires LotsOk(parked, sleepData) && task !in sleepData
    ensures forall lot :: lot in parked ==> task !in parked[lot]
  {
  }

  // ---------- CapacityLimiter ----------

  type Borrower = int

  class CapacityLimiter {
    const lots: ParkingLots
    const lot: Lot
    var total: Option<nat>              // None for `math.inf`
    var borrowers: set<Borrower>
    var pending: map<Task, Borrower>    // `_pending_borrowers`

    constructor (total: Option<nat>)
      requires total.Some? ==> total.value >= 1
      ensures Valid() && this.total == total && borrowers == {} && fresh(lots)
    {
      lot := 0;
      lots := new ParkingLots({0});
      this.total, borrowers, pending := total, {}, map[];
    }

    /** Every parked task borrows for somebody else; and as long as a task is parked, no token is left. */
    ghost predicate Valid()
      reads this, lots
    {
      && lots.Valid() && lots.parked.Keys == {lot}
      && PendingOk(lots.parked[lot], pending, borrowers)
      && (lots.parked[lot] != [] ==> total.Some? && |borrowers| >= total.value)
    }

    method Available() returns (n: int)
      requires lot in lots.parked
      ensures n == if total.Some? then total.value - |borrowers| else |lots.parked[lot]|
    {
      n := if total.Some? then total.value - |borrowers| else |lots.parked[lot]|;
    }

    /** `_wake_waiters`: the first tasks in line get what there is. */
    method WakeWaiters()
      requires lots.Valid() && lots.parked.Keys == {lot} && PendingOk(lots.parked[lot], pending, borrowers)
      modifies this`borrowers, this`pending, lots
      ensures Valid() && lot in old(lots.parked)
      ensures ServedFirst(total, old(lots.parked)[lot], old(pending), old(borrowers), lots.parked[lot], old(lots.woken), lots.woken, borrowers)
    {
      hide PendingOk, Granting;
      ghost var q, p0, b0 := lots.parked[lot], pending, borrowers;
      var available := Available();
      var woken := lots.Unpark(lot, available);
      ghost var n := |woken|;
      GrantTokens(woken, q);
      GrantingEnds(q, p0, b0, n, pending, borrowers);
    }

    /** Its loop over the tasks that were unparked. */
    method GrantTokens(woken: seq<Task>, ghost q: seq<Task>)
      requires PendingOk(q, pending, borrowers) && |woken| <= |q| && woken == q[..|woken|]
      modifies this`borrowers, this`pending
      ensures Granting(q, old(pending), old(borrowers), |woken|, pending, borrowers)
    {
      hide PendingOk, Granting;
      ghost var p0, b0 := pending, borrowers;
      GrantingStarts(q, p0, b0);
      for i := 0 to |woken|
        invariant Granting(q, p0, b0, i, pending, borrowers)
      {
        assert q[i] == woken[i];
        GrantOne(q, p0, b0, i, pending, borrowers);
        borrowers := borrowers + {pending[woken[i]]};
        pending := pending - {woken[i]};
      }
    }

    /** The `total_tokens` setter. */
    method SetTotal(newTotal: Option<nat>) returns (ok: bool)
      requires Valid()
      modifies this, lots
      ensures Valid() && ok == (newTotal.Some? ==> newTotal.value >= 1)
      ensures !ok ==> total == old(total) && borrowers == old(borrowers) && lots.parked == old(lots.parked) && lots.woken == old(lots.woken)
      ensures lot in old(lots.parked)
      ensures ok ==> total == newTotal
      ensures ok ==>
        ServedFirst(total, old(lots.parked)[lot], old(pending), old(borrowers), lots.parked[lot], old(lots.woken), lots.woken, borrowers)
    {
      hide PendingOk, ServedFirst;
      ok := newTotal.Some? ==> newTotal.value >= 1;
      if ok {
        total := newTotal;
        WakeWaiters();
      }
    }

    /** `acquire_on_behalf_of`, up to the point where the task sleeps; nobody else is waiting for this borrower. */
    method Acquire(task: Task, borrower: Borrower) returns (r: Acquisition)
      requires Valid() && task !in lots.sleepData
      requires forall t :: t in lots.parked[lot] && t in pending ==> pending[t] != borrower
      modifies this`borrowers, this`pending, lots
      ensures Valid()
      ensures lot in old(lots.parked)
      ensures r == if borrower in old(borrowers) then RuntimeError
                   else if old(lots.parked)[lot] == [] && (total.Some? ==> |old(borrowers)| < total.value) then Acquired else WouldBlock
      ensures borrowers == if r == Acquired then old(borrowers) + {borrower} else old(borrowers)
      ensures lots.parked[lot] == if r == WouldBlock then old(lots.parked)[lot] + [task] else old(lots.parked)[lot]
      ensures total.Some? && |old(borrowers)| <= total.value ==> |borrowers| <= total.value
    {
      if borrower in borrowers { return RuntimeError; }
      if (total.None? || |borrowers| < total.value) && lots.parked[lot] == [] {
        borrowers := borrowers + {borrower};
        return Acquired;
      }
      r := WouldBlock;
      NotParked(lots.parked, lots.sleepData, task);
      pending := pending[task := borrower];
      lots.Park(lot, task);
    }

    /** Cancellation of a waiting task, from the abort function to the removal of its pending borrower. */
    method Abort(task: Task)
      requires Valid() && task in lots.sleepData && task in pending
      modifies this`pending, lots
      ensures Valid() && task !in lots.sleepData && lot in old(lots.parked) && lots.parked[lot] == Without(old(lots.parked)[lot], task)
    {
      WithoutContents(lots.parked[lot], task);
      lots.Abort(task);
      pending := pending - {task};
    }

    /** `release_on_behalf_of`. */
    method Release(borrower: Borrower) returns (ok: bool)
      requires Valid()
      modifies this`borrowers, this`pending, lots
      ensures Valid() && ok == (borrower in old(borrowers)) && lot in old(lots.parked)
      ensures !ok ==> borrowers == old(borrowers) && lots.parked == old(lots.parked) && lots.woken == old(lots.woken)
      ensures ok ==>
        ServedFirst(total, old(lots.parked)[lot], old(pending), old(borrowers) - {borrower}, lots.parked[lot], old(lots.woken), lots.woken, borrowers)
      ensures total.Some? && |old(borrowers)| <= total.value ==> |borrowers| <= total.value
    {
      hide PendingOk;
      ok := borrower in borrowers;
      if ok {
        FewerBorrowers(lots.parked[lot], pending, borrowers, borrower);
        borrowers := borrowers - {borrower};
        WakeWaiters();
      }
    }
  }

  /** What is given out goes to the first in line, who are woken in order, and the rest stay in line. */
  ghost predicate ServedFirst(total: Option<nat>, q: seq<Task>, pending: map<Task, Borrower>, b0: set<Borrower>,
                              left: seq<Task>, woken0: seq<Task>, woken: seq<Task>, borrowers: set<Borrower>) {
    var n := Granted(total, |b0|, |q|);
    && left == q[n..] && woken == woken0 + q[..n] && |borrowers| == |b0| + n
    && (forall i :: 0 <= i < |q| ==> q[i] in pending)
    && (forall b :: b in borrowers <==> b in b0 || exists i :: 0 <= i < n && pending[q[i]] == b)
    && b0 <= borrowers
  }

  /** The tasks in line borrow for different borrowers, none of whom has a token. */
  ghost predicate PendingOk(q: seq<Task>, pending: map<Task, Borrower>, borrowers: set<Borrower>) {
    && Distinct(q)
    && (forall t :: t in q ==> t in pending && pending[t] !in borrowers)
    && (forall t, u :: t in q && u in q && pending[t] == pending[u] ==> t == u)
  }

  /** How many tokens are handed out to a line of this length. */
  function Granted(total: Option<nat>, borrowed: int, waiting: nat): nat {
    if total.None? then waiting
    else if total.value <= borrowed then 0
    else if total.value - borrowed < waiting then total.value - borrowed else waiting
  }

  /** The first `i` in line `q` have been given a token. */
  ghost predicate Granting(q: seq<Task>, p0: map<Task, Borrower>, b0: set<Borrower>, i: int, pending: map<Task, Borrower>, borrowers: set<Borrower>) {
    && 0 <= i <= |q| && PendingOk(q[i..], pending, borrowers) && |borrowers| == |b0| + i
    && (forall j :: 0 <= j < |q| ==> q[j] in p0)
    && (forall t :: t in pending ==> t in p0 && pending[t] == p0[t])
    && (forall b :: b in borrowers <==> b in b0 || exists j :: 0 <= j < i && p0[q[j]] == b)
  }

  lemma GrantingStarts(q: seq<Task>, pending: map<Task, Borrower>, borrowers: set<Borrower>)
    requires PendingOk(q, pending, borrowers)
    ensures Granting(q, pending, borrowers, 0, pending, borrowers)
  {
    assert q[0..] == q;
    forall j | 0 <= j < |q| ensures q[j] in pending {
      var t := q[j];
      assert t in q;
    }
  }

  lemma GrantOne(q: seq<Task>, p0: map<Task, Borrower>, b0: set<Borrower>, i: int, pending: map<Task, Borrower>, borrowers: set<Borrower>)
    requires Granting(q, p0, b0, i, pending, borrowers) && i < |q|
    ensures q[i] in pending && Granting(q, p0, b0, i + 1, pending - {q[i]}, borrowers + {pending[q[i]]})
  {
    hide PendingOk;
    assert q[i..][0] == q[i] && q[i..][1..] == q[i + 1..];
    FirstServed(q[i..], pending, borrowers);
    var more := borrowers + {pending[q[i]]};
    forall b ensures b in more <==> b in b0 || exists j :: 0 <= j < i + 1 && p0[q[j]] == b {
      if b == pending[q[i]] { assert p0[q[i]] == b; }
    }
  }

  lemma GrantingEnds(q: seq<Task>, p0: map<Task, Borrower>, b0: set<Borrower>, n: int, pending: map<Task, Borrower>, borrowers: set<Borrower>)
    requires Granting(q, p0, b0, n, pending, borrowers)
    ensures PendingOk(q[n..], pending, borrowers) && |borrowers| == |b0| + n && b0 <= borrowers
    ensures forall i :: 0 <= i < |q| ==> q[i] in p0
    ensures forall b :: b in borrowers <==> b in b0 || exists i :: 0 <= i < n && p0[q[i]] == b
  {
    hide PendingOk;
    forall b | b in b0 ensures b in borrowers {}
  }

  lemma FirstServed(q: seq<Task>, pending: map<Task, Borrower>, borrowers: set<Borrower>)
    requires PendingOk(q, pending, borrowers) && q != []
    ensures q[0] in pending && pending[q[0]] !in borrowers
    ensures PendingOk(q[1..], pending - {q[0]}, borrowers + {pending[q[0]]})
  {
    var first, rest := q[0], q[1..];
    RestDistinct(q);
    assert first in q;
    forall t | t in rest ensures t in q && t in pending - {first} && pending[t] !in borrowers + {pending[first]} {
      assert t in q && t != first;
    }
  }

  lemma FewerBorrowers(q: seq<Task>, pending: map<Task, Borrower>, borrowers: set<Borrower>, borrower: Borrower)
    requires PendingOk(q, pending, borrowers)
    ensures PendingOk(q, pending, borrowers - {borrower})
  {
  }

  // ---------- Semaphore ----------

  class Semaphore {
    const lots: ParkingLots
    const lot: Lot
    const initial: nat
    const maxValue: Option<nat>
    var value: nat
    var granted: nat                    // acquires that have got through
    var releases: nat

    constructor (initial: nat, maxValue: Option<nat>)
      requires maxValue.Some? ==> initial <= maxValue.value
      ensures Valid() && value == initial && this.initial == initial && this.maxValue == maxValue && fresh(lots)
    {
      lot := 0;
      this.initial, this.maxValue := initial, maxValue;
      lots := new ParkingLots({0});
      value, granted, releases := initial, 0, 0;
    }

    ghost predicate Valid()
      reads this, lots
    {
      && lots.Valid() && lots.parked.Keys == {lot}
      && value == initial + releases - granted
      && (lots.parked[lot] != [] ==> value == 0)
      && (maxValue.Some? ==> value <= maxValue.value)
    }

    /** `acquire`, up to the point where the task sleeps. */
    method Acquire(task: Task) returns (r: Acquisition)
      requires Valid() && task !in lots.sleepData
      modifies this`value, this`granted, lots
      ensures Valid() && lot in old(lots.parked)
      ensures r == if old(value) > 0 then Acquired else WouldBlock
      ensures lots.parked[lot] == if r == WouldBlock then old(lots.parked)[lot] + [task] else old(lots.parked)[lot]
      ensures granted == if r == Acquired then old(granted) + 1 else old(granted)
    {
      if value > 0 {
        assert lots.parked[lot] == [];
        value, granted := value - 1, granted + 1;
        return Acquired;
      }
      lots.Park(lot, task);
      r := WouldBlock;
    }

    /** `release`; false is the ValueError of a bounded semaphore. */
    method Release() returns (ok: bool)
      requires Valid()
      modifies this`value, this`granted, this`releases, lots
      ensures Valid() && lot in old(lots.parked)
      ensures ok == (old(lots.parked)[lot] != [] || maxValue.None? || old(value) < maxValue.value)
      ensures !ok ==> value == old(value) && granted == old(granted) && releases == old(releases)
      ensures ok ==> releases == old(releases) + 1
      ensures ok && old(lots.parked)[lot] != [] ==> granted == old(granted) + 1 && lots.woken == old(lots.woken) + [old(lots.parked)[lot][0]]
      ensures ok && old(lots.parked)[lot] == [] ==> granted == old(granted) && lots.woken == old(lots.woken)
    {
      ghost var q := lots.parked[lot];
      if lots.parked[lot] != [] {
        assert value == 0;
        var woken := lots.Unpark(lot, 1);
        assert q[..1] == [q[0]];
        granted, releases := granted + 1, releases + 1;
        return true;
      }
      if maxValue.Some? && value == maxValue.value { return false; }
      value, releases := value + 1, releases + 1;
      ok := true;
    }

    /** A task is cancelled while it waits in `acquire`. */
    method Abort(task: Task)
      requires Valid() && task in lots.sleepData
      modifies lots
      ensures Valid() && lot in old(lots.parked) && task !in lots.sleepData
      ensures lots.parked[lot] == Without(old(lots.parked)[lot], task) && lots.woken == old(lots.woken)
    {
      WithoutContents(lots.parked[lot], task);
      lots.Abort(task);
    }
  }
}
