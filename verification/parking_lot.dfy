/** Parking lots: `trio/_core/_parking_lot.py`. All lots are kept together, since tasks move between them. */
module ParkingLot {
  import opened Collections

  type Task = int
  type Lot = int

  /** Taking one task out leaves the others in their order. */
  lemma {:induction false} WithoutOrder(q: seq<Task>, t: Task, i: int, j: int)
    requires Distinct(q) && 0 <= i < j < |q| && q[i] != t && q[j] != t
    ensures exists k, l :: 0 <= k < l < |Without(q, t)| && Without(q, t)[k] == q[i] && Without(q, t)[l] == q[j]
  {
    if q[0] == t {
      assert Without(q, t)[i - 1] == q[i] && Without(q, t)[j - 1] == q[j];
    } else if i == 0 {
      WithoutContents(q[1..], t);
      assert q[j] in q[1..];
      var l :| 0 <= l < |Without(q[1..], t)| && Without(q[1..], t)[l] == q[j];
      assert Without(q, t)[0] == q[0] && Without(q, t)[l + 1] == q[j];
    } else {
      WithoutOrder(q[1..], t, i - 1, j - 1);
      assert q[1..][i - 1] == q[i] && q[1..][j - 1] == q[j];
      var k, l :| 0 <= k < l < |Without(q[1..], t)| && Without(q[1..], t)[k] == q[i] && Without(q[1..], t)[l] == q[j];
      assert Without(q, t)[k + 1] == q[i] && Without(q, t)[l + 1] == q[j];
    }
  }

  /** How many tasks a call with this count concerns; a negative count concerns none. */
  function Several(count: int, q: seq<Task>): (n: nat)
    ensures n <= |q|
  {
    if count < 0 then 0 else if count < |q| then count else |q|
  }

  /** A task is parked in exactly one lot, the one that its `custom_sleep_data` names. */
  ghost predicate LotsOk(parked: map<Lot, seq<Task>>, sleepData: map<Task, Lot>) {
    && (forall lot :: lot in parked ==> Distinct(parked[lot]))
    && (forall lot, t {:trigger t in parked[lot]} :: lot in parked && t in parked[lot] ==> t in sleepData && sleepData[t] == lot)
    && (forall t :: t in sleepData ==> sleepData[t] in parked && t in parked[sleepData[t]])
  }

  class ParkingLots {
    var parked: map<Lot, seq<Task>>
    var sleepData: map<Task, Lot>
    var woken: seq<Task>                // the tasks that were unparked, in order

    constructor (lots: set<Lot>)
      ensures Valid() && parked.Keys == lots && sleepData == map[] && woken == []
      ensures forall lot :: lot in lots ==> parked[lot] == []
    {
      parked := map lot | lot in lots :: [];
      sleepData := map[];
      woken := [];
    }

    ghost predicate Valid()
      reads this
    {
      LotsOk(parked, sleepData)
    }

    /** `park`, up to the point where the task sleeps. */
    method Park(lot: Lot, task: Task)
      requires Valid() && lot in parked && task !in sleepData
      modifies this
      ensures Valid() && woken == old(woken) && lot in old(parked)
      ensures parked == old(parked)[lot := old(parked)[lot] + [task]] && sleepData == old(sleepData)[task := lot]
    {
      ParkedOk(parked, sleepData, lot, task);
      parked := parked[lot := parked[lot] + [task]];
      sleepData := sleepData[task := lot];
    }

    /** The abort function takes the task off the lot that it is in now. */
    method Abort(task: Task)
      requires Valid() && task in sleepData
      modifies this
      ensures Valid() && woken == old(woken) && old(sleepData)[task] in old(parked)
      ensures sleepData == old(sleepData) - {task}
      ensures parked == old(parked)[old(sleepData)[task] := Without(old(parked)[old(sleepData)[task]], task)]
    {
      var lot := sleepData[task];
      WithoutContents(parked[lot], task);
      parked := parked[lot := Without(parked[lot], task)];
      sleepData := sleepData - {task};
    }

    /** `unpark`: the first tasks of the lot are woken, in order. */
    method Unpark(lot: Lot, count: int) returns (tasks: seq<Task>)
      requires Valid() && lot in parked
      modifies this
      ensures Valid() && lot in old(parked)
      ensures var n := Several(count, old(parked)[lot]);
        && tasks == old(parked)[lot][..n] && parked == old(parked)[lot := old(parked)[lot][n..]]
        && woken == old(woken) + tasks
      ensures forall t :: t in sleepData <==> t in old(sleepData) && t !in tasks
      ensures forall t :: t in tasks ==> t !in sleepData
      ensures forall t :: t in sleepData ==> sleepData[t] == old(sleepData)[t]
    {
      ghost var q, p0, s0 := parked[lot], parked, sleepData;
      var n := Several(count, parked[lot]);
      tasks := [];
      assert q[0..] == q && q[..0] == [] && p0[lot := q] == p0;
      for i := 0 to n
        invariant lot in parked && tasks == q[..i] && parked == p0[lot := q[i..]] && sleepData == s0 && woken == old(woken)
      {
        assert q[i..][1..] == q[i + 1..] && q[..i + 1] == q[..i] + [q[i]];
        tasks := tasks + [parked[lot][0]];
        parked := parked[lot := parked[lot][1..]];
      }
      assert tasks[..0] == [];
      for i := 0 to n
        invariant parked == p0[lot := q[n..]] && tasks == q[..n]
        invariant forall t :: t in sleepData <==> t in s0 && t !in tasks[..i]
        invariant forall t :: t in sleepData ==> sleepData[t] == s0[t]
        invariant woken == old(woken) + tasks[..i]
      {
        assert tasks[..i + 1] == tasks[..i] + [tasks[i]];
        sleepData := sleepData - {tasks[i]};
        woken := woken + [tasks[i]];
      }
      assert tasks[..n] == tasks;
      UnparkedOk(p0, s0, lot, n, sleepData);
    }

    /** `repark`: the first tasks of one lot go to the end of another, or of the same, in order. */
    method Repark(lot: Lot, newLot: Lot, count: int)
      requires Valid() && lot in parked && newLot in parked
      modifies this
      ensures Valid() && woken == old(woken) && sleepData.Keys == old(sleepData.Keys)
      ensures lot in old(parked) && newLot in old(parked)
      ensures var n := Several(count, old(parked)[lot]);
        parked == Reparked(old(parked), lot, newLot, n)
      ensures forall t :: t in sleepData ==>
        sleepData[t] == if t in old(parked)[lot][..Several(count, old(parked)[lot])] then newLot else old(sleepData)[t]
    {
      ghost var q, p0 := parked[lot], parked;
      var n := Several(count, parked[lot]);
      ReparkedNone(p0, lot, newLot);
      for i := 0 to n
        invariant Valid() && lot in parked && newLot in parked && sleepData.Keys == old(sleepData.Keys) && woken == old(woken)
        invariant parked == Reparked(p0, lot, newLot, i)
        invariant forall t :: t in sleepData ==> sleepData[t] == if t in q[..i] then newLot else old(sleepData)[t]
      {
        var task := parked[lot][0];
        ReparkedNext(p0, lot, newLot, i);
        MoveOne(parked, sleepData, lot, newLot);
        assert q[..i + 1] == q[..i] + [q[i]];
        parked := parked[lot := parked[lot][1..]];
        parked := parked[newLot := parked[newLot] + [task]];
        sleepData := sleepData[task := newLot];
      }
    }
  }

  /** The first `n` tasks of one lot at the end of another. */
  function Reparked(parked: map<Lot, seq<Task>>, lot: Lot, newLot: Lot, n: nat): map<Lot, seq<Task>>
    requires lot in parked && newLot in parked && n <= |parked[lot]|
  {
    var left := parked[lot := parked[lot][n..]];
    left[newLot := left[newLot] + parked[lot][..n]]
  }

  lemma ReparkedNone(parked: map<Lot, seq<Task>>, lot: Lot, newLot: Lot)
    requires lot in parked && newLot in parked
    ensures Reparked(parked, lot, newLot, 0) == parked
  {
    var q := parked[lot];
    assert q[0..] == q && q[..0] == [] && parked[newLot] + [] == parked[newLot];
  }

  lemma ReparkedNext(parked: map<Lot, seq<Task>>, lot: Lot, newLot: Lot, n: nat)
    requires lot in parked && newLot in parked && n < |parked[lot]|
    ensures var p, q := Reparked(parked, lot, newLot, n), parked[lot];
      && p[lot] != [] && p[lot][0] == q[n]
      && var left := p[lot := p[lot][1..]];
      left[newLot := left[newLot] + [q[n]]] == Reparked(parked, lot, newLot, n + 1)
  {
    var p, q := Reparked(parked, lot, newLot, n), parked[lot];
    assert q[n..][1..] == q[n + 1..] && q[..n + 1] == q[..n] + [q[n]];
    if lot == newLot {
      assert p[lot] == q[n..] + q[..n];
      assert p[lot][1..] == q[n + 1..] + q[..n];
      assert q[n + 1..] + q[..n] + [q[n]] == q[n + 1..] + q[..n + 1];
    } else {
      var r := parked[newLot];
      assert r + q[..n] + [q[n]] == r + q[..n + 1];
    }
  }

  lemma ParkedOk(parked: map<Lot, seq<Task>>, sleepData: map<Task, Lot>, lot: Lot, task: Task)
    requires LotsOk(parked, sleepData) && lot in parked && task !in sleepData
    ensures LotsOk(parked[lot := parked[lot] + [task]], sleepData[task := lot])
  {
    BackDistinct(parked[lot], task);
  }

  lemma MoveOne(parked: map<Lot, seq<Task>>, sleepData: map<Task, Lot>, lot: Lot, newLot: Lot)
    requires LotsOk(parked, sleepData) && lot in parked && newLot in parked && parked[lot] != []
    ensures parked[lot][0] in sleepData
    ensures var left := parked[lot := parked[lot][1..]];
      LotsOk(left[newLot := left[newLot] + [parked[lot][0]]], sleepData[parked[lot][0] := newLot])
  {
    var task := parked[lot][0];
    var left := parked[lot := parked[lot][1..]];
    assert task in parked[lot];
    RestDistinct(parked[lot]);
    assert task !in left[newLot];
    BackDistinct(left[newLot], task);
  }

  lemma UnparkedOk(parked: map<Lot, seq<Task>>, sleepData: map<Task, Lot>, lot: Lot, n: nat, left: map<Task, Lot>)
    requires LotsOk(parked, sleepData) && lot in parked && n <= |parked[lot]|
    requires forall t :: t in left <==> t in sleepData && t !in parked[lot][..n]
    requires forall t :: t in left ==> left[t] == sleepData[t]
    ensures LotsOk(parked[lot := parked[lot][n..]], left)
  {
    var q := parked[lot];
    assert q == q[..n] + q[n..];
    assert forall t :: t in q <==> t in q[..n] || t in q[n..];
    forall t | t in q[..n] ensures t !in q[n..] && forall other :: other in parked && other != lot ==> t !in parked[other] {
      assert t in q;
    }
  }
}
