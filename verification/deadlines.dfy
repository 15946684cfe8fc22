/** The heap of deadlines of `trio/_core/_run.py`, with its lazily deleted entries. */
module DeadlineHeap {
  import opened Times

  type Scope = int

  const DEADLINE_HEAP_MIN_PRUNE_THRESHOLD := 1000

  datatype Entry = Entry(deadline: Time, scope: Scope)

  ghost predicate Sorted(heap: seq<Entry>) {
    heap == [] || ((forall e :: e in heap ==> Le(heap[0].deadline, e.deadline)) && Sorted(heap[1..]))
  }

  /** `heapq` is taken as a library that keeps the entries in order of deadline. */
  function HeapPush(heap: seq<Entry>, entry: Entry): (pushed: seq<Entry>)
    requires Sorted(heap)
    ensures Sorted(pushed) && multiset(pushed) == multiset(heap) + multiset{entry}
    ensures forall e :: e in pushed <==> e in heap || e == entry
  {
    if heap == [] || Le(entry.deadline, heap[0].deadline) then
      assert ([entry] + heap)[1..] == heap;
      [entry] + heap
    else
      assert heap == [heap[0]] + heap[1..];
      var rest := HeapPush(heap[1..], entry);
      assert ([heap[0]] + rest)[1..] == rest;
      [heap[0]] + rest
  }

  /** Every registered deadline has its entry in the heap. */
  ghost predicate HeapOk(heap: seq<Entry>, registered: map<Scope, Time>, scopes: set<Scope>) {
    && Sorted(heap)
    && (forall e :: e in heap ==> e.scope in scopes && e.deadline != Inf)
    && (forall c :: c in registered ==> Entry(registered[c], c) in heap)
  }

  /** The entry still says what its scope has registered; otherwise it is stale. */
  predicate Live(e: Entry, registered: map<Scope, Time>) {
    e.scope in registered && registered[e.scope] == e.deadline
  }

  /** The entries that pruning keeps: the first live one of every scope not seen yet. */
  function Pruned(heap: seq<Entry>, registered: map<Scope, Time>, seen: set<Scope>): seq<Entry> {
    if heap == [] then []
    else if Live(heap[0], registered) && heap[0].scope !in seen then
      [heap[0]] + Pruned(heap[1..], registered, seen + {heap[0].scope})
    else
      Pruned(heap[1..], registered, seen)
  }

  lemma {:induction false} PrunedContents(heap: seq<Entry>, registered: map<Scope, Time>, seen: set<Scope>)
    ensures forall e :: e in Pruned(heap, registered, seen) <==> e in heap && Live(e, registered) && e.scope !in seen
  {
    if heap != [] {
      var first := heap[0];
      assert heap == [first] + heap[1..];
      if Live(first, registered) && first.scope !in seen {
        PrunedContents(heap[1..], registered, seen + {first.scope});
      } else {
        PrunedContents(heap[1..], registered, seen);
      }
    }
  }

  /** The heap lost some of its first entries, and none of them was in force. */
  ghost predicate OnlyStaleGone(before: seq<Entry>, heap: seq<Entry>, registered: map<Scope, Time>) {
    && |heap| <= |before| && heap == before[|before| - |heap|..]
    && forall i :: 0 <= i < |before| - |heap| ==> !Live(before[i], registered)
  }

  lemma {:induction false} PrunedSorted(heap: seq<Entry>, registered: map<Scope, Time>, seen: set<Scope>)
    requires Sorted(heap)
    ensures Sorted(Pruned(heap, registered, seen))
  {
    if heap != [] {
      var first := heap[0];
      if Live(first, registered) && first.scope !in seen {
        PrunedSorted(heap[1..], registered, seen + {first.scope});
        PrunedContents(heap[1..], registered, seen + {first.scope});
        assert Pruned(heap, registered, seen)[1..] == Pruned(heap[1..], registered, seen + {first.scope});
      } else {
        PrunedSorted(heap[1..], registered, seen);
      }
    }
  }

  lemma PrunedNext(e: Entry, rest: seq<Entry>, registered: map<Scope, Time>, seen: set<Scope>)
    ensures Pruned([e] + rest, registered, seen) ==
      if Live(e, registered) && e.scope !in seen then [e] + Pruned(rest, registered, seen + {e.scope}) else Pruned(rest, registered, seen)
  {
    assert ([e] + rest)[1..] == rest;
  }

  lemma PrunedNothing(registered: map<Scope, Time>, seen: set<Scope>)
    ensures Pruned([], registered, seen) == []
  {
  }

  /** Pruning keeps exactly one entry for every registered scope: the assertion in `_prune` holds. */
  lemma {:induction false} PrunedLength(heap: seq<Entry>, registered: map<Scope, Time>, seen: set<Scope>)
    requires forall c :: c in registered ==> c in seen || Entry(registered[c], c) in heap
    ensures |Pruned(heap, registered, seen)| == |registered.Keys - seen|
  {
    if heap == [] {
      assert registered.Keys - seen == {};
    } else {
      var first := heap[0];
      assert heap == [first] + heap[1..];
      if Live(first, registered) && first.scope !in seen {
        PrunedLength(heap[1..], registered, seen + {first.scope});
        assert registered.Keys - seen == (registered.Keys - (seen + {first.scope})) + {first.scope};
      } else {
        PrunedLength(heap[1..], registered, seen);
      }
    }
  }

  /** The earliest registered deadline. */
  ghost predicate IsNext(d: Time, registered: map<Scope, Time>) {
    && (forall c :: c in registered ==> Le(d, registered[c]))
    && (d == Inf || exists c :: c in registered && registered[c] == d)
  }

  /** The first entry, when it is in force, has the least deadline of all. */
  lemma HeadIsNext(heap: seq<Entry>, registered: map<Scope, Time>, scopes: set<Scope>)
    requires heap != [] && HeapOk(heap, registered, scopes) && Live(heap[0], registered)
    ensures IsNext(heap[0].deadline, registered)
  {
    forall c | c in registered ensures Le(heap[0].deadline, registered[c]) {
      assert Entry(registered[c], c) in heap;
    }
  }

  lemma NoneIsNext(registered: map<Scope, Time>, scopes: set<Scope>)
    requires HeapOk([], registered, scopes)
    ensures IsNext(Inf, registered)
  {
  }

  lemma NothingGone(heap: seq<Entry>, registered: map<Scope, Time>)
    ensures OnlyStaleGone(heap, heap, registered)
  {
  }

  lemma OneMoreGone(before: seq<Entry>, heap: seq<Entry>, registered: map<Scope, Time>)
    requires OnlyStaleGone(before, heap, registered) && heap != [] && !Live(heap[0], registered)
    ensures OnlyStaleGone(before, heap[1..], registered)
  {
    assert heap[0] == before[|before| - |heap|];
  }

  lemma SortedHeap(heap: seq<Entry>, registered: map<Scope, Time>, scopes: set<Scope>)
    requires HeapOk(heap, registered, scopes)
    ensures Sorted(heap)
  {
  }

  function Due(registered: map<Scope, Time>, now: real): set<Scope> {
    set c | c in registered && Le(registered[c], At(now))
  }

  lemma NothingDue(heap: seq<Entry>, registered: map<Scope, Time>, scopes: set<Scope>, now: real)
    requires HeapOk(heap, registered, scopes) && (heap == [] || !Le(heap[0].deadline, At(now)))
    ensures Due(registered, now) == {}
  {
    forall c | c in registered ensures !Le(registered[c], At(now)) {
      assert Entry(registered[c], c) in heap;
    }
  }

  lemma PopStale(heap: seq<Entry>, registered: map<Scope, Time>, scopes: set<Scope>)
    requires heap != [] && HeapOk(heap, registered, scopes) && !Live(heap[0], registered)
    ensures HeapOk(heap[1..], registered, scopes)
  {
    assert heap == [heap[0]] + heap[1..];
  }

  lemma PopLive(heap: seq<Entry>, registered: map<Scope, Time>, scopes: set<Scope>)
    requires heap != [] && HeapOk(heap, registered, scopes)
    ensures HeapOk(heap[1..], registered - {heap[0].scope}, scopes)
    ensures heap[0].scope in scopes
  {
    assert heap == [heap[0]] + heap[1..];
  }

  lemma MoreScopes(heap: seq<Entry>, registered: map<Scope, Time>, scopes: set<Scope>, more: set<Scope>)
    requires HeapOk(heap, registered, scopes) && scopes <= more
    ensures HeapOk(heap, registered, more)
  {
  }

  lemma FewerRegistered(heap: seq<Entry>, registered: map<Scope, Time>, scopes: set<Scope>, c: Scope)
    requires HeapOk(heap, registered, scopes)
    ensures HeapOk(heap, registered - {c}, scopes)
  {
  }

  /** The registered deadlines after that of one scope has become `now`. */
  function Put(registered: map<Scope, Time>, c: Scope, now: Time): map<Scope, Time> {
    if now == Inf then registered - {c} else registered[c := now]
  }

  lemma Dropped(m: map<Scope, Time>, c: Scope)
    ensures c !in m ==> m - {c} == m
    ensures |m - {c}| == if c in m then |m| - 1 else |m|
    ensures (m - {c}) - {c} == m - {c}
  {
    assert (m - {c}).Keys == m.Keys - {c};
    assert c in m ==> m.Keys == (m.Keys - {c}) + {c};
  }

  lemma Added(m: map<Scope, Time>, c: Scope, d: Time)
    ensures m[c := d] - {c} == m - {c}
    ensures |m[c := d]| == if c in m then |m| else |m| + 1
    ensures c in m && m[c] == d ==> m[c := d] == m
  {
    assert forall x :: x in m[c := d] - {c} <==> x in m - {c};
  }

  lemma PutChanges(registered: map<Scope, Time>, c: Scope, now: Time)
    ensures |Put(registered, c, now)| == |registered| - (if c in registered then 1 else 0) + (if now != Inf then 1 else 0)
    ensures Put(registered, c, now) - {c} == registered - {c}
    ensures (if c in registered then registered[c] else Inf) == now && (c in registered ==> registered[c] != Inf) ==> Put(registered, c, now) == registered
  {
    Dropped(registered, c);
    Added(registered, c, now);
  }

  lemma PutInHeap(heap: seq<Entry>, registered: map<Scope, Time>, scopes: set<Scope>, c: Scope, now: Time, heap2: seq<Entry>)
    requires HeapOk(heap, registered - {c}, scopes) && Sorted(heap2) && c in scopes
    requires now != Inf ==> Entry(now, c) in heap2
    requires forall e :: e in heap ==> e in heap2
    requires forall e :: e in heap2 ==> e in heap || (e.scope == c && e.deadline != Inf)
    ensures HeapOk(heap2, Put(registered, c, now), scopes)
  {
    forall z | z in Put(registered, c, now) ensures Entry(Put(registered, c, now)[z], z) in heap2 {
      assert z != c ==> z in registered - {c} && (registered - {c})[z] == registered[z];
    }
  }

  /** What is left after pruning is a heap for the same registrations. */
  lemma PrunedOk(heap: seq<Entry>, registered: map<Scope, Time>, scopes: set<Scope>)
    requires HeapOk(heap, registered, scopes)
    ensures HeapOk(Pruned(heap, registered, {}), registered, scopes) && |Pruned(heap, registered, {})| == |registered|
  {
    hide Pruned;
    PrunedLength(heap, registered, {});
    PrunedContents(heap, registered, {});
    PrunedSorted(heap, registered, {});
    assert registered.Keys - {} == registered.Keys;
    assert |registered.Keys| == |registered|;
  }

  class Deadlines {
    var heap: seq<Entry>
    var active: int

    constructor ()
      ensures heap == [] && active == 0
    {
      heap, active := [], 0;
    }

    method Add(deadline: Time, scope: Scope)
      requires Sorted(heap)
      modifies this`heap, this`active
      ensures Sorted(heap) && active == old(active) + 1
      ensures forall e :: e in heap <==> e in old(heap) || e == Entry(deadline, scope)
    {
      heap := HeapPush(heap, Entry(deadline, scope));
      active := active + 1;
    }

    method Remove(deadline: Time, scope: Scope)
      modifies this`active
      ensures active == old(active) - 1
    {
      active := active - 1;
    }

    /** The two calls at the end of `_might_change_registered_deadline`. */
    method Change(was: Time, now: Time, scope: Scope, ghost registered: map<Scope, Time>, ghost scopes: set<Scope>)
      requires HeapOk(heap, registered - {scope}, scopes) && scope in scopes && active == |registered|
      requires was == if scope in registered then registered[scope] else Inf
      requires was == Inf ==> scope !in registered
      modifies this`heap, this`active
      ensures HeapOk(heap, Put(registered, scope, now), scopes) && active == |Put(registered, scope, now)|
      ensures now == Inf ==> heap == old(heap)
    {
      PutChanges(registered, scope, now);
      SortedHeap(heap, registered - {scope}, scopes);
      if was != Inf { Remove(was, scope); }
      if now != Inf { Add(now, scope); }
      PutInHeap(old(heap), registered, scopes, scope, now, heap);
    }

    /** `next_deadline`: it discards stale entries on the way, and nothing else. */
    method NextDeadline(registered: map<Scope, Time>, ghost scopes: set<Scope>) returns (d: Time)
      requires HeapOk(heap, registered, scopes)
      modifies this`heap
      ensures HeapOk(heap, registered, scopes) && IsNext(d, registered)
      ensures OnlyStaleGone(old(heap), heap, registered)
    {
      hide HeapOk, OnlyStaleGone, IsNext;
      ghost var before := heap;
      NothingGone(heap, registered);
      while heap != []
        invariant HeapOk(heap, registered, scopes)
        invariant OnlyStaleGone(before, heap, registered)
        decreases |heap|
      {
        if Live(heap[0], registered) {
          HeadIsNext(heap, registered, scopes);
          return heap[0].deadline;
        }
        PopStale(heap, registered, scopes);
        OneMoreGone(before, heap, registered);
        heap := heap[1..];
      }
      d := Inf;
      NoneIsNext(registered, scopes);
    }

    /** `_prune`: the stale entries go, and so do the duplicates. */
    method Prune(registered: map<Scope, Time>, ghost scopes: set<Scope>)
      requires HeapOk(heap, registered, scopes) && active == |registered|
      modifies this`heap
      ensures HeapOk(heap, registered, scopes) && |heap| == active
    {
      hide HeapOk, Pruned;
      var seen, pruned := {}, [];
      var i := 0;
      while i < |heap|
        invariant i <= |heap| && heap == old(heap)
        invariant pruned + Pruned(heap[i..], registered, seen) == Pruned(heap, registered, {})
      {
        var e := heap[i];
        assert heap[i..] == [e] + heap[i + 1..];
        PrunedNext(e, heap[i + 1..], registered, seen);
        if Live(e, registered) && e.scope !in seen {
          assert pruned + ([e] + Pruned(heap[i + 1..], registered, seen + {e.scope})) ==
            (pruned + [e]) + Pruned(heap[i + 1..], registered, seen + {e.scope});
          seen := seen + {e.scope};
          pruned := pruned + [e];
        }
        i := i + 1;
      }
      assert heap[i..] == [];
      PrunedNothing(registered, seen);
      assert pruned + [] == pruned;
      PrunedOk(heap, registered, scopes);
      heap := pruned;
    }
  }
}
