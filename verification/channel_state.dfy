/** The state of a memory channel, and the queue that it amounts to. */
module ChannelState {
  import opened Collections
  import opened Options

  type Task = int
  type Value = int
  /** An endpoint: a `MemorySendChannel` or a `MemoryReceiveChannel`. */
  type End = int

  /** A value that a send has handed over; its ticket says which send that was. */
  datatype Item = Item(ticket: nat, value: Value)

  datatype Sender = Sender(task: Task, item: Item)

  /** What a blocked task is woken with. */
  datatype Outcome = Sent | Received(value: Value) | ClosedResourceError | BrokenResourceError | EndOfChannel

  datatype State = State(
    maxBufferSize: Option<nat>,               // None for `math.inf`
    data: seq<Item>,
    openSendChannels: int,
    openReceiveChannels: int,
    sendTasks: seq<Sender>,                   // the OrderedDict from tasks to values
    receiveTasks: seq<Task>,
    sendEnds: map<End, set<Task>>,            // `_tasks` of every send channel
    receiveEnds: map<End, set<Task>>,
    closed: set<End>,                         // `_closed`
    sleepingOn: map<Task, End>)               // `custom_sleep_data` of the blocked tasks

  /** What became of the values handed over so far. */
  datatype History = History(
    accepted: seq<Value>,                     // by ticket
    delivered: seq<Item>,                     // in the order of delivery
    dropped: set<nat>,
    woken: map<Task, Outcome>)                // what each task was last woken with

  // ---------- the blocked tasks ----------

  predicate Waits(ws: seq<Sender>, t: Task) {
    exists i :: 0 <= i < |ws| && ws[i].task == t
  }

  function WithoutSenders(ws: seq<Sender>, gone: set<Task>): seq<Sender> {
    if ws == [] then []
    else if ws[0].task in gone then WithoutSenders(ws[1..], gone)
    else [ws[0]] + WithoutSenders(ws[1..], gone)
  }

  function WithoutTasks(ts: seq<Task>, gone: set<Task>): seq<Task> {
    if ts == [] then []
    else if ts[0] in gone then WithoutTasks(ts[1..], gone)
    else [ts[0]] + WithoutTasks(ts[1..], gone)
  }

  /** Tickets rise along the queue, and no task is in it twice. */
  ghost predicate Rising(ws: seq<Sender>) {
    forall i, j :: 0 <= i < j < |ws| ==> ws[i].item.ticket < ws[j].item.ticket && ws[i].task != ws[j].task
  }

  ghost predicate RisingItems(xs: seq<Item>) {
    forall i, j :: 0 <= i < j < |xs| ==> xs[i].ticket < xs[j].ticket
  }

  lemma {:induction false} WithoutSendersContents(ws: seq<Sender>, gone: set<Task>)
    ensures forall w :: w in WithoutSenders(ws, gone) <==> w in ws && w.task !in gone
  {
    if ws != [] {
      WithoutSendersContents(ws[1..], gone);
      assert ws == [ws[0]] + ws[1..];
    }
  }

  lemma {:induction false} WithoutSendersRising(ws: seq<Sender>, gone: set<Task>)
    requires Rising(ws)
    ensures Rising(WithoutSenders(ws, gone))
  {
    if ws != [] {
      WithoutSendersRising(ws[1..], gone);
      WithoutSendersContents(ws[1..], gone);
      forall w | w in WithoutSenders(ws[1..], gone) ensures ws[0].item.ticket < w.item.ticket && ws[0].task != w.task {
        assert w in ws[1..];
      }
    }
  }

  lemma {:induction false} WithoutSendersTwice(ws: seq<Sender>, gone: set<Task>, more: set<Task>)
    ensures WithoutSenders(WithoutSenders(ws, gone), more) == WithoutSenders(ws, gone + more)
  {
    if ws != [] {
      WithoutSendersTwice(ws[1..], gone, more);
      if ws[0].task !in gone {
        assert WithoutSenders(ws, gone)[1..] == WithoutSenders(ws[1..], gone);
      }
    }
  }

  lemma {:induction false} WithoutSendersNobody(ws: seq<Sender>)
    ensures WithoutSenders(ws, {}) == ws
  {
    if ws != [] {
      WithoutSendersNobody(ws[1..]);
    }
  }

  lemma {:induction false} WithoutTasksContents(ts: seq<Task>, gone: set<Task>)
    ensures forall t :: t in WithoutTasks(ts, gone) <==> t in ts && t !in gone
  {
    if ts != [] {
      WithoutTasksContents(ts[1..], gone);
      assert ts == [ts[0]] + ts[1..];
    }
  }

  lemma {:induction false} WithoutTasksDistinct(ts: seq<Task>, gone: set<Task>)
    requires Distinct(ts)
    ensures Distinct(WithoutTasks(ts, gone))
  {
    if ts != [] {
      WithoutTasksDistinct(ts[1..], gone);
      WithoutTasksContents(ts[1..], gone);
    }
  }

  lemma {:induction false} WithoutTasksTwice(ts: seq<Task>, gone: set<Task>, more: set<Task>)
    ensures WithoutTasks(WithoutTasks(ts, gone), more) == WithoutTasks(ts, gone + more)
  {
    if ts != [] {
      WithoutTasksTwice(ts[1..], gone, more);
      if ts[0] !in gone {
        assert WithoutTasks(ts, gone)[1..] == WithoutTasks(ts[1..], gone);
      }
    }
  }

  lemma {:induction false} WithoutTasksNobody(ts: seq<Task>)
    ensures WithoutTasks(ts, {}) == ts
  {
    if ts != [] {
      WithoutTasksNobody(ts[1..]);
    }
  }

  lemma RisingAppend(ws: seq<Sender>, w: Sender)
    requires Rising(ws) && forall v :: v in ws ==> v.item.ticket < w.item.ticket && v.task != w.task
    ensures Rising(ws + [w])
  {
    forall i | 0 <= i < |ws| ensures ws[i].item.ticket < w.item.ticket && ws[i].task != w.task {
      assert ws[i] in ws;
    }
  }

  // ---------- invariants ----------

  predicate Full(st: State) {
    st.maxBufferSize.Some? && |st.data| >= st.maxBufferSize.value
  }

  function Open(ends: map<End, set<Task>>, closed: set<End>): set<End> {
    ends.Keys - closed
  }

  /** The tasks that wait at the endpoints are those that wait at the channel. */
  ghost predicate SendersOk(ws: seq<Sender>, ends: map<End, set<Task>>, sleepingOn: map<Task, End>, closed: set<End>) {
    && Rising(ws)
    && (forall w :: w in ws ==> w.task in sleepingOn && sleepingOn[w.task] in ends && w.task in ends[sleepingOn[w.task]])
    && (forall e, t {:trigger t in ends[e]} :: e in ends && t in ends[e] ==>
          Waits(ws, t) && t in sleepingOn && sleepingOn[t] == e && e !in closed)
  }

  ghost predicate ReceiversOk(ts: seq<Task>, ends: map<End, set<Task>>, sleepingOn: map<Task, End>, closed: set<End>) {
    && Distinct(ts)
    && (forall t :: t in ts ==> t in sleepingOn && sleepingOn[t] in ends && t in ends[sleepingOn[t]])
    && (forall e, t {:trigger t in ends[e]} :: e in ends && t in ends[e] ==>
          t in ts && t in sleepingOn && sleepingOn[t] == e && e !in closed)
  }

  ghost predicate EndsOk(sendEnds: map<End, set<Task>>, receiveEnds: map<End, set<Task>>, closed: set<End>, openSend: int, openReceive: int) {
    && (forall e :: e in sendEnds ==> e !in receiveEnds)
    && (forall e :: e in closed ==> e in sendEnds || e in receiveEnds)
    && openSend == |Open(sendEnds, closed)| && openReceive == |Open(receiveEnds, closed)|
  }

  /** When somebody waits, there is a reason for it. */
  ghost predicate WaitsOk(st: State) {
    && (st.receiveTasks != [] ==> st.data == [] && st.sendTasks == [] && st.openSendChannels != 0)
    && (st.sendTasks != [] ==> Full(st) && st.openReceiveChannels != 0)
    && (st.maxBufferSize.Some? ==> |st.data| <= st.maxBufferSize.value)
    && (st.openReceiveChannels == 0 ==> st.data == [])
  }

  ghost predicate BothOk(st: State) {
    && SendersOk(st.sendTasks, st.sendEnds, st.sleepingOn, st.closed)
    && ReceiversOk(st.receiveTasks, st.receiveEnds, st.sleepingOn, st.closed)
  }

  ghost predicate Inv(st: State) {
    && SendersOk(st.sendTasks, st.sendEnds, st.sleepingOn, st.closed)
    && ReceiversOk(st.receiveTasks, st.receiveEnds, st.sleepingOn, st.closed)
    && EndsOk(st.sendEnds, st.receiveEnds, st.closed, st.openSendChannels, st.openReceiveChannels)
    && WaitsOk(st)
  }

  /** The queue is in the order of the tickets, and everything in it is behind everything delivered. */
  ghost predicate InOrder(st: State, h: History) {
    && RisingItems(h.delivered) && RisingItems(st.data)
    && (forall x, y :: x in h.delivered && y in st.data ==> x.ticket < y.ticket)
    && (forall x, w :: x in h.delivered && w in st.sendTasks ==> x.ticket < w.item.ticket)
    && (forall x, w :: x in st.data && w in st.sendTasks ==> x.ticket < w.item.ticket)
  }

  ghost predicate Genuine(h: History, x: Item) {
    x.ticket < |h.accepted| && h.accepted[x.ticket] == x.value && x.ticket !in h.dropped
  }

  /** Where a value is that was accepted: with a receiver, in the queue, or dropped. */
  ghost predicate Accounted(st: State, h: History, ticket: nat) {
    || ticket in h.dropped
    || (exists x :: x in h.delivered && x.ticket == ticket)
    || (exists x :: x in st.data && x.ticket == ticket)
    || (exists w :: w in st.sendTasks && w.item.ticket == ticket)
  }

  ghost predicate Conserved(st: State, h: History) {
    && (forall x :: x in h.delivered ==> Genuine(h, x))
    && (forall x :: x in st.data ==> Genuine(h, x))
    && (forall w :: w in st.sendTasks ==> Genuine(h, w.item))
    && (forall d :: d in h.dropped ==> d < |h.accepted|)
    && (forall k {:trigger Accounted(st, h, k)} :: 0 <= k < |h.accepted| ==> Accounted(st, h, k))
  }

  ghost predicate Kept(st: State, h: History) {
    InOrder(st, h) && Conserved(st, h)
  }

  /** The one queue that the channel stands for: the buffer, then the values of the blocked senders. */
  function Queue(st: State): seq<Item> {
    st.data + seq(|st.sendTasks|, i requires 0 <= i < |st.sendTasks| => st.sendTasks[i].item)
  }
}
