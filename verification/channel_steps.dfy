/** The steps that memory channel operations are made of, and what they keep. */
module ChannelSteps {
  import opened Collections
  import opened Options
  import opened ChannelState

  function Left(ends: map<End, set<Task>>, gone: set<Task>): map<End, set<Task>> {
    map e | e in ends :: ends[e] - gone
  }

  // ---------- a value comes in ----------

  function NextItem(h: History, value: Value): Item {
    Item(|h.accepted|, value)
  }

  /** The value goes straight to the first blocked receiver. */
  function Handed(st: State): State
    requires st.receiveTasks != []
  {
    ReceiversGone(st, {st.receiveTasks[0]})
  }

  function HandedHistory(st: State, h: History, value: Value): History
    requires st.receiveTasks != []
  {
    h.(accepted := h.accepted + [value], delivered := h.delivered + [NextItem(h, value)],
       woken := h.woken[st.receiveTasks[0] := Received(value)])
  }

  function Buffered(st: State, h: History, value: Value): State {
    st.(data := st.data + [NextItem(h, value)])
  }

  function SenderBlocked(st: State, h: History, task: Task, e: End, value: Value): State
    requires e in st.sendEnds
  {
    st.(sendTasks := st.sendTasks + [Sender(task, NextItem(h, value))], sendEnds := st.sendEnds[e := st.sendEnds[e] + {task}],
        sleepingOn := st.sleepingOn[task := e])
  }

  function ReceiverBlocked(st: State, task: Task, e: End): State
    requires e in st.receiveEnds
  {
    st.(receiveTasks := st.receiveTasks + [task], receiveEnds := st.receiveEnds[e := st.receiveEnds[e] + {task}],
        sleepingOn := st.sleepingOn[task := e])
  }

  // ---------- tasks go ----------

  function SendersGone(st: State, gone: set<Task>): State {
    st.(sendTasks := WithoutSenders(st.sendTasks, gone), sendEnds := Left(st.sendEnds, gone), sleepingOn := st.sleepingOn - gone)
  }

  function ReceiversGone(st: State, gone: set<Task>): State {
    st.(receiveTasks := WithoutTasks(st.receiveTasks, gone), receiveEnds := Left(st.receiveEnds, gone), sleepingOn := st.sleepingOn - gone)
  }

  function TicketsOf(ws: seq<Sender>, gone: set<Task>): set<nat> {
    set w | w in ws && w.task in gone :: w.item.ticket
  }

  function All(tasks: set<Task>, outcome: Outcome): map<Task, Outcome> {
    map t | t in tasks :: outcome
  }

  /** The values of these senders will not arrive. */
  function Dropped(st: State, h: History, gone: set<Task>): History {
    h.(dropped := h.dropped + TicketsOf(st.sendTasks, gone))
  }

  /** The first blocked sender's value moves into the buffer. */
  function Advanced(st: State): State
    requires st.sendTasks != []
  {
    SendersGone(st, {st.sendTasks[0].task}).(data := st.data + [st.sendTasks[0].item])
  }

  // ---------- what is kept ----------

  lemma SendersGoneOk(st: State, gone: set<Task>, closed: set<End>)
    requires BothOk(st)
    requires forall t :: t in gone ==> t !in st.receiveTasks
    requires forall e :: e in closed && e in st.sendEnds && e !in st.closed ==> st.sendEnds[e] <= gone
    requires forall e :: e in closed && e in st.receiveEnds ==> e in st.closed
    requires st.closed <= closed
    ensures BothOk(SendersGone(st, gone).(closed := closed))
  {
    WithoutSendersContents(st.sendTasks, gone);
    WithoutSendersRising(st.sendTasks, gone);
    var d := SendersGone(st, gone).(closed := closed);
    forall e, t | e in d.sendEnds && t in d.sendEnds[e]
      ensures Waits(d.sendTasks, t) && t in d.sleepingOn && d.sleepingOn[t] == e && e !in d.closed
    {
      assert t in st.sendEnds[e] && Waits(st.sendTasks, t);
      var i :| 0 <= i < |st.sendTasks| && st.sendTasks[i].task == t;
      assert st.sendTasks[i] in d.sendTasks;
    }
  }

  lemma ReceiversGoneOk(st: State, gone: set<Task>, closed: set<End>)
    requires BothOk(st)
    requires forall w :: w in st.sendTasks ==> w.task !in gone
    requires forall e :: e in closed && e in st.receiveEnds && e !in st.closed ==> st.receiveEnds[e] <= gone
    requires forall e :: e in closed && e in st.sendEnds ==> e in st.closed
    requires st.closed <= closed
    ensures BothOk(ReceiversGone(st, gone).(closed := closed))
  {
    WithoutTasksContents(st.receiveTasks, gone);
    WithoutTasksDistinct(st.receiveTasks, gone);
    forall e, t | e in st.sendEnds && t in st.sendEnds[e] ensures Waits(st.sendTasks, t) && t !in gone && e !in closed {
      assert Waits(st.sendTasks, t);
      var i :| 0 <= i < |st.sendTasks| && st.sendTasks[i].task == t;
      assert st.sendTasks[i] in st.sendTasks;
    }
  }

  /** A task waits on one side only. */
  lemma OneSide(st: State)
    requires BothOk(st) && EndsOk(st.sendEnds, st.receiveEnds, st.closed, st.openSendChannels, st.openReceiveChannels)
    ensures forall w :: w in st.sendTasks ==> w.task !in st.receiveTasks
    ensures forall e, t :: e in st.sendEnds && t in st.sendEnds[e] ==> t !in st.receiveTasks
    ensures forall e, t :: e in st.receiveEnds && t in st.receiveEnds[e] ==> !Waits(st.sendTasks, t)
  {
    forall w | w in st.sendTasks ensures w.task !in st.receiveTasks {
      var e := st.sleepingOn[w.task];
      assert e in st.sendEnds;
      assert e !in st.receiveEnds;
    }
  }

  lemma DroppedKept(st: State, h: History, gone: set<Task>)
    requires Kept(st, h) && Rising(st.sendTasks)
    ensures Kept(SendersGone(st, gone), Dropped(st, h, gone))
  {
    var d, k := SendersGone(st, gone), Dropped(st, h, gone);
    WithoutSendersContents(st.sendTasks, gone);
    forall w | w in d.sendTasks ensures w.item.ticket !in k.dropped {
      forall v | v in st.sendTasks && v.task in gone ensures v.item.ticket != w.item.ticket {
        RisingDistinct(st.sendTasks, v, w);
      }
    }
    forall ticket | 0 <= ticket < |k.accepted| ensures Accounted(d, k, ticket) {
      assert Accounted(st, h, ticket);
      if w :| w in st.sendTasks && w.item.ticket == ticket {
        assert w.task in gone ==> ticket in k.dropped;
        assert w.task !in gone ==> w in d.sendTasks;
      }
    }
  }

  lemma RisingDistinct(ws: seq<Sender>, v: Sender, w: Sender)
    requires Rising(ws) && v in ws && w in ws && v != w
    ensures v.item.ticket != w.item.ticket && v.task != w.task
  {
    var i :| 0 <= i < |ws| && ws[i] == v;
    var j :| 0 <= j < |ws| && ws[j] == w;
    assert i < j || j < i;
  }

  lemma Appended<T>(s: seq<T>, x: T)
    ensures forall y :: y in s + [x] <==> y in s || y == x
  {
  }

  lemma RisingItemsAppend(xs: seq<Item>, x: Item)
    requires RisingItems(xs) && forall y :: y in xs ==> y.ticket < x.ticket
    ensures RisingItems(xs + [x])
  {
    forall i | 0 <= i < |xs| ensures xs[i].ticket < x.ticket {
      assert xs[i] in xs;
    }
  }

  lemma HandedKept(st: State, h: History, value: Value)
    requires Kept(st, h) && st.data == [] && st.sendTasks == [] && st.receiveTasks != []
    ensures Kept(Handed(st), HandedHistory(st, h, value))
  {
    var d, k, x := Handed(st), HandedHistory(st, h, value), NextItem(h, value);
    Appended(h.delivered, x);
    assert x in k.delivered;
    assert forall y :: y in h.delivered ==> Genuine(h, y) && y.ticket < x.ticket;
    RisingItemsAppend(h.delivered, x);
    forall ticket | 0 <= ticket < |k.accepted| ensures Accounted(d, k, ticket) {
      assert ticket < |h.accepted| ==> Accounted(st, h, ticket);
    }
  }

  lemma BufferedKept(st: State, h: History, value: Value)
    requires Kept(st, h) && st.sendTasks == []
    ensures Kept(Buffered(st, h, value), h.(accepted := h.accepted + [value]))
  {
    var d, k, x := Buffered(st, h, value), h.(accepted := h.accepted + [value]), NextItem(h, value);
    Appended(st.data, x);
    assert x in d.data;
    assert forall y :: y in st.data ==> Genuine(h, y) && y.ticket < x.ticket;
    RisingItemsAppend(st.data, x);
    forall ticket | 0 <= ticket < |k.accepted| ensures Accounted(d, k, ticket) {
      assert ticket < |h.accepted| ==> Accounted(st, h, ticket);
    }
  }

  lemma BlockedKept(st: State, h: History, task: Task, e: End, value: Value)
    requires Kept(st, h) && e in st.sendEnds
    ensures Kept(SenderBlocked(st, h, task, e, value), h.(accepted := h.accepted + [value]))
  {
    var d, k := SenderBlocked(st, h, task, e, value), h.(accepted := h.accepted + [value]);
    var w := Sender(task, NextItem(h, value));
    Appended(st.sendTasks, w);
    assert w in d.sendTasks;
    forall ticket | 0 <= ticket < |k.accepted| ensures Accounted(d, k, ticket) {
      assert ticket < |h.accepted| ==> Accounted(st, h, ticket);
    }
  }

  lemma RisingTail(ws: seq<Sender>)
    requires ws != [] && Rising(ws)
    ensures Rising(ws[1..]) && forall w :: w in ws <==> w == ws[0] || w in ws[1..]
    ensures forall w :: w in ws[1..] ==> ws[0].item.ticket < w.item.ticket
  {
    assert ws == [ws[0]] + ws[1..];
  }

  lemma AdvancedInOrder(st: State, h: History)
    requires InOrder(st, h) && st.sendTasks != [] && Rising(st.sendTasks)
    ensures InOrder(Advanced(st), h)
  {
    hide Rising, RisingItems;
    var item := st.sendTasks[0].item;
    WithoutFirstSender(st.sendTasks);
    RisingTail(st.sendTasks);
    Appended(st.data, item);
    RisingItemsAppend(st.data, item);
  }

  lemma AdvancedKept(st: State, h: History)
    requires Kept(st, h) && st.sendTasks != [] && Rising(st.sendTasks)
    ensures Kept(Advanced(st), h)
  {
    hide Rising, RisingItems, Genuine;
    var d, item := Advanced(st), st.sendTasks[0].item;
    AdvancedInOrder(st, h);
    WithoutFirstSender(st.sendTasks);
    RisingTail(st.sendTasks);
    Appended(st.data, item);
    assert item in d.data;
    forall ticket | 0 <= ticket < |h.accepted| ensures Accounted(d, h, ticket) {
      assert Accounted(st, h, ticket);
    }
  }

  lemma WithoutFirstSender(ws: seq<Sender>)
    requires ws != [] && Rising(ws)
    ensures WithoutSenders(ws, {ws[0].task}) == ws[1..]
  {
    forall w | w in ws[1..] ensures w.task != ws[0].task {
      var i :| 0 <= i < |ws[1..]| && ws[1..][i] == w;
      assert ws[i + 1] == w;
    }
    WithoutOtherSenders(ws[1..], ws[0].task);
  }

  lemma {:induction false} WithoutOtherSenders(ws: seq<Sender>, t: Task)
    requires forall w :: w in ws ==> w.task != t
    ensures WithoutSenders(ws, {t}) == ws
  {
    if ws != [] {
      WithoutOtherSenders(ws[1..], t);
    }
  }

  lemma {:induction false} WithoutOtherTasks(ts: seq<Task>, t: Task)
    requires t !in ts
    ensures WithoutTasks(ts, {t}) == ts
  {
    if ts != [] {
      WithoutOtherTasks(ts[1..], t);
    }
  }

  function Delivered(h: History, x: Item): History {
    h.(delivered := h.delivered + [x])
  }

  lemma RisingItemsTail(xs: seq<Item>)
    requires RisingItems(xs) && xs != []
    ensures RisingItems(xs[1..]) && xs[0] in xs
    ensures forall y :: y in xs <==> y == xs[0] || y in xs[1..]
    ensures forall y :: y in xs[1..] ==> xs[0].ticket < y.ticket
  {
    assert xs == [xs[0]] + xs[1..];
  }

  lemma DeliveredInOrder(st: State, h: History)
    requires InOrder(st, h) && st.data != []
    ensures InOrder(st.(data := st.data[1..]), Delivered(h, st.data[0]))
  {
    RisingItemsTail(st.data);
    Appended(h.delivered, st.data[0]);
    RisingItemsAppend(h.delivered, st.data[0]);
  }

  lemma DeliveredKept(st: State, h: History)
    requires Kept(st, h) && st.data != []
    ensures Kept(st.(data := st.data[1..]), Delivered(h, st.data[0]))
  {
    hide RisingItems, Genuine;
    var x := st.data[0];
    var d, k := st.(data := st.data[1..]), Delivered(h, x);
    DeliveredInOrder(st, h);
    RisingItemsTail(st.data);
    Appended(h.delivered, x);
    forall y | Genuine(h, y) ensures Genuine(k, y) { GenuineStays(h, k, y); }
    assert x in k.delivered;
    forall ticket | 0 <= ticket < |k.accepted| ensures Accounted(d, k, ticket) {
      assert Accounted(st, h, ticket);
    }
  }

  lemma GenuineStays(h: History, k: History, y: Item)
    requires Genuine(h, y) && k.accepted == h.accepted && k.dropped == h.dropped
    ensures Genuine(k, y)
  {
  }

  function Cleared(st: State, h: History): History {
    h.(dropped := h.dropped + set x | x in st.data :: x.ticket)
  }

  lemma ClearedKept(st: State, h: History)
    requires Kept(st, h)
    ensures Kept(st.(data := []), Cleared(st, h))
  {
    var d, k := st.(data := []), Cleared(st, h);
    forall ticket | 0 <= ticket < |k.accepted| ensures Accounted(d, k, ticket) {
      assert Accounted(st, h, ticket);
    }
  }

  lemma SameQueueKept(st: State, h: History, d: State, k: History)
    requires Kept(st, h) && d.data == st.data && d.sendTasks == st.sendTasks
    requires k == h.(woken := k.woken)
    ensures Kept(d, k)
  {
    forall ticket | 0 <= ticket < |k.accepted| ensures Accounted(d, k, ticket) {
      assert Accounted(st, h, ticket);
    }
  }

  // ---------- one FIFO queue ----------

  predicate WasDelivered(h: History, ticket: nat) {
    exists i :: 0 <= i < |h.delivered| && h.delivered[i].ticket == ticket
  }

  predicate IsQueued(st: State, ticket: nat) {
    exists i :: 0 <= i < |Queue(st)| && Queue(st)[i].ticket == ticket
  }

  lemma ConcatRises(xs: seq<Item>, ys: seq<Item>)
    requires RisingItems(xs) && RisingItems(ys)
    requires forall i, j :: 0 <= i < |xs| && 0 <= j < |ys| ==> xs[i].ticket < ys[j].ticket
    ensures RisingItems(xs + ys)
  {
  }

  lemma QueueInOrder(st: State, h: History)
    requires Rising(st.sendTasks) && InOrder(st, h)
    ensures RisingItems(Queue(st))
    ensures forall i, j :: 0 <= i < |h.delivered| && 0 <= j < |Queue(st)| ==> h.delivered[i].ticket < Queue(st)[j].ticket
  {
    var q := Queue(st);
    forall i, j | 0 <= i < j < |q| ensures q[i].ticket < q[j].ticket {
      if |st.data| <= i {
        assert q[i] == st.sendTasks[i - |st.data|].item && q[j] == st.sendTasks[j - |st.data|].item;
      } else if |st.data| <= j {
        assert q[i] in st.data && st.sendTasks[j - |st.data|] in st.sendTasks;
      } else {
        assert q[i] == st.data[i] && q[j] == st.data[j];
      }
    }
    forall i, j | 0 <= i < |h.delivered| && 0 <= j < |q| ensures h.delivered[i].ticket < q[j].ticket {
      assert h.delivered[i] in h.delivered;
      assert j < |st.data| ==> q[j] in st.data;
      assert |st.data| <= j ==> st.sendTasks[j - |st.data|] in st.sendTasks;
    }
  }

  /** The channel is one queue in the order of sending: delivered values first, then those still queued. */
  lemma QueueRises(st: State, h: History)
    requires Rising(st.sendTasks) && Kept(st, h)
    ensures RisingItems(h.delivered + Queue(st))
  {
    hide Conserved, RisingItems, Queue;
    QueueInOrder(st, h);
    ConcatRises(h.delivered, Queue(st));
  }

  lemma QueueGenuine(st: State, h: History)
    requires Conserved(st, h)
    ensures forall i :: 0 <= i < |h.delivered| ==> Genuine(h, h.delivered[i])
    ensures forall i :: 0 <= i < |Queue(st)| ==> Genuine(h, Queue(st)[i])
  {
    forall i | 0 <= i < |h.delivered| ensures Genuine(h, h.delivered[i]) {
      assert h.delivered[i] in h.delivered;
    }
    var q := Queue(st);
    forall i | 0 <= i < |q| ensures Genuine(h, q[i]) {
      assert i < |st.data| ==> q[i] in st.data;
      assert |st.data| <= i ==> st.sendTasks[i - |st.data|] in st.sendTasks;
    }
  }

  /**
   * Every value that a send handed over is in exactly one place: it was delivered, once, or it is still
   * queued, or it was dropped.
   */
  lemma ExactlyOnePlace(st: State, h: History, ticket: nat)
    requires Rising(st.sendTasks) && Kept(st, h) && ticket < |h.accepted|
    ensures ticket in h.dropped <==> !WasDelivered(h, ticket) && !IsQueued(st, ticket)
    ensures !(WasDelivered(h, ticket) && IsQueued(st, ticket))
    ensures forall i, j :: 0 <= i < j < |h.delivered| ==> h.delivered[i].ticket != h.delivered[j].ticket
    ensures forall i :: 0 <= i < |h.delivered| && h.delivered[i].ticket == ticket ==> h.delivered[i].value == h.accepted[ticket]
    ensures forall i :: 0 <= i < |Queue(st)| && Queue(st)[i].ticket == ticket ==> Queue(st)[i].value == h.accepted[ticket]
  {
    hide Queue;
    QueueInOrder(st, h);
    QueueGenuine(st, h);
    InQueue(st);
    assert Accounted(st, h, ticket);
    if x :| x in h.delivered && x.ticket == ticket {
      var i :| 0 <= i < |h.delivered| && h.delivered[i] == x;
    }
  }

  lemma InQueue(st: State)
    ensures forall x :: x in st.data ==> IsQueued(st, x.ticket)
    ensures forall w :: w in st.sendTasks ==> IsQueued(st, w.item.ticket)
  {
    forall x | x in st.data ensures IsQueued(st, x.ticket) {
      var i :| 0 <= i < |st.data| && st.data[i] == x;
      assert Queue(st)[i] == x;
    }
    forall w | w in st.sendTasks ensures IsQueued(st, w.item.ticket) {
      var i :| 0 <= i < |st.sendTasks| && st.sendTasks[i] == w;
      assert Queue(st)[|st.data| + i] == w.item;
    }
  }
}
