/** Which steps keep the invariants of a memory channel, under the conditions that its operations check. */
module ChannelInv {
  import opened Collections
  import opened Options
  import opened ChannelState
  import opened ChannelSteps

  lemma LeftKeys(ends: map<End, set<Task>>, gone: set<Task>, closed: set<End>)
    ensures Left(ends, gone).Keys == ends.Keys && Open(Left(ends, gone), closed) == Open(ends, closed)
  {
    assert Left(ends, gone).Keys == ends.Keys;
  }

  /** One task goes from the only endpoint it waits at. */
  lemma LeftOne(ends: map<End, set<Task>>, t: Task, e: End)
    requires e in ends && forall d :: d in ends && t in ends[d] ==> d == e
    ensures Left(ends, {t}) == ends[e := ends[e] - {t}]
  {
    forall d | d in ends && d != e ensures ends[d] - {t} == ends[d] {
    }
  }

  lemma WithoutFirstTask(ts: seq<Task>)
    requires ts != [] && Distinct(ts)
    ensures WithoutTasks(ts, {ts[0]}) == ts[1..]
  {
    WithoutOtherTasks(ts[1..], ts[0]);
  }

  lemma HandedInv(st: State)
    requires Inv(st) && st.receiveTasks != []
    ensures var t := st.receiveTasks[0];
      && t in st.sleepingOn && st.sleepingOn[t] in st.receiveEnds
      && Handed(st) == st.(receiveTasks := st.receiveTasks[1..], sleepingOn := st.sleepingOn - {t},
           receiveEnds := st.receiveEnds[st.sleepingOn[t] := st.receiveEnds[st.sleepingOn[t]] - {t}])
    ensures Inv(Handed(st))
  {
    var t := st.receiveTasks[0];
    WithoutFirstTask(st.receiveTasks);
    LeftOne(st.receiveEnds, t, st.sleepingOn[t]);
    LeftKeys(st.receiveEnds, {t}, st.closed);
    OneSide(st);
    ReceiversGoneOk(st, {t}, st.closed);
  }

  lemma BufferedInv(st: State, data: seq<Item>)
    requires Inv(st) && st.receiveTasks == [] && !Full(st) && |data| == |st.data| + 1 && st.openReceiveChannels != 0
    ensures st.sendTasks == [] && Inv(st.(data := data))
  {
  }

  lemma NewSender(ws: seq<Sender>, ends: map<End, set<Task>>, sleepingOn: map<Task, End>, closed: set<End>, w: Sender, e: End)
    requires SendersOk(ws, ends, sleepingOn, closed) && w.task !in sleepingOn && e in ends && e !in closed
    requires forall v :: v in ws ==> v.item.ticket < w.item.ticket
    ensures SendersOk(ws + [w], ends[e := ends[e] + {w.task}], sleepingOn[w.task := e], closed)
  {
    var ws2, ends2 := ws + [w], ends[e := ends[e] + {w.task}];
    Appended(ws, w);
    RisingAppend(ws, w);
    forall c, t | c in ends2 && t in ends2[c] ensures Waits(ws2, t) {
      if t == w.task {
        assert ws2[|ws|].task == t;
      } else {
        assert t in ends[c] && Waits(ws, t);
        var i :| 0 <= i < |ws| && ws[i].task == t;
        assert ws2[i] == ws[i];
      }
    }
  }

  lemma SenderBlockedInv(st: State, h: History, task: Task, e: End, value: Value)
    requires Inv(st) && Kept(st, h) && e in st.sendEnds && e !in st.closed && task !in st.sleepingOn
    requires st.receiveTasks == [] && Full(st) && st.openReceiveChannels != 0
    ensures Inv(SenderBlocked(st, h, task, e, value))
  {
    hide SendersOk, ReceiversOk;
    var d := SenderBlocked(st, h, task, e, value);
    var w := Sender(task, NextItem(h, value));
    assert forall v :: v in st.sendTasks ==> Genuine(h, v.item);
    NewSender(st.sendTasks, st.sendEnds, st.sleepingOn, st.closed, w, e);
    OthersAsleepToo(st.receiveTasks, st.receiveEnds, st.sleepingOn, st.closed, task, e);
    assert Open(d.sendEnds, d.closed) == Open(st.sendEnds, st.closed);
    assert d.sendEnds.Keys == st.sendEnds.Keys;
  }

  lemma OthersAsleepToo(ts: seq<Task>, ends: map<End, set<Task>>, sleepingOn: map<Task, End>, closed: set<End>, task: Task, e: End)
    requires ReceiversOk(ts, ends, sleepingOn, closed) && task !in sleepingOn
    ensures ReceiversOk(ts, ends, sleepingOn[task := e], closed)
  {
  }

  lemma NewReceiver(ts: seq<Task>, ends: map<End, set<Task>>, sleepingOn: map<Task, End>, closed: set<End>, task: Task, e: End)
    requires ReceiversOk(ts, ends, sleepingOn, closed) && task !in sleepingOn && e in ends && e !in closed
    ensures ReceiversOk(ts + [task], ends[e := ends[e] + {task}], sleepingOn[task := e], closed)
  {
  }

  lemma OthersAsleep(ws: seq<Sender>, ends: map<End, set<Task>>, sleepingOn: map<Task, End>, closed: set<End>, task: Task, e: End)
    requires SendersOk(ws, ends, sleepingOn, closed) && task !in sleepingOn
    ensures SendersOk(ws, ends, sleepingOn[task := e], closed)
  {
  }

  lemma ReceiverBlockedInv(st: State, task: Task, e: End)
    requires Inv(st) && e in st.receiveEnds && e !in st.closed && task !in st.sleepingOn
    requires st.data == [] && st.sendTasks == [] && st.openSendChannels != 0
    ensures Inv(ReceiverBlocked(st, task, e))
  {
    hide SendersOk, ReceiversOk;
    var d := ReceiverBlocked(st, task, e);
    NewReceiver(st.receiveTasks, st.receiveEnds, st.sleepingOn, st.closed, task, e);
    OthersAsleep(st.sendTasks, st.sendEnds, st.sleepingOn, st.closed, task, e);
    assert Open(d.receiveEnds, d.closed) == Open(st.receiveEnds, st.closed);
    assert d.receiveEnds.Keys == st.receiveEnds.Keys;
  }

  /** A blocked sender's value goes to the end of the buffer, and the first value of the buffer goes out. */
  function Taken(st: State): State
    requires st.sendTasks != []
  {
    Advanced(st).(data := Advanced(st).data[1..])
  }

  lemma TakenInv(st: State)
    requires Inv(st) && st.sendTasks != []
    ensures var t := st.sendTasks[0].task;
      && t in st.sleepingOn && st.sleepingOn[t] in st.sendEnds
      && Advanced(st) == st.(sendTasks := st.sendTasks[1..], sleepingOn := st.sleepingOn - {t}, data := st.data + [st.sendTasks[0].item],
           sendEnds := st.sendEnds[st.sleepingOn[t] := st.sendEnds[st.sleepingOn[t]] - {t}])
    ensures Inv(Taken(st))
  {
    var w := st.sendTasks[0];
    WithoutFirstSender(st.sendTasks);
    LeftOne(st.sendEnds, w.task, st.sleepingOn[w.task]);
    LeftKeys(st.sendEnds, {w.task}, st.closed);
    OneSide(st);
    SendersGoneOk(st, {w.task}, st.closed);
  }

  lemma PoppedInv(st: State)
    requires Inv(st) && st.sendTasks == [] && st.data != []
    ensures Inv(st.(data := st.data[1..]))
  {
  }

  lemma SenderGoneInv(st: State, t: Task, e: End)
    requires Inv(st) && e in st.sendEnds && t in st.sendEnds[e]
    ensures Inv(SendersGone(st, {t}))
    ensures SendersGone(st, {t}) == st.(sendTasks := WithoutSenders(st.sendTasks, {t}), sleepingOn := st.sleepingOn - {t},
      sendEnds := st.sendEnds[e := st.sendEnds[e] - {t}])
  {
    LeftOne(st.sendEnds, t, e);
    LeftKeys(st.sendEnds, {t}, st.closed);
    OneSide(st);
    SendersGoneOk(st, {t}, st.closed);
    WithoutSendersContents(st.sendTasks, {t});
    SomeLeft(st, {t});
  }

  lemma SomeLeft(st: State, gone: set<Task>)
    ensures WithoutSenders(st.sendTasks, gone) != [] ==> st.sendTasks != []
    ensures WithoutTasks(st.receiveTasks, gone) != [] ==> st.receiveTasks != []
  {
  }

  lemma ReceiverGoneInv(st: State, t: Task, e: End)
    requires Inv(st) && e in st.receiveEnds && t in st.receiveEnds[e]
    ensures Inv(ReceiversGone(st, {t}))
    ensures ReceiversGone(st, {t}) == st.(receiveTasks := WithoutTasks(st.receiveTasks, {t}), sleepingOn := st.sleepingOn - {t},
      receiveEnds := st.receiveEnds[e := st.receiveEnds[e] - {t}])
  {
    LeftOne(st.receiveEnds, t, e);
    LeftKeys(st.receiveEnds, {t}, st.closed);
    OneSide(st);
    ReceiversGoneOk(st, {t}, st.closed);
    SomeLeft(st, {t});
  }

  lemma NewSendEnd(ws: seq<Sender>, ends: map<End, set<Task>>, sleepingOn: map<Task, End>, closed: set<End>, e: End)
    requires SendersOk(ws, ends, sleepingOn, closed) && e !in ends
    ensures SendersOk(ws, ends[e := {}], sleepingOn, closed)
  {
  }

  lemma NewReceiveEnd(ts: seq<Task>, ends: map<End, set<Task>>, sleepingOn: map<Task, End>, closed: set<End>, e: End)
    requires ReceiversOk(ts, ends, sleepingOn, closed) && e !in ends
    ensures ReceiversOk(ts, ends[e := {}], sleepingOn, closed)
  {
  }

  lemma OneMoreOpen(ends: map<End, set<Task>>, closed: set<End>, e: End)
    requires e !in ends && e !in closed
    ensures |Open(ends[e := {}], closed)| == |Open(ends, closed)| + 1
  {
    assert Open(ends[e := {}], closed) == Open(ends, closed) + {e};
  }

  lemma SendClonedInv(st: State, e: End)
    requires Inv(st) && e !in st.sendEnds && e !in st.receiveEnds
    ensures Inv(st.(sendEnds := st.sendEnds[e := {}], openSendChannels := st.openSendChannels + 1))
  {
    hide SendersOk, ReceiversOk, Open;
    NewSendEnd(st.sendTasks, st.sendEnds, st.sleepingOn, st.closed, e);
    OneMoreOpen(st.sendEnds, st.closed, e);
    assert st.sendEnds[e := {}].Keys == st.sendEnds.Keys + {e};
  }

  lemma ReceiveClonedInv(st: State, e: End)
    requires Inv(st) && e !in st.sendEnds && e !in st.receiveEnds && st.openReceiveChannels != 0
    ensures Inv(st.(receiveEnds := st.receiveEnds[e := {}], openReceiveChannels := st.openReceiveChannels + 1))
  {
    hide SendersOk, ReceiversOk, Open;
    NewReceiveEnd(st.receiveTasks, st.receiveEnds, st.sleepingOn, st.closed, e);
    OneMoreOpen(st.receiveEnds, st.closed, e);
    assert st.receiveEnds[e := {}].Keys == st.receiveEnds.Keys + {e};
  }

  lemma SomeOpen(st: State, e: End)
    requires Inv(st) && e !in st.closed
    ensures e in st.sendEnds ==> st.openSendChannels > 0
    ensures e in st.receiveEnds ==> st.openReceiveChannels > 0
  {
    assert e in st.sendEnds ==> e in Open(st.sendEnds, st.closed);
    assert e in st.receiveEnds ==> e in Open(st.receiveEnds, st.closed);
  }

  /** Everything about a send channel that has been closed, but for the receivers when it was the last one. */
  function SendClosing(st: State, e: End): State
    requires e in st.sendEnds
  {
    SendersGone(st, st.sendEnds[e]).(closed := st.closed + {e}, openSendChannels := st.openSendChannels - 1)
  }

  /** After that, the receivers have nothing to wait for. */
  function SendClosedAt(st: State, e: End): State
    requires e in st.sendEnds
  {
    var d := SendClosing(st, e);
    if d.openSendChannels == 0 then ReceiversGone(d, set t | t in d.receiveTasks) else d
  }

  function ReceiveClosing(st: State, e: End): State
    requires e in st.receiveEnds
  {
    ReceiversGone(st, st.receiveEnds[e]).(closed := st.closed + {e}, openReceiveChannels := st.openReceiveChannels - 1)
  }

  /** After the last receive channel, the senders and the buffer are given up. */
  function ReceiveClosedAt(st: State, e: End): State
    requires e in st.receiveEnds
  {
    var d := ReceiveClosing(st, e);
    if d.openReceiveChannels == 0 then SendersGone(d, set w | w in d.sendTasks :: w.task).(data := []) else d
  }

  lemma SenderAtOpenEnd(ws: seq<Sender>, ends: map<End, set<Task>>, sleepingOn: map<Task, End>, closed: set<End>)
    requires SendersOk(ws, ends, sleepingOn, closed)
    ensures ws != [] ==> |Open(ends, closed)| > 0
  {
    if ws != [] {
      var t := ws[0].task;
      assert ws[0] in ws;
      var e := sleepingOn[t];
      assert t in ends[e];
      assert e in Open(ends, closed);
    }
  }

  lemma ReceiverAtOpenEnd(ts: seq<Task>, ends: map<End, set<Task>>, sleepingOn: map<Task, End>, closed: set<End>)
    requires ReceiversOk(ts, ends, sleepingOn, closed)
    ensures ts != [] ==> |Open(ends, closed)| > 0
  {
    if ts != [] {
      var t := ts[0];
      assert t in ts;
      var e := sleepingOn[t];
      assert t in ends[e];
      assert e in Open(ends, closed);
    }
  }

  lemma SendersGoneAt(st: State, e: End)
    requires Inv(st) && e in st.sendEnds && e !in st.closed
    ensures BothOk(SendersGone(st, st.sendEnds[e]).(closed := st.closed + {e}))
  {
    OneSide(st);
    SendersGoneOk(st, st.sendEnds[e], st.closed + {e});
  }

  lemma ReceiversGoneAt(st: State, e: End)
    requires Inv(st) && e in st.receiveEnds && e !in st.closed
    ensures BothOk(ReceiversGone(st, st.receiveEnds[e]).(closed := st.closed + {e}))
  {
    OneSide(st);
    ReceiversGoneOk(st, st.receiveEnds[e], st.closed + {e});
  }

  /** One endpoint closes, out of those in `ends`. */
  lemma OneClosed(ends: map<End, set<Task>>, ends2: map<End, set<Task>>, others: map<End, set<Task>>, closed: set<End>, e: End)
    requires e in ends && e !in closed && e !in others && ends2.Keys == ends.Keys
    ensures |Open(ends2, closed + {e})| == |Open(ends, closed)| - 1
    ensures Open(others, closed + {e}) == Open(others, closed)
  {
    assert Open(ends, closed) == Open(ends2, closed + {e}) + {e};
  }

  lemma SendClosingOk(st: State, e: End)
    requires Inv(st) && e in st.sendEnds && e !in st.closed
    ensures var d := SendClosing(st, e);
      && BothOk(d) && EndsOk(d.sendEnds, d.receiveEnds, d.closed, d.openSendChannels, d.openReceiveChannels)
      && (d.openSendChannels == 0 ==> d.sendTasks == [])
      && (d.openSendChannels != 0 ==> Inv(d))
  {
    hide SendersOk, ReceiversOk, Open, WithoutSenders, Left;
    var d := SendClosing(st, e);
    SendersGoneAt(st, e);
    LeftKeys(st.sendEnds, st.sendEnds[e], d.closed);
    OneClosed(st.sendEnds, d.sendEnds, st.receiveEnds, st.closed, e);
    SomeLeft(st, st.sendEnds[e]);
    SenderAtOpenEnd(d.sendTasks, d.sendEnds, d.sleepingOn, d.closed);
  }

  lemma {:induction false} WithoutAllSenders(ws: seq<Sender>, gone: set<Task>)
    requires forall w :: w in ws ==> w.task in gone
    ensures WithoutSenders(ws, gone) == []
  {
    if ws != [] {
      WithoutAllSenders(ws[1..], gone);
    }
  }

  lemma {:induction false} WithoutAllTasks(ts: seq<Task>, gone: set<Task>)
    requires forall i :: 0 <= i < |ts| ==> ts[i] in gone
    ensures WithoutTasks(ts, gone) == []
  {
    if ts != [] {
      WithoutAllTasks(ts[1..], gone);
    }
  }

  lemma SendClosedInv(st: State, e: End)
    requires Inv(st) && e in st.sendEnds && e !in st.closed
    ensures Inv(SendClosedAt(st, e))
    ensures SendClosing(st, e).openSendChannels == 0 ==> SendClosedAt(st, e).receiveTasks == []
  {
    SendClosingOk(st, e);
    hide SendersOk, ReceiversOk, Open, WithoutSenders, WithoutTasks, Left, SendClosing;
    var d := SendClosing(st, e);
    if d.openSendChannels == 0 {
      SendClosingRest(st, e);
      AllReceiversGone(d);
    }
  }

  lemma SendClosingRest(st: State, e: End)
    requires Inv(st) && e in st.sendEnds && e !in st.closed
    ensures var d := SendClosing(st, e); (d.openReceiveChannels == 0 ==> d.data == []) && (d.maxBufferSize.Some? ==> |d.data| <= d.maxBufferSize.value)
  {
  }

  lemma AllReceiversGone(d: State)
    requires BothOk(d) && EndsOk(d.sendEnds, d.receiveEnds, d.closed, d.openSendChannels, d.openReceiveChannels) && d.sendTasks == []
    ensures var k := ReceiversGone(d, set t | t in d.receiveTasks);
      && BothOk(k) && EndsOk(k.sendEnds, k.receiveEnds, k.closed, k.openSendChannels, k.openReceiveChannels)
      && k.receiveTasks == []
  {
    var gone := set t | t in d.receiveTasks;
    ReceiversGoneOk(d, gone, d.closed);
    LeftKeys(d.receiveEnds, gone, d.closed);
    WithoutAllTasks(d.receiveTasks, gone);
  }

  lemma ReceiveClosingOk(st: State, e: End)
    requires Inv(st) && e in st.receiveEnds && e !in st.closed
    ensures var d := ReceiveClosing(st, e);
      && BothOk(d) && EndsOk(d.sendEnds, d.receiveEnds, d.closed, d.openSendChannels, d.openReceiveChannels)
      && (d.openReceiveChannels == 0 ==> d.receiveTasks == [])
      && (d.openReceiveChannels != 0 ==> Inv(d))
  {
    hide SendersOk, ReceiversOk, Open, WithoutTasks, Left;
    var d := ReceiveClosing(st, e);
    ReceiversGoneAt(st, e);
    LeftKeys(st.receiveEnds, st.receiveEnds[e], d.closed);
    OneClosed(st.receiveEnds, d.receiveEnds, st.sendEnds, st.closed, e);
    SomeLeft(st, st.receiveEnds[e]);
    ReceiverAtOpenEnd(d.receiveTasks, d.receiveEnds, d.sleepingOn, d.closed);
  }

  lemma ReceiveClosedInv(st: State, e: End)
    requires Inv(st) && e in st.receiveEnds && e !in st.closed
    ensures Inv(ReceiveClosedAt(st, e))
    ensures ReceiveClosing(st, e).openReceiveChannels == 0 ==> ReceiveClosedAt(st, e).sendTasks == []
  {
    ReceiveClosingOk(st, e);
    hide SendersOk, ReceiversOk, Open, WithoutSenders, WithoutTasks, Left, ReceiveClosing;
    var d := ReceiveClosing(st, e);
    if d.openReceiveChannels == 0 {
      AllSendersGone(d);
    }
  }

  lemma AllSendersGone(d: State)
    requires BothOk(d) && EndsOk(d.sendEnds, d.receiveEnds, d.closed, d.openSendChannels, d.openReceiveChannels) && d.receiveTasks == []
    ensures var k := SendersGone(d, set w | w in d.sendTasks :: w.task);
      && BothOk(k) && EndsOk(k.sendEnds, k.receiveEnds, k.closed, k.openSendChannels, k.openReceiveChannels)
      && k.sendTasks == []
  {
    var gone := set w | w in d.sendTasks :: w.task;
    SendersGoneOk(d, gone, d.closed);
    LeftKeys(d.sendEnds, gone, d.closed);
    WithoutAllSenders(d.sendTasks, gone);
  }
}
