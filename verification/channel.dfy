/** Memory channels: `trio/_channel.py`. */
module Channel {
  import opened Collections
  import opened Options
  import opened ChannelState
  import opened ChannelSteps
  import opened ChannelInv

  datatype SendResult = Accepted | Blocked | SendClosed | SendBroken
  datatype ReceiveResult = Got(item: Item) | NothingYet | ReceiveClosed | AtEnd

  /** A channel with all its endpoints. `Blocked` and `NothingYet` are `WouldBlock` for the calls that do not wait. */
  class MemoryChannel {
    var st: State
    var history: History

    /** `open_memory_channel`, with its two endpoints. */
    constructor (maxBufferSize: Option<nat>, sender: End, receiver: End)
      requires sender != receiver
      ensures Valid() && Queue(st) == [] && history.accepted == []
      ensures st.sendEnds == map[sender := {}] && st.receiveEnds == map[receiver := {}] && st.closed == {}
    {
      st := State(maxBufferSize, [], 1, 1, [], [], map[sender := {}], map[receiver := {}], {}, map[]);
      history := History([], [], {}, map[]);
      new;
      hide Inv, Kept;
      NewChannel(st, history, sender, receiver);
    }

    ghost predicate Valid()
      reads this
    {
      Inv(st) && Kept(st, history)
    }

    /** `send_nowait`. */
    method SendNowait(e: End, value: Value) returns (r: SendResult)
      requires Valid() && e in st.sendEnds
      modifies this
      ensures Valid()
      ensures r == if e in old(st.closed) then SendClosed else if old(st.openReceiveChannels) == 0 then SendBroken
                   else if old(st.receiveTasks) == [] && Full(old(st)) then Blocked else Accepted
      ensures r != Accepted ==> st == old(st) && history == old(history)
      ensures r == Accepted && old(st.receiveTasks) != [] ==>
        && st == Handed(old(st)) && Queue(old(st)) == [] == Queue(st)
        && history == HandedHistory(old(st), old(history), value)
      ensures r == Accepted && old(st.receiveTasks) == [] ==>
        && st == Buffered(old(st), old(history), value) && Queue(st) == Queue(old(st)) + [NextItem(old(history), value)]
        && history == old(history).(accepted := old(history.accepted) + [value])
    {
      hide SendersOk, ReceiversOk, EndsOk, Kept;
      ghost var s, h := st, history;
      if e in st.closed { return SendClosed; }
      if st.openReceiveChannels == 0 { return SendBroken; }
      if st.receiveTasks != [] {
        HandedInv(s);
        HandedKept(s, h, value);
        var task := st.receiveTasks[0];
        var sleeping := st.sleepingOn[task];
        st := st.(receiveTasks := st.receiveTasks[1..]);
        st := st.(receiveEnds := st.receiveEnds[sleeping := st.receiveEnds[sleeping] - {task}]);
        Reschedule(task, Received(value));
        history := history.(accepted := history.accepted + [value], delivered := history.delivered + [Item(|history.accepted|, value)]);
        r := Accepted;
      } else if st.maxBufferSize.None? || |st.data| < st.maxBufferSize.value {
        BufferedInv(s, s.data + [NextItem(h, value)]);
        BufferedKept(s, h, value);
        st := st.(data := st.data + [Item(|history.accepted|, value)]);
        history := history.(accepted := history.accepted + [value]);
        r := Accepted;
      } else {
        r := Blocked;
      }
    }

    /** `reschedule`, as far as the channel is concerned: the task does not sleep here any more. */
    method Reschedule(task: Task, outcome: Outcome)
      modifies this
      ensures st == old(st).(sleepingOn := old(st.sleepingOn) - {task})
      ensures history == old(history).(woken := old(history.woken)[task := outcome])
    {
      st := st.(sleepingOn := st.sleepingOn - {task});
      history := history.(woken := history.woken[task := outcome]);
    }

    /** `send`: a task whose value finds no room sleeps with it. */
    method Send(task: Task, e: End, value: Value) returns (r: SendResult)
      requires Valid() && e in st.sendEnds && task !in st.sleepingOn
      modifies this
      ensures Valid()
      ensures r == if e in old(st.closed) then SendClosed else if old(st.openReceiveChannels) == 0 then SendBroken
                   else if old(st.receiveTasks) == [] && Full(old(st)) then Blocked else Accepted
      ensures r == SendClosed || r == SendBroken ==> st == old(st) && history == old(history)
      ensures r == Accepted ==> history.accepted == old(history.accepted) + [value] && history.dropped == old(history.dropped)
      ensures r == Blocked ==>
        && st == SenderBlocked(old(st), old(history), task, e, value) && Queue(st) == Queue(old(st)) + [NextItem(old(history), value)]
        && history == old(history).(accepted := old(history.accepted) + [value])
    {
      hide SendersOk, ReceiversOk, EndsOk, Kept;
      r := SendNowait(e, value);
      if r == Blocked {
        SenderBlockedInv(st, history, task, e, value);
        BlockedKept(st, history, task, e, value);
        st := st.(sendEnds := st.sendEnds[e := st.sendEnds[e] + {task}]);
        st := st.(sendTasks := st.sendTasks + [Sender(task, Item(|history.accepted|, value))]);
        st := st.(sleepingOn := st.sleepingOn[task := e]);
        history := history.(accepted := history.accepted + [value]);
      }
    }

    /** The abort function of `send`: the value will not be sent. */
    method AbortSend(task: Task, e: End)
      requires Valid() && e in st.sendEnds && task in st.sendEnds[e]
      modifies this
      ensures Valid() && st == SendersGone(old(st), {task}) && history == Dropped(old(st), old(history), {task})
    {
      hide SendersOk, ReceiversOk, EndsOk, Kept;
      SenderGoneInv(st, task, e);
      SendersRise(st);
      DroppedKept(st, history, {task});
      history := history.(dropped := history.dropped + TicketsOf(st.sendTasks, {task}));
      st := st.(sendEnds := st.sendEnds[e := st.sendEnds[e] - {task}]);
      st := st.(sendTasks := WithoutSenders(st.sendTasks, {task}));
      st := st.(sleepingOn := st.sleepingOn - {task});
    }

    method CloneSend(e: End, clone: End) returns (ok: bool)
      requires Valid() && e in st.sendEnds && clone !in st.sendEnds && clone !in st.receiveEnds
      modifies this
      ensures Valid() && history == old(history) && ok == (e !in old(st.closed))
      ensures st == if ok then old(st).(sendEnds := old(st.sendEnds)[clone := {}], openSendChannels := old(st.openSendChannels) + 1) else old(st)
    {
      hide SendersOk, ReceiversOk, EndsOk, Kept;
      ok := e !in st.closed;
      if ok {
        SendClonedInv(st, clone);
        SameQueueKept(st, history, st.(sendEnds := st.sendEnds[clone := {}], openSendChannels := st.openSendChannels + 1), history);
        st := st.(sendEnds := st.sendEnds[clone := {}], openSendChannels := st.openSendChannels + 1);
      }
    }

    /** `receive_nowait`: the first blocked sender, if any, moves up, and the first value of the buffer goes out. */
    method ReceiveNowait(e: End) returns (r: ReceiveResult)
      requires Valid() && e in st.receiveEnds
      modifies this
      ensures Valid()
      ensures e in old(st.closed) ==> r == ReceiveClosed
      ensures e !in old(st.closed) && Queue(old(st)) != [] ==> r == Got(Queue(old(st))[0]) && Queue(st) == Queue(old(st))[1..]
      ensures e !in old(st.closed) && Queue(old(st)) == [] ==> r == if old(st.openSendChannels) == 0 then AtEnd else NothingYet
      ensures !r.Got? ==> st == old(st) && history == old(history)
      ensures r.Got? ==> history.accepted == old(history.accepted) && history.dropped == old(history.dropped)
      ensures r.Got? ==> history.delivered == old(history.delivered) + [r.item] && |st.data| == |old(st.data)| - (if old(st.sendTasks) == [] then 1 else 0)
      ensures old(st.sendTasks) != [] && r.Got? ==> st == Taken(old(st)) && history.woken == old(history.woken)[old(st.sendTasks)[0].task := Sent]
      ensures old(st.sendTasks) == [] && r.Got? ==> st == old(st).(data := st.data) && history.woken == old(history.woken)
    {
      hide SendersOk, ReceiversOk, EndsOk, Kept;
      ghost var s, h := st, history;
      QueueParts(s);
      if e in st.closed { return ReceiveClosed; }
      if st.sendTasks != [] {
        SendersRise(st);
        TakenInv(s);
        AdvancedKept(s, h);
        var first := st.sendTasks[0];
        var sleeping := st.sleepingOn[first.task];
        st := st.(sendTasks := st.sendTasks[1..]);
        st := st.(sendEnds := st.sendEnds[sleeping := st.sendEnds[sleeping] - {first.task}]);
        Reschedule(first.task, Sent);
        st := st.(data := st.data + [first.item]);
        SameQueueKept(Advanced(s), h, st, history);
      }
      if st.data != [] {
        var item := st.data[0];
        DeliveredKept(st, history);
        if s.sendTasks == [] { PoppedInv(s); }
        st := st.(data := st.data[1..]);
        history := history.(delivered := history.delivered + [item]);
        QueueParts(st);
        return Got(item);
      }
      r := if st.openSendChannels == 0 then AtEnd else NothingYet;
    }

    /** `receive`: a task that finds nothing sleeps. */
    method Receive(task: Task, e: End) returns (r: ReceiveResult)
      requires Valid() && e in st.receiveEnds && task !in st.sleepingOn
      modifies this
      ensures Valid()
      ensures e in old(st.closed) ==> r == ReceiveClosed
      ensures e !in old(st.closed) && Queue(old(st)) != [] ==> r == Got(Queue(old(st))[0]) && Queue(st) == Queue(old(st))[1..]
      ensures e !in old(st.closed) && Queue(old(st)) == [] ==> r == if old(st.openSendChannels) == 0 then AtEnd else NothingYet
      ensures r == ReceiveClosed || r == AtEnd ==> st == old(st) && history == old(history)
      ensures r == NothingYet ==> st == ReceiverBlocked(old(st), task, e) && history == old(history)
      ensures r.Got? ==> history.accepted == old(history.accepted) && history.dropped == old(history.dropped)
      ensures r.Got? ==> history.delivered == old(history.delivered) + [r.item]
    {
      hide SendersOk, ReceiversOk, EndsOk, Kept;
      ghost var s := st;
      QueueParts(s);
      r := ReceiveNowait(e);
      if r == NothingYet {
        ReceiverBlockedInv(st, task, e);
        SameQueueKept(st, history, ReceiverBlocked(st, task, e), history);
        st := st.(receiveEnds := st.receiveEnds[e := st.receiveEnds[e] + {task}]);
        st := st.(receiveTasks := st.receiveTasks + [task]);
        st := st.(sleepingOn := st.sleepingOn[task := e]);
      }
    }

    /** The abort function of `receive`. */
    method AbortReceive(task: Task, e: End)
      requires Valid() && e in st.receiveEnds && task in st.receiveEnds[e]
      modifies this
      ensures Valid() && st == ReceiversGone(old(st), {task}) && history == old(history)
    {
      hide SendersOk, ReceiversOk, EndsOk, Kept;
      ReceiverGoneInv(st, task, e);
      SameQueueKept(st, history, ReceiversGone(st, {task}), history);
      st := st.(receiveEnds := st.receiveEnds[e := st.receiveEnds[e] - {task}]);
      st := st.(receiveTasks := WithoutTasks(st.receiveTasks, {task}));
      st := st.(sleepingOn := st.sleepingOn - {task});
    }

    method CloneReceive(e: End, clone: End) returns (ok: bool)
      requires Valid() && e in st.receiveEnds && clone !in st.sendEnds && clone !in st.receiveEnds
      modifies this
      ensures Valid() && history == old(history) && ok == (e !in old(st.closed))
      ensures st == if ok then old(st).(receiveEnds := old(st.receiveEnds)[clone := {}], openReceiveChannels := old(st.openReceiveChannels) + 1) else old(st)
    {
      hide SendersOk, ReceiversOk, EndsOk, Kept;
      ok := e !in st.closed;
      if ok {
        SomeOpen(st, e);
        ReceiveClonedInv(st, clone);
        SameQueueKept(st, history, st.(receiveEnds := st.receiveEnds[clone := {}], openReceiveChannels := st.openReceiveChannels + 1), history);
        st := st.(receiveEnds := st.receiveEnds[clone := {}], openReceiveChannels := st.openReceiveChannels + 1);
      }
    }

    /** The senders waiting at one endpoint are woken; the endpoint is emptied by the caller. */
    method WakeSenders(tasks: seq<Task>, outcome: Outcome)
      modifies this
      ensures st == old(st).(sendTasks := WithoutSenders(old(st.sendTasks), ToSet(tasks)), sleepingOn := old(st.sleepingOn) - ToSet(tasks))
      ensures history == old(history).(woken := old(history.woken) + All(ToSet(tasks), outcome))
    {
      hide WithoutSenders, All;
      ghost var s, h := st, history;
      WithoutSendersNobody(s.sendTasks);
      AllOfNobody(h.woken, outcome);
      assert ToSet(tasks[..0]) == {};
      for i := 0 to |tasks|
        invariant st == s.(sendTasks := WithoutSenders(s.sendTasks, ToSet(tasks[..i])), sleepingOn := s.sleepingOn - ToSet(tasks[..i]))
        invariant history == h.(woken := h.woken + All(ToSet(tasks[..i]), outcome))
      {
        NextOf(tasks, i);
        WithoutSendersTwice(s.sendTasks, ToSet(tasks[..i]), {tasks[i]});
        OneMoreOf(h.woken, ToSet(tasks[..i]), outcome, tasks[i]);
        LessSleeping(s.sleepingOn, ToSet(tasks[..i]), tasks[i]);
        Reschedule(tasks[i], outcome);
        st := st.(sendTasks := WithoutSenders(st.sendTasks, {tasks[i]}));
      }
      assert tasks[..|tasks|] == tasks;
    }

    method WakeReceivers(tasks: seq<Task>, outcome: Outcome)
      modifies this
      ensures st == old(st).(receiveTasks := WithoutTasks(old(st.receiveTasks), ToSet(tasks)), sleepingOn := old(st.sleepingOn) - ToSet(tasks))
      ensures history == old(history).(woken := old(history.woken) + All(ToSet(tasks), outcome))
    {
      hide WithoutTasks, All;
      ghost var s, h := st, history;
      WithoutTasksNobody(s.receiveTasks);
      AllOfNobody(h.woken, outcome);
      assert ToSet(tasks[..0]) == {};
      for i := 0 to |tasks|
        invariant st == s.(receiveTasks := WithoutTasks(s.receiveTasks, ToSet(tasks[..i])), sleepingOn := s.sleepingOn - ToSet(tasks[..i]))
        invariant history == h.(woken := h.woken + All(ToSet(tasks[..i]), outcome))
      {
        NextOf(tasks, i);
        WithoutTasksTwice(s.receiveTasks, ToSet(tasks[..i]), {tasks[i]});
        OneMoreOf(h.woken, ToSet(tasks[..i]), outcome, tasks[i]);
        LessSleeping(s.sleepingOn, ToSet(tasks[..i]), tasks[i]);
        Reschedule(tasks[i], outcome);
        st := st.(receiveTasks := WithoutTasks(st.receiveTasks, {tasks[i]}));
      }
      assert tasks[..|tasks|] == tasks;
    }

    /** All blocked receivers are woken, and go from the endpoints they wait at. */
    method WakeAllReceivers(outcome: Outcome)
      requires ReceiversOk(st.receiveTasks, st.receiveEnds, st.sleepingOn, st.closed)
      modifies this
      ensures st == ReceiversGone(old(st), ToSet(old(st.receiveTasks)))
      ensures history == old(history).(woken := old(history.woken) + All(ToSet(old(st.receiveTasks)), outcome))
    {
      hide WithoutTasks, All, Left, ReceiversOk;
      ghost var s, h := st, history;
      var tasks := st.receiveTasks;
      AllOfNobody(h.woken, outcome);
      LeftNobody(s.receiveEnds);
      assert ToSet(tasks[..0]) == {};
      for i := 0 to |tasks|
        invariant st == s.(receiveEnds := Left(s.receiveEnds, ToSet(tasks[..i])), sleepingOn := s.sleepingOn - ToSet(tasks[..i]))
        invariant history == h.(woken := h.woken + All(ToSet(tasks[..i]), outcome))
      {
        NextOf(tasks, i);
        OneMoreOf(h.woken, ToSet(tasks[..i]), outcome, tasks[i]);
        LessSleeping(s.sleepingOn, ToSet(tasks[..i]), tasks[i]);
        ReceiverLeaves(s, i);
        var e := st.sleepingOn[tasks[i]];
        st := st.(receiveEnds := st.receiveEnds[e := st.receiveEnds[e] - {tasks[i]}]);
        Reschedule(tasks[i], outcome);
      }
      assert tasks[..|tasks|] == tasks;
      WithoutAllTasks(s.receiveTasks, ToSet(tasks));
      st := st.(receiveTasks := []);
    }

    method WakeAllSenders(outcome: Outcome)
      requires SendersOk(st.sendTasks, st.sendEnds, st.sleepingOn, st.closed)
      modifies this
      ensures st == SendersGone(old(st), TasksOf(old(st.sendTasks)))
      ensures history == old(history).(woken := old(history.woken) + All(TasksOf(old(st.sendTasks)), outcome))
    {
      hide WithoutSenders, All, Left, SendersOk;
      ghost var s, h := st, history;
      var senders := st.sendTasks;
      AllOfNobody(h.woken, outcome);
      LeftNobody(s.sendEnds);
      assert TasksOf(senders[..0]) == {};
      for i := 0 to |senders|
        invariant st == s.(sendEnds := Left(s.sendEnds, TasksOf(senders[..i])), sleepingOn := s.sleepingOn - TasksOf(senders[..i]))
        invariant history == h.(woken := h.woken + All(TasksOf(senders[..i]), outcome))
      {
        var task := senders[i].task;
        NextSender(senders, i);
        OneMoreOf(h.woken, TasksOf(senders[..i]), outcome, task);
        LessSleeping(s.sleepingOn, TasksOf(senders[..i]), task);
        SenderLeaves(s, i);
        var e := st.sleepingOn[task];
        st := st.(sendEnds := st.sendEnds[e := st.sendEnds[e] - {task}]);
        Reschedule(task, outcome);
      }
      assert senders[..|senders|] == senders;
      WithoutAllSenders(s.sendTasks, TasksOf(senders));
      st := st.(sendTasks := []);
    }

    /** `MemorySendChannel.close`; after the last one the blocked receivers learn that nothing will come. */
    method CloseSend(e: End)
      requires Valid() && e in st.sendEnds
      modifies this
      ensures Valid()
      ensures e in old(st.closed) ==> st == old(st) && history == old(history)
      ensures e !in old(st.closed) ==>
        && st == SendClosedAt(old(st), e)
        && (st.openSendChannels == 0 ==> st.receiveTasks == [] && st.sendTasks == [])
        && history == Dropped(old(st), old(history), old(st.sendEnds)[e]).(woken :=
             old(history.woken) + All(old(st.sendEnds)[e], ClosedResourceError) +
             All(if st.openSendChannels == 0 then ToSet(old(st.receiveTasks)) else {}, EndOfChannel))
    {
      hide SendersOk, ReceiversOk, EndsOk, Kept, WithoutSenders, WithoutTasks, All, TicketsOf, Left;
      if e in st.closed { return; }
      ghost var s, h := st, history;
      ghost var mine := s.sendEnds[e];
      SendersRise(s);
      SendClosingOk(s, e);
      SendClosedInv(s, e);
      DroppedKept(s, h, mine);
      MineLeft(s, e);
      history := history.(dropped := history.dropped + TicketsOf(st.sendTasks, st.sendEnds[e]));
      st := st.(closed := st.closed + {e});
      var tasks := Elements(st.sendEnds[e]);
      WakeSenders(tasks, ClosedResourceError);
      st := st.(sendEnds := st.sendEnds[e := {}]);
      st := st.(openSendChannels := st.openSendChannels - 1);
      assert st == SendClosing(s, e);
      AllOfNobody(history.woken, EndOfChannel);
      if st.openSendChannels == 0 {
        WakeAllReceivers(EndOfChannel);
      }
      SameQueueKept(SendersGone(s, mine), Dropped(s, h, mine), st, history);
    }

    /** `MemoryReceiveChannel.close`; after the last one nobody will take what is still in the queue. */
    method CloseReceive(e: End)
      requires Valid() && e in st.receiveEnds
      modifies this
      ensures Valid()
      ensures e in old(st.closed) ==> st == old(st) && history == old(history)
      ensures e !in old(st.closed) ==>
        && st == ReceiveClosedAt(old(st), e) && history.accepted == old(history.accepted) && history.delivered == old(history.delivered)
        && (st.openReceiveChannels == 0 ==> Queue(st) == [] && st.receiveTasks == [])
        && (st.openReceiveChannels != 0 ==> Queue(st) == Queue(old(st)) && history.dropped == old(history.dropped))
        && history.woken == old(history.woken) + All(old(st.receiveEnds)[e], ClosedResourceError) +
             All(if st.openReceiveChannels == 0 then TasksOf(old(st.sendTasks)) else {}, BrokenResourceError)
    {
      hide SendersOk, ReceiversOk, EndsOk, Kept, WithoutSenders, WithoutTasks, All, TicketsOf, Left;
      if e in st.closed { return; }
      ghost var s, h := st, history;
      SendersRise(s);
      ReceiveClosingOk(s, e);
      ReceiveClosedInv(s, e);
      MineLeftReceiving(s, e);
      QueueParts(s);
      st := st.(closed := st.closed + {e});
      var tasks := Elements(st.receiveEnds[e]);
      WakeReceivers(tasks, ClosedResourceError);
      st := st.(receiveEnds := st.receiveEnds[e := {}]);
      st := st.(openReceiveChannels := st.openReceiveChannels - 1);
      assert st == ReceiveClosing(s, e);
      AllOfNobody(history.woken, BrokenResourceError);
      SameQueueKept(s, h, st, history);
      if st.openReceiveChannels == 0 {
        ghost var d, k := st, history;
        DroppedKept(d, k, TasksOf(d.sendTasks));
        history := history.(dropped := history.dropped + TicketsOf(st.sendTasks, TasksOf(st.sendTasks)));
        WakeAllSenders(BrokenResourceError);
        SameQueueKept(st, Dropped(d, k, TasksOf(d.sendTasks)), st, history);
        ClearedKept(st, history);
        history := history.(dropped := history.dropped + set x | x in st.data :: x.ticket);
        st := st.(data := []);
      }
      QueueParts(st);
    }
  }

  // ---------- small facts ----------

  lemma NewChannel(s: State, h: History, sender: End, receiver: End)
    requires s == State(s.maxBufferSize, [], 1, 1, [], [], map[sender := {}], map[receiver := {}], {}, map[]) && sender != receiver
    requires h == History([], [], {}, map[])
    ensures Inv(s) && Kept(s, h) && Queue(s) == []
  {
    assert Open(s.sendEnds, {}) == {sender} && Open(s.receiveEnds, {}) == {receiver};
  }

  lemma QueueParts(s: State)
    ensures Queue(s) == [] <==> s.data == [] && s.sendTasks == []
    ensures s.sendTasks != [] ==> Queue(s)[0] == (s.data + [s.sendTasks[0].item])[0]
    ensures s.sendTasks != [] ==> Queue(s)[1..] == Queue(s.(data := (s.data + [s.sendTasks[0].item])[1..], sendTasks := s.sendTasks[1..]))
    ensures s.sendTasks == [] ==> Queue(s) == s.data
  {
  }

  lemma SendersRise(s: State)
    requires Inv(s)
    ensures Rising(s.sendTasks)
  {
  }

  lemma AllOfNobody(woken: map<Task, Outcome>, outcome: Outcome)
    ensures woken + All({}, outcome) == woken
  {
  }

  lemma OneMoreOf(woken: map<Task, Outcome>, tasks: set<Task>, outcome: Outcome, t: Task)
    ensures (woken + All(tasks, outcome))[t := outcome] == woken + All(tasks + {t}, outcome)
  {
  }

  lemma LessSleeping(sleepingOn: map<Task, End>, tasks: set<Task>, t: Task)
    ensures (sleepingOn - tasks) - {t} == sleepingOn - (tasks + {t})
  {
  }

  lemma LeftNobody(ends: map<End, set<Task>>)
    ensures Left(ends, {}) == ends
  {
    forall e | e in ends ensures Left(ends, {})[e] == ends[e] {
      assert ends[e] - {} == ends[e];
    }
  }

  function TasksOf(ws: seq<Sender>): set<Task> {
    set w | w in ws :: w.task
  }

  lemma NextSender(ws: seq<Sender>, i: int)
    requires 0 <= i < |ws|
    ensures TasksOf(ws[..i + 1]) == TasksOf(ws[..i]) + {ws[i].task}
  {
    assert ws[..i + 1] == ws[..i] + [ws[i]];
  }

  lemma LeftMore(ends: map<End, set<Task>>, gone: set<Task>, t: Task, e: End)
    requires e in ends && forall d :: d in ends && t in ends[d] ==> d == e
    ensures Left(ends, gone)[e := Left(ends, gone)[e] - {t}] == Left(ends, gone + {t})
  {
    forall d | d in ends ensures (if d == e then ends[d] - gone - {t} else ends[d] - gone) == ends[d] - (gone + {t}) {
      assert d != e ==> t !in ends[d];
    }
  }

  /** The next receiver to be woken is at its endpoint still. */
  lemma ReceiverLeaves(s: State, i: int)
    requires ReceiversOk(s.receiveTasks, s.receiveEnds, s.sleepingOn, s.closed) && 0 <= i < |s.receiveTasks|
    ensures var t, gone := s.receiveTasks[i], ToSet(s.receiveTasks[..i]);
      && t in s.sleepingOn - gone && s.sleepingOn[t] in Left(s.receiveEnds, gone)
      && Left(s.receiveEnds, gone)[s.sleepingOn[t] := Left(s.receiveEnds, gone)[s.sleepingOn[t]] - {t}] ==
           Left(s.receiveEnds, gone + {t})
  {
    var t, gone := s.receiveTasks[i], ToSet(s.receiveTasks[..i]);
    assert t in s.receiveTasks && t !in gone;
    LeftMore(s.receiveEnds, gone, t, s.sleepingOn[t]);
  }

  lemma SenderLeaves(s: State, i: int)
    requires SendersOk(s.sendTasks, s.sendEnds, s.sleepingOn, s.closed) && 0 <= i < |s.sendTasks|
    ensures var t, gone := s.sendTasks[i].task, TasksOf(s.sendTasks[..i]);
      && t in s.sleepingOn - gone && s.sleepingOn[t] in Left(s.sendEnds, gone)
      && Left(s.sendEnds, gone)[s.sleepingOn[t] := Left(s.sendEnds, gone)[s.sleepingOn[t]] - {t}] == Left(s.sendEnds, gone + {t})
  {
    var w := s.sendTasks[i];
    var gone := TasksOf(s.sendTasks[..i]);
    assert w in s.sendTasks;
    RisingApart(s.sendTasks, i);
    LeftMore(s.sendEnds, gone, w.task, s.sleepingOn[w.task]);
  }

  lemma RisingApart(ws: seq<Sender>, i: int)
    requires Rising(ws) && 0 <= i < |ws|
    ensures ws[i].task !in TasksOf(ws[..i])
  {
  }

  lemma OnlyMine(ends: map<End, set<Task>>, e: End)
    requires e in ends && forall d, t {:trigger t in ends[d]} :: d in ends && d != e && t in ends[d] ==> t !in ends[e]
    ensures Left(ends, ends[e]) == ends[e := {}]
  {
    forall d | d in ends ensures ends[d] - ends[e] == ends[e := {}][d] {
      assert forall t :: t in ends[d] ==> d == e || t !in ends[e];
    }
  }

  /** The tasks of one endpoint wait nowhere else. */
  lemma MineLeft(s: State, e: End)
    requires Inv(s) && e in s.sendEnds
    ensures Left(s.sendEnds, s.sendEnds[e]) == s.sendEnds[e := {}]
  {
    OneSide(s);
    OnlyMine(s.sendEnds, e);
  }

  lemma MineLeftReceiving(s: State, e: End)
    requires Inv(s) && e in s.receiveEnds
    ensures Left(s.receiveEnds, s.receiveEnds[e]) == s.receiveEnds[e := {}]
  {
    OneSide(s);
    OnlyMine(s.receiveEnds, e);
  }
}
