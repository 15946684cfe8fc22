/**
 * The sharing of one SSL object and one transport by many tasks: `SSLStream._retry` of `trio/_ssl.py`,
 * with the one handshake in front, as a machine whose steps are what a task does between two awaits.
 * What the SSL object answers and produces is arbitrary; the transport does not fail.
 */
module SslRetry {
  import opened Collections
  import opened Options

  type Task = int
  type Byte = int

  datatype Op = Handshake | Other

  /** Where a task is. `finished` is the local of that name. */
  datatype At =
    | Out                                                // not in `_retry`
    | Calling(op: Op)                                    // about to call the SSL object
    | InLine(op: Op, chunk: seq<Byte>, finished: bool)   // has bytes to send, and asked for the send lock
    | Sending(op: Op, finished: bool)                    // in `transport_stream.send_all`
    | ToReceive(op: Op, count: nat)                      // asked for the receive lock, having seen `count`
    | Receiving(op: Op, count: nat)                      // in `transport_stream.receive_some`
    | Finishing(op: Op)                                  // has nothing left but to return
    | WaitInLine                                         // `wait_send_all_might_not_block`, at the send lock

  datatype Once = NotStarted | Started(t: Task) | Done

  datatype Lock = Lock(owner: Option<Task>, queue: seq<Task>)

  datatype State = State(
    serverTls13: bool,                // server side, and the version is TLSv1.3
    handshook: Once,
    at: map<Task, At>,
    sendLock: Lock,
    recvLock: Lock,
    delayed: Option<seq<Byte>>,       // `_delayed_outgoing`
    recvCount: nat,                   // `_inner_recv_count`
    produced: seq<Byte>,              // all that was read from the outgoing BIO
    wire: seq<Byte>,                  // all that was handed to `transport_stream.send_all`
    seen: map<Task, nat>)             // how many receives had been completed at a task's last SSL call

  datatype Step =
    | Begin(t: Task, op: Op)
    | Call(t: Task, produced: seq<Byte>, wantRead: bool)
    | StartSend(t: Task)
    | EndSend(t: Task)
    | CheckCount(t: Task)
    | EndReceive(t: Task)
    | Return(t: Task)
    | BeginWait(t: Task)
    | EndWait(t: Task)

  predicate Enabled(s: State, step: Step) {
    match step
    case Begin(t, op) => (t in s.at ==> s.at[t].Out?) && if op == Handshake then s.handshook.NotStarted? else s.handshook.Done?
    case Call(t, _, _) => t in s.at && s.at[t].Calling?
    case StartSend(t) => t in s.at && s.at[t].InLine? && s.sendLock.owner == Some(t)
    case EndSend(t) => t in s.at && s.at[t].Sending?
    case CheckCount(t) => t in s.at && s.at[t].ToReceive? && s.recvLock.owner == Some(t)
    case EndReceive(t) => t in s.at && s.at[t].Receiving?
    case Return(t) => t in s.at && s.at[t].Finishing?
    case BeginWait(t) => t in s.at ==> s.at[t].Out?
    case EndWait(t) => t in s.at && s.at[t].WaitInLine? && s.sendLock.owner == Some(t)
  }

  /** `acquire`, as far as the order of tasks goes. */
  function Asked(l: Lock, t: Task): Lock {
    if l.owner.None? && l.queue == [] then l.(owner := Some(t)) else l.(queue := l.queue + [t])
  }

  function Released(l: Lock): Lock {
    if l.queue == [] then l.(owner := None) else Lock(Some(l.queue[0]), l.queue[1..])
  }

  function Held(s: State): seq<Byte> {
    if s.delayed.Some? then s.delayed.value else []
  }

  /** A task goes on after what it had to do: it returns, or tries the SSL object again. */
  function Next(op: Op, finished: bool): At {
    if finished then Finishing(op) else Calling(op)
  }

  /** The call of the SSL object and everything up to the next await. */
  function AfterCall(s: State, t: Task, produced: seq<Byte>, wantRead: bool): State
    requires Enabled(s, Call(t, produced, wantRead))
  {
    var op := s.at[t].op;
    var s1 := s.(produced := s.produced + produced, seen := s.seen[t := s.recvCount]);
    if op == Handshake && !wantRead && s.serverTls13 then s1.(delayed := Some(produced), at := s.at[t := Finishing(op)])
    else if produced != [] then s1.(at := s.at[t := InLine(op, produced, !wantRead)], sendLock := Asked(s.sendLock, t))
    else if wantRead then s1.(at := s.at[t := ToReceive(op, s.recvCount)], recvLock := Asked(s.recvLock, t))
    else s1.(at := s.at[t := Finishing(op)])
  }

  function After(s: State, step: Step): State
    requires Enabled(s, step)
  {
    match step
    case Begin(t, op) => s.(at := s.at[t := Calling(op)], handshook := if op == Handshake then Started(t) else s.handshook)
    case Call(t, produced, wantRead) => AfterCall(s, t, produced, wantRead)
    case StartSend(t) =>
      s.(at := s.at[t := Sending(s.at[t].op, s.at[t].finished)], wire := s.wire + Held(s) + s.at[t].chunk, delayed := None)
    case EndSend(t) => s.(at := s.at[t := Next(s.at[t].op, s.at[t].finished)], sendLock := Released(s.sendLock))
    case CheckCount(t) =>
      if s.at[t].count == s.recvCount then s.(at := s.at[t := Receiving(s.at[t].op, s.at[t].count)])
      else s.(at := s.at[t := Calling(s.at[t].op)], recvLock := Released(s.recvLock))
    case EndReceive(t) =>
      s.(at := s.at[t := Calling(s.at[t].op)], recvCount := s.recvCount + 1, recvLock := Released(s.recvLock))
    case Return(t) => s.(at := s.at[t := Out], handshook := if s.at[t].op == Handshake then Done else s.handshook)
    case BeginWait(t) => s.(at := s.at[t := WaitInLine], sendLock := Asked(s.sendLock, t))
    case EndWait(t) => s.(at := s.at[t := Out], sendLock := Released(s.sendLock))
  }

  // ---------- invariant ----------

  /** The tasks that asked for a lock and have not given it back, in the order of asking. */
  function Line(l: Lock): seq<Task> {
    (if l.owner.Some? then [l.owner.value] else []) + l.queue
  }

  predicate LockOk(l: Lock) {
    Distinct(Line(l)) && (l.queue != [] ==> l.owner.Some?)
  }

  predicate InSendLine(at: map<Task, At>, t: Task) {
    t in at && (at[t].InLine? || at[t].Sending? || at[t].WaitInLine?)
  }

  predicate InRecvLine(at: map<Task, At>, t: Task) {
    t in at && (at[t].ToReceive? || at[t].Receiving?)
  }

  /** The bytes that a task in the line has yet to send. */
  function Chunk(at: map<Task, At>, t: Task): seq<Byte> {
    if t in at && at[t].InLine? then at[t].chunk else []
  }

  function Pending(at: map<Task, At>, line: seq<Task>): seq<Byte> {
    if line == [] then [] else Chunk(at, line[0]) + Pending(at, line[1..])
  }

  /** What was sent, what is held back and what is in line: in this order, it is what the SSL object produced. */
  ghost predicate InOrder(s: State) {
    s.wire + Held(s) + Pending(s.at, Line(s.sendLock)) == s.produced
  }

  ghost predicate SendLineOk(l: Lock, at: map<Task, At>) {
    && LockOk(l)
    && (forall t :: t in Line(l) <==> InSendLine(at, t))
    && (forall t :: t in at && at[t].Sending? ==> l.owner == Some(t))
  }

  ghost predicate RecvLineOk(l: Lock, at: map<Task, At>) {
    && LockOk(l)
    && (forall t :: t in Line(l) <==> InRecvLine(at, t))
    && (forall t :: t in at && at[t].Receiving? ==> l.owner == Some(t))
  }

  ghost predicate LinesOk(s: State) {
    SendLineOk(s.sendLock, s.at) && RecvLineOk(s.recvLock, s.at)
  }

  /** Before the handshake is done only its own task is in `_retry`, and nothing is held back. */
  ghost predicate HandshakeOk(s: State) {
    && (forall t :: t in s.at && !s.at[t].Out? && !s.at[t].WaitInLine? ==>
          if s.at[t].op == Handshake then s.handshook == Started(t) else s.handshook == Done)
    && (s.delayed.Some? ==> s.handshook.Done? || (s.handshook.Started? && s.handshook.t in s.at && s.at[s.handshook.t] == Finishing(Handshake)))
  }

  ghost predicate CountsOk(s: State) {
    && (forall t :: t in s.at && s.at[t].ToReceive? ==> t in s.seen && s.seen[t] == s.at[t].count)
    && (forall t :: t in s.at && s.at[t].Receiving? ==> t in s.seen && s.seen[t] == s.recvCount)
  }

  ghost predicate Inv(s: State) {
    InOrder(s) && LinesOk(s) && HandshakeOk(s) && CountsOk(s)
  }

  // ---------- lines ----------

  lemma AskedLine(l: Lock, t: Task)
    requires LockOk(l) && t !in Line(l)
    ensures Line(Asked(l, t)) == Line(l) + [t] && LockOk(Asked(l, t))
  {
  }

  lemma ReleasedLine(l: Lock, t: Task)
    requires LockOk(l) && l.owner == Some(t)
    ensures Line(l) == [t] + Line(Released(l)) && LockOk(Released(l)) && t !in Line(Released(l))
  {
    assert Line(l)[0] == t && Line(l)[1..] == l.queue;
    assert forall i :: 0 < i < |Line(l)| ==> Line(l)[i] != Line(l)[0];
    assert Line(Released(l)) == l.queue;
  }

  lemma {:induction false} PendingSame(at: map<Task, At>, at2: map<Task, At>, line: seq<Task>)
    requires forall t :: t in line ==> Chunk(at, t) == Chunk(at2, t)
    ensures Pending(at, line) == Pending(at2, line)
  {
    if line != [] {
      assert line[0] in line;
      PendingSame(at, at2, line[1..]);
    }
  }

  lemma {:induction false} PendingAppend(at: map<Task, At>, line: seq<Task>, t: Task)
    ensures Pending(at, line + [t]) == Pending(at, line) + Chunk(at, t)
  {
    if line == [] {
      assert [t][1..] == [];
    } else {
      assert (line + [t])[1..] == line[1..] + [t];
      PendingAppend(at, line[1..], t);
    }
  }

  lemma {:induction false} NothingPending(at: map<Task, At>, line: seq<Task>)
    requires forall t :: t in line ==> Chunk(at, t) == []
    ensures Pending(at, line) == []
  {
    if line != [] {
      assert line[0] in line;
      NothingPending(at, line[1..]);
    }
  }

  /** A task moves without joining or leaving the line. */
  lemma SendLineSame(l: Lock, at: map<Task, At>, t: Task, here: At)
    requires SendLineOk(l, at) && InSendLine(at, t) == InSendLine(at[t := here], t) && (here.Sending? ==> l.owner == Some(t))
    ensures SendLineOk(l, at[t := here])
  {
    var at2 := at[t := here];
    forall u ensures InSendLine(at, u) == InSendLine(at2, u) {
      assert u != t ==> (u in at2 <==> u in at);
    }
  }

  lemma RecvLineSame(l: Lock, at: map<Task, At>, t: Task, here: At)
    requires RecvLineOk(l, at) && InRecvLine(at, t) == InRecvLine(at[t := here], t) && (here.Receiving? ==> l.owner == Some(t))
    ensures RecvLineOk(l, at[t := here])
  {
    var at2 := at[t := here];
    forall u ensures InRecvLine(at, u) == InRecvLine(at2, u) {
      assert u != t ==> (u in at2 <==> u in at);
    }
  }

  lemma SendLineJoined(l: Lock, at: map<Task, At>, t: Task, here: At)
    requires SendLineOk(l, at) && !InSendLine(at, t) && (here.InLine? || here.WaitInLine?)
    ensures SendLineOk(Asked(l, t), at[t := here])
  {
    AskedLine(l, t);
    forall u | u != t ensures InSendLine(at, u) == InSendLine(at[t := here], u) {
    }
  }

  lemma RecvLineJoined(l: Lock, at: map<Task, At>, t: Task, here: At)
    requires RecvLineOk(l, at) && !InRecvLine(at, t) && here.ToReceive?
    ensures RecvLineOk(Asked(l, t), at[t := here])
  {
    AskedLine(l, t);
    forall u | u != t ensures InRecvLine(at, u) == InRecvLine(at[t := here], u) {
    }
  }

  lemma SendLineLeft(l: Lock, at: map<Task, At>, t: Task, here: At)
    requires SendLineOk(l, at) && l.owner == Some(t) && !InSendLine(at[t := here], t)
    ensures SendLineOk(Released(l), at[t := here])
  {
    ReleasedLine(l, t);
    assert forall u :: u in Line(l) <==> u == t || u in Line(Released(l));
    forall u | u != t ensures InSendLine(at, u) == InSendLine(at[t := here], u) {
    }
  }

  lemma RecvLineLeft(l: Lock, at: map<Task, At>, t: Task, here: At)
    requires RecvLineOk(l, at) && l.owner == Some(t) && !InRecvLine(at[t := here], t)
    ensures RecvLineOk(Released(l), at[t := here])
  {
    ReleasedLine(l, t);
    assert forall u :: u in Line(l) <==> u == t || u in Line(Released(l));
    forall u | u != t ensures InRecvLine(at, u) == InRecvLine(at[t := here], u) {
    }
  }

  // ---------- what is kept ----------

  lemma LinesKept(s: State, step: Step)
    requires LinesOk(s) && Enabled(s, step)
    ensures LinesOk(After(s, step))
  {
    hide SendLineOk, RecvLineOk, Asked, Released;
    var d := After(s, step);
    var t := step.t;
    var here := d.at[t];
    OwnersInLine(s, t);
    if here.InLine? || here.WaitInLine? {
      SendLineJoined(s.sendLock, s.at, t, here);
    } else if step.EndSend? || step.EndWait? {
      SendLineLeft(s.sendLock, s.at, t, here);
    } else {
      SendLineSame(s.sendLock, s.at, t, here);
    }
    if here.ToReceive? {
      RecvLineJoined(s.recvLock, s.at, t, here);
    } else if step.EndReceive? || (step.CheckCount? && !here.Receiving?) {
      RecvLineLeft(s.recvLock, s.at, t, here);
    } else {
      RecvLineSame(s.recvLock, s.at, t, here);
    }
  }

  lemma OwnersInLine(s: State, t: Task)
    requires LinesOk(s)
    ensures t in s.at && s.at[t].Sending? ==> s.sendLock.owner == Some(t)
    ensures t in s.at && s.at[t].Receiving? ==> s.recvLock.owner == Some(t)
  {
  }

  /** A task that is not in the send line moves elsewhere. */
  lemma Elsewhere(s: State, t: Task, here: At)
    requires LinesOk(s) && !InSendLine(s.at, t) && !here.InLine?
    ensures Pending(s.at[t := here], Line(s.sendLock)) == Pending(s.at, Line(s.sendLock))
  {
    PendingSame(s.at, s.at[t := here], Line(s.sendLock));
  }

  /** A task joins the line with its chunk. */
  lemma Joins(s: State, t: Task, here: At)
    requires LinesOk(s) && !InSendLine(s.at, t)
    ensures Pending(s.at[t := here], Line(Asked(s.sendLock, t))) == Pending(s.at, Line(s.sendLock)) + Chunk(s.at[t := here], t)
  {
    var at := s.at[t := here];
    AskedLine(s.sendLock, t);
    PendingAppend(at, Line(s.sendLock), t);
    PendingSame(s.at, at, Line(s.sendLock));
  }

  /** The first task of the line has sent its chunk, or had none. */
  lemma FirstServed(s: State, t: Task, here: At)
    requires LinesOk(s) && s.sendLock.owner == Some(t) && !here.InLine?
    ensures Pending(s.at, Line(s.sendLock)) == Chunk(s.at, t) + Pending(s.at[t := here], Line(s.sendLock))
    ensures Pending(s.at[t := here], Line(s.sendLock)) == Pending(s.at[t := here], Line(Released(s.sendLock)))
  {
    hide Pending, Chunk, Line, Released, InSendLine;
    var rest, at := Line(Released(s.sendLock)), s.at[t := here];
    ReleasedLine(s.sendLock, t);
    PendingFront(s.at, t, rest);
    PendingFront(at, t, rest);
    ChunkOf(at, t);
    OthersSame(s.at, at, t, rest);
  }

  lemma PendingFront(at: map<Task, At>, t: Task, rest: seq<Task>)
    ensures Pending(at, [t] + rest) == Chunk(at, t) + Pending(at, rest)
  {
    assert ([t] + rest)[1..] == rest;
  }

  lemma OthersSame(at: map<Task, At>, at2: map<Task, At>, t: Task, line: seq<Task>)
    requires t !in line && t in at2 && at2 == at[t := at2[t]]
    ensures Pending(at, line) == Pending(at2, line)
  {
    PendingSame(at, at2, line);
  }

  lemma OrderKept(s: State, step: Step)
    requires Inv(s) && Enabled(s, step)
    ensures InOrder(After(s, step))
  {
    hide SendLineOk, RecvLineOk, Asked, Released, Line, Pending, Chunk, HandshakeOk, CountsOk;
    var d := After(s, step);
    match step {
      case Begin(t, op) => Elsewhere(s, t, Calling(op));
      case Call(t, produced, wantRead) => CallOrder(s, t, produced, wantRead);
      case CheckCount(t) => Elsewhere(s, t, d.at[t]);
      case EndReceive(t) => Elsewhere(s, t, d.at[t]);
      case Return(t) => Elsewhere(s, t, Out);
      case _ => SendOrder(s, step);
    }
  }

  /** The steps of tasks in the send line. */
  lemma SendOrder(s: State, step: Step)
    requires InOrder(s) && LinesOk(s) && Enabled(s, step) && (step.StartSend? || step.EndSend? || step.BeginWait? || step.EndWait?)
    ensures InOrder(After(s, step))
  {
    hide SendLineOk, RecvLineOk, Asked, Released, Line, Pending, Chunk;
    var d := After(s, step);
    match step {
      case StartSend(t) => FirstServed(s, t, d.at[t]); ChunkOf(s.at, t);
      case EndSend(t) => SenderOwns(s, t); FirstServed(s, t, d.at[t]); ChunkOf(s.at, t);
      case BeginWait(t) => Joins(s, t, WaitInLine); ChunkOf(d.at, t);
      case EndWait(t) => FirstServed(s, t, Out); ChunkOf(s.at, t);
    }
  }

  lemma SenderOwns(s: State, t: Task)
    requires LinesOk(s) && t in s.at && s.at[t].Sending?
    ensures s.sendLock.owner == Some(t)
  {
  }

  lemma ChunkOf(at: map<Task, At>, t: Task)
    ensures Chunk(at, t) == if t in at && at[t].InLine? then at[t].chunk else []
  {
  }

  lemma CallOrder(s: State, t: Task, produced: seq<Byte>, wantRead: bool)
    requires Inv(s) && Enabled(s, Call(t, produced, wantRead))
    ensures InOrder(AfterCall(s, t, produced, wantRead))
  {
    hide SendLineOk, RecvLineOk, Asked, Released, Line, Pending, Chunk;
    var d := AfterCall(s, t, produced, wantRead);
    if s.at[t].op == Handshake && !wantRead && s.serverTls13 {
      HandshakeAlone(s, t);
      NothingPending(s.at, Line(s.sendLock));
      Elsewhere(s, t, d.at[t]);
    } else if produced != [] {
      Joins(s, t, d.at[t]);
      ChunkOf(d.at, t);
    } else {
      Elsewhere(s, t, d.at[t]);
    }
  }

  /** While the handshake calls the SSL object, nobody has bytes in line and none are held back: the assertion in `_retry` holds. */
  lemma HandshakeAlone(s: State, t: Task)
    requires Inv(s) && t in s.at && s.at[t] == Calling(Handshake)
    ensures s.delayed.None? && forall u :: u in Line(s.sendLock) ==> Chunk(s.at, u) == []
  {
    forall u | u in Line(s.sendLock) ensures Chunk(s.at, u) == [] {
      assert InSendLine(s.at, u);
    }
  }

  lemma HandshakeKept(s: State, step: Step)
    requires Inv(s) && Enabled(s, step)
    ensures HandshakeOk(After(s, step))
  {
    hide InOrder, SendLineOk, RecvLineOk, Asked, Released;
  }

  lemma CountsKept(s: State, step: Step)
    requires Inv(s) && Enabled(s, step)
    ensures CountsOk(After(s, step))
  {
    hide InOrder, LinesOk, HandshakeOk, After, Enabled, CountsOk;
    match step
    case EndReceive(t) => EndReceiveCounts(s, t);
    case Call(t, produced, wantRead) => CallCounts(s, t, produced, wantRead);
    case _ => OtherCounts(s, step);
  }

  /** The count goes up while nobody else is receiving. */
  lemma EndReceiveCounts(s: State, t: Task)
    requires LinesOk(s) && CountsOk(s) && Enabled(s, EndReceive(t))
    ensures CountsOk(After(s, EndReceive(t)))
  {
    hide LockOk, Line, Asked, Released, InRecvLine, InSendLine, SendLineOk;
    forall u | u in s.at && s.at[u].Receiving? ensures u == t {
      assert s.recvLock.owner == Some(u);
    }
  }

  lemma CallCounts(s: State, t: Task, produced: seq<Byte>, wantRead: bool)
    requires CountsOk(s) && Enabled(s, Call(t, produced, wantRead))
    ensures CountsOk(After(s, Call(t, produced, wantRead)))
  {
    hide Asked;
  }

  lemma OtherCounts(s: State, step: Step)
    requires CountsOk(s) && Enabled(s, step) && !step.EndReceive? && !step.Call?
    ensures CountsOk(After(s, step))
  {
    hide Asked, Released;
  }

  lemma StepKeeps(s: State, step: Step)
    requires Inv(s) && Enabled(s, step)
    ensures Inv(After(s, step))
  {
    hide InOrder, LinesOk, HandshakeOk, CountsOk, After, Enabled;
    OrderKept(s, step);
    LinesKept(s, step);
    HandshakeKept(s, step);
    CountsKept(s, step);
  }

  // ---------- runs ----------

  function Start(serverTls13: bool): State {
    State(serverTls13, NotStarted, map[], Lock(None, []), Lock(None, []), None, 0, [], [], map[])
  }

  predicate Possible(serverTls13: bool, steps: seq<Step>)
    decreases |steps|, 0
  {
    steps == [] || (Possible(serverTls13, steps[..|steps| - 1]) &&
      Enabled(Reached(serverTls13, steps[..|steps| - 1]), steps[|steps| - 1]))
  }

  function Reached(serverTls13: bool, steps: seq<Step>): State
    requires Possible(serverTls13, steps)
    decreases |steps|, 1
  {
    if steps == [] then Start(serverTls13) else After(Reached(serverTls13, steps[..|steps| - 1]), steps[|steps| - 1])
  }

  lemma {:induction false} AlwaysInv(serverTls13: bool, steps: seq<Step>)
    requires Possible(serverTls13, steps)
    ensures Inv(Reached(serverTls13, steps))
  {
    if steps != [] {
      AlwaysInv(serverTls13, steps[..|steps| - 1]);
      StepKeeps(Reached(serverTls13, steps[..|steps| - 1]), steps[|steps| - 1]);
    }
  }

  /**
   * In every interleaving: what has been handed to the transport is a beginning of what the SSL object
   * produced, and the held-back bytes come next; all of it has been, when nobody is in line and nothing
   * is held back; at most one task at a time is in the transport's send and in its receive; and a task
   * in the transport's receive made its last SSL call since the last completed one.
   */
  lemma WireInOrder(serverTls13: bool, steps: seq<Step>)
    requires Possible(serverTls13, steps)
    ensures var s := Reached(serverTls13, steps);
      && s.wire + Held(s) <= s.produced
      && (s.delayed.None? && (forall t :: t in s.at ==> !s.at[t].InLine?) ==> s.wire == s.produced)
      && (forall t, u :: t in s.at && u in s.at && s.at[t].Sending? && s.at[u].Sending? ==> t == u)
      && (forall t, u :: t in s.at && u in s.at && s.at[t].Receiving? && s.at[u].Receiving? ==> t == u)
      && (forall t :: t in s.at && s.at[t].Receiving? ==> t in s.seen && s.seen[t] == s.recvCount)
  {
    var s := Reached(serverTls13, steps);
    AlwaysInv(serverTls13, steps);
    if forall t :: t in s.at ==> !s.at[t].InLine? {
      NothingPending(s.at, Line(s.sendLock));
    }
  }
}
