/** Decoding a volley, and why packing it for another MTU does not change it. */
module DtlsReassembly {
  import opened ByteStrings
  import opened DtlsRecords
  import opened DtlsVolley
  import opened DtlsPackets

  /** The messages so far, and where in the list the message with a given number is. */
  datatype State = State(messages: seq<Message>, bySeq: map<nat, nat>)

  const NOTHING := State([], map[])

  ghost predicate Indexed(st: State) {
    forall k :: k in st.bySeq ==> st.bySeq[k] < |st.messages| && st.messages[st.bySeq[k]].Handshake? && st.messages[st.bySeq[k]].msgSeq == k
  }

  function Zeros(n: nat): Bytes {
    seq(n, _ => 0)
  }

  /** `b[from : to] = part`, on a bytearray. */
  function Spliced(b: Bytes, from: nat, to: nat, part: Bytes): Bytes
    requires from <= to
  {
    var lo := if from < |b| then from else |b|;
    var hi := if to < |b| then to else |b|;
    b[..lo] + part + b[hi..]
  }

  function WithMessage(st: State, version: Bytes, h: Fragment): State {
    if h.msgSeq in st.bySeq then st
    else State(st.messages + [Handshake(version, h.msgType, h.msgSeq, Zeros(h.msgLen))], st.bySeq[h.msgSeq := |st.messages|])
  }

  function DecodeHandshake(st: State, version: Bytes, h: Fragment): (r: Result<State>)
    requires Indexed(st)
    ensures r.Ok? ==> Indexed(r.value)
  {
    if h.msgType !in HANDSHAKE_TYPES then Err(ValueError)
    else
      var st1 := WithMessage(st, version, h);
      var k := st1.bySeq[h.msgSeq];
      var m := st1.messages[k];
      if m.msgType != h.msgType || |m.body| != h.msgLen then Err(AssertionError)
      else
        Ok(st1.(messages := st1.messages[k := m.(body := Spliced(m.body, h.fragOffset, h.fragOffset + h.fragLen, h.frag))]))
  }

  function DecodeOne(st: State, record: Record): (r: Result<State>)
    requires Indexed(st)
    ensures r.Ok? ==> Indexed(r.value)
  {
    if Epoch(record.epochSeqno) != 0 then Ok(st.(messages := st.messages + [Opaque(record)]))
    else if record.contentType == CHANGE_CIPHER_SPEC || record.contentType == ALERT then
      Ok(st.(messages := st.messages + [Pseudo(record.version, record.contentType, record.payload)]))
    else if record.contentType != HANDSHAKE then Err(AssertionError)
    else match DecodeFragment(record.payload)
      case Err(e) => Err(e)
      case Ok(h) => DecodeHandshake(st, record.version, h)
  }

  function DecodeRecords(rs: seq<Record>): (r: Result<State>)
    ensures r.Ok? ==> Indexed(r.value)
  {
    if rs == [] then Ok(NOTHING)
    else match DecodeRecords(rs[..|rs| - 1])
      case Err(e) => Err(e)
      case Ok(st) => DecodeOne(st, rs[|rs| - 1])
  }

  function DecodeVolley(volley: Bytes): Result<seq<Message>> {
    var (records, ok) := ParseRecords(volley);
    match DecodeRecords(records)
    case Err(e) => Err(e)
    case Ok(st) => if ok then Ok(st.messages) else Err(BadPacket)
  }

  lemma {:induction false} FailedBefore(rs: seq<Record>, n: nat)
    requires n <= |rs| && DecodeRecords(rs[..n]).Err?
    ensures DecodeRecords(rs) == DecodeRecords(rs[..n])
    decreases |rs|
  {
    if n == |rs| {
      assert rs[..n] == rs;
    } else {
      var less := rs[..|rs| - 1];
      assert less[..n] == rs[..n];
      FailedBefore(less, n);
    }
  }

  lemma DecodedNext(rs: seq<Record>, i: nat)
    requires i < |rs|
    ensures DecodeRecords(rs[..i]).Ok? ==> DecodeRecords(rs[..i + 1]) == DecodeOne(DecodeRecords(rs[..i]).value, rs[i])
  {
    assert rs[..i + 1][..i] == rs[..i];
  }

  lemma NothingDecoded()
    ensures DecodeRecords([]) == Ok(NOTHING)
  {
  }

  /** `decode_volley_trusted`, with its list of messages and its dictionary of those that are not complete yet. */
  method DecodeVolleyTrusted(volley: Bytes) returns (r: Result<seq<Message>>)
    ensures r == DecodeVolley(volley)
  {
    hide DecodeRecords, DecodeFragment, Spliced, Zeros, ParseRecords;
    NothingDecoded();
    var messages: seq<Message> := [];
    var messagesBySeq: map<nat, nat> := map[];
    var records, whole := RecordsUntrusted(volley);
    for i := 0 to |records|
      invariant DecodeRecords(records[..i]) == Ok(State(messages, messagesBySeq)) && Indexed(State(messages, messagesBySeq))
    {
      ghost var st := State(messages, messagesBySeq);
      var record := records[i];
      DecodedNext(records, i);
      if Epoch(record.epochSeqno) != 0 {
        messages := messages + [Opaque(record)];
      } else if record.contentType == CHANGE_CIPHER_SPEC || record.contentType == ALERT {
        messages := messages + [Pseudo(record.version, record.contentType, record.payload)];
      } else {
        if record.contentType != HANDSHAKE {
          FailedBefore(records, i + 1);
          return Err(AssertionError);
        }
        var decoded := DecodeFragment(record.payload);
        if decoded.Err? {
          FailedBefore(records, i + 1);
          return Err(decoded.failure);
        }
        var h := decoded.value;
        if h.msgType !in HANDSHAKE_TYPES {
          FailedBefore(records, i + 1);
          return Err(ValueError);
        }
        if h.msgSeq !in messagesBySeq {
          messagesBySeq := messagesBySeq[h.msgSeq := |messages|];
          messages := messages + [Handshake(record.version, h.msgType, h.msgSeq, Zeros(h.msgLen))];
        }
        var k := messagesBySeq[h.msgSeq];
        var m := messages[k];
        if m.msgType != h.msgType || |m.body| != h.msgLen {
          FailedBefore(records, i + 1);
          return Err(AssertionError);
        }
        messages := messages[k := m.(body := Spliced(m.body, h.fragOffset, h.fragOffset + h.fragLen, h.frag))];
      }
    }
    assert records[..|records|] == records;
    r := if whole then Ok(messages) else Err(BadPacket);
  }

  // ---------- the round trip ----------

  /** What decoding relies on, besides fitting the headers; openssl's volleys have it. */
  predicate Decodable(m: Message) {
    match m
    case Opaque(r) => Epoch(r.epochSeqno) != 0
    case Pseudo(_, contentType, _) => contentType == CHANGE_CIPHER_SPEC || contentType == ALERT
    case Handshake(_, msgType, _, _) => msgType in HANDSHAKE_TYPES
  }

  predicate DistinctNumbers(ms: seq<Message>) {
    forall i, j :: 0 <= i < j < |ms| && ms[i].Handshake? && ms[j].Handshake? ==> ms[i].msgSeq != ms[j].msgSeq
  }

  function IndexOf(ms: seq<Message>): map<nat, nat> {
    if ms == [] then map[]
    else
      var m := ms[|ms| - 1];
      if m.Handshake? then IndexOf(ms[..|ms| - 1])[m.msgSeq := |ms| - 1] else IndexOf(ms[..|ms| - 1])
  }

  /** The state in which exactly these messages are complete. */
  function Complete(ms: seq<Message>): State {
    State(ms, IndexOf(ms))
  }

  lemma {:induction false} NotIndexed(ms: seq<Message>, k: nat)
    requires forall i :: 0 <= i < |ms| && ms[i].Handshake? ==> ms[i].msgSeq != k
    ensures k !in IndexOf(ms)
  {
    if ms != [] {
      NotIndexed(ms[..|ms| - 1], k);
    }
  }

  lemma CompleteAppend(ms: seq<Message>, m: Message)
    ensures Complete(ms + [m]) == State(ms + [m], if m.Handshake? then IndexOf(ms)[m.msgSeq := |ms|] else IndexOf(ms))
  {
    assert (ms + [m])[..|ms|] == ms;
  }

  /** The last message, of which only the first `offset` bytes have arrived. */
  function Partial(m: Message, offset: nat): Message
    requires m.Handshake? && offset <= |m.body|
  {
    m.(body := m.body[..offset] + Zeros(|m.body| - offset))
  }

  function Arriving(ms: seq<Message>, m: Message, offset: nat): State
    requires m.Handshake? && offset <= |m.body|
  {
    State(ms + [Partial(m, offset)], IndexOf(ms)[m.msgSeq := |ms|])
  }

  /** One more fragment arrives. */
  lemma FragmentArrives(ms: seq<Message>, m: Message, offset: nat, length: nat, recordSeq: nat, some: bool)
    requires m.Handshake? && MessageFits(m) && Decodable(m) && offset + length <= |m.body| && recordSeq < EPOCH_STEP
    requires m.msgSeq !in IndexOf(ms) && (!some ==> offset == 0)
    requires Indexed(Complete(ms))
    ensures var st := if some then Arriving(ms, m, offset) else Complete(ms);
      Indexed(st) && DecodeOne(st, FragmentRecord(m, offset, length, recordSeq)) == Ok(Arriving(ms, m, offset + length))
  {
    hide EncodeFragment, DecodeFragment, Fits, IndexOf;
    var st := if some then Arriving(ms, m, offset) else Complete(ms);
    var h := Fragment(m.msgType, |m.body|, m.msgSeq, offset, length, m.body[offset..offset + length]);
    FragmentHeaderFits(m, offset, length);
    FragmentRoundTrip(h);
    assert Indexed(st);
    var st1 := WithMessage(st, m.version, h);
    assert Zeros(|m.body|) == m.body[..0] + Zeros(|m.body| - 0);
    assert st1 == Arriving(ms, m, offset);
    SplicedNext(m.body, offset, length);
    assert st1.messages[|ms| := Partial(m, offset + length)] == ms + [Partial(m, offset + length)];
  }

  lemma FragmentHeaderFits(m: Message, offset: nat, length: nat)
    requires m.Handshake? && MessageFits(m) && offset + length <= |m.body|
    ensures FragmentFits(Fragment(m.msgType, |m.body|, m.msgSeq, offset, length, m.body[offset..offset + length]))
  {
    FitsBounds(|m.body|);
    FitsBounds(offset);
    FitsBounds(length);
  }

  lemma SplicedNext(body: Bytes, offset: nat, length: nat)
    requires offset + length <= |body|
    ensures Spliced(body[..offset] + Zeros(|body| - offset), offset, offset + length, body[offset..offset + length]) ==
      body[..offset + length] + Zeros(|body| - (offset + length))
  {
    var b := body[..offset] + Zeros(|body| - offset);
    assert b[..offset] == body[..offset];
    assert b[offset + length..] == Zeros(|body| - (offset + length));
  }

  lemma DecodeAppend(rs: seq<Record>, r: Record)
    ensures DecodeRecords(rs + [r]) == match DecodeRecords(rs) case Err(e) => Err(e) case Ok(st) => DecodeOne(st, r)
  {
    assert (rs + [r])[..|rs|] == rs;
  }

  lemma {:induction false} FragmentsDecode(o: Out, m: Message, offset: nat, some: bool, mtu: int, ms: seq<Message>)
    requires m.Handshake? && MessageFits(m) && Decodable(m) && offset <= |m.body| && Encodable(m, mtu)
    requires m.msgSeq !in IndexOf(ms) && (!some ==> offset == 0) && Indexed(Complete(ms))
    requires EncodeFragments(o, m, offset, some, mtu).recordSeq <= EPOCH_STEP
    requires DecodeRecords(o.records) == Ok(if some then Arriving(ms, m, offset) else Complete(ms))
    ensures DecodeRecords(EncodeFragments(o, m, offset, some, mtu).records) == Ok(Arriving(ms, m, |m.body|))
    decreases |m.body| - offset, !some, |o.packet|
  {
    hide MessageFits, Arriving, Complete, Indexed, EncodeRecord, FragmentRecord, DecodeOne, IndexOf;
    if offset != |m.body| || !some {
      var (o1, length, wrote) := FragmentStep(o, m, offset, mtu);
      FragmentsNumbers(o1, m, offset + length, some || wrote, mtu);
      if wrote {
        FragmentArrives(ms, m, offset, length, o.recordSeq, some);
        DecodeAppend(o.records, FragmentRecord(m, offset, length, o.recordSeq));
      }
      FragmentsDecode(o1, m, offset + length, some || wrote, mtu, ms);
    }
  }

  /** A record that is a message by itself. */
  lemma WholeDecodes(o: Out, ms: seq<Message>, m: Message, r: Record, mtu: int)
    requires DecodeRecords(o.records) == Ok(Complete(ms)) && !m.Handshake? && Decodable(m)
    requires match m
             case Opaque(record) => r == record
             case Pseudo(version, contentType, payload) => r == Record(contentType, version, o.recordSeq, payload) && o.recordSeq < EPOCH_STEP
             case Handshake(_, _, _, _) => true
    ensures DecodeRecords(EncodeWhole(o, r, mtu).records) == Ok(Complete(ms + [m]))
  {
    hide EncodeRecord, DecodeHandshake;
    CompleteAppend(ms, m);
    DecodeAppend(o.records, r);
  }

  lemma MessageDecodes(o: Out, ms: seq<Message>, m: Message, mtu: int)
    requires Sendable(m, mtu) && Decodable(m) && Encodable(m, mtu) && EncodeMessage(o, m, mtu).recordSeq <= EPOCH_STEP
    requires m.Handshake? ==> m.msgSeq !in IndexOf(ms)
    requires DecodeRecords(o.records) == Ok(Complete(ms))
    ensures DecodeRecords(EncodeMessage(o, m, mtu).records) == Ok(Complete(ms + [m]))
  {
    hide EncodeRecord, DecodeOne, IndexOf, MessageFits, EncodeFragments, EncodeWhole, Indexed;
    match m {
      case Opaque(r) =>
        WholeDecodes(o, ms, m, r, mtu);
      case Pseudo(version, contentType, payload) =>
        WholeNumbers(o, Record(contentType, version, o.recordSeq, payload), mtu);
        WholeDecodes(o, ms, m, Record(contentType, version, o.recordSeq, payload), mtu);
      case Handshake(_, _, _, _) =>
        FragmentsDecode(o, m, 0, false, mtu, ms);
        LastArrives(ms, m);
    }
  }

  lemma WholeNumbers(o: Out, r: Record, mtu: int)
    ensures EncodeWhole(o, r, mtu).recordSeq == o.recordSeq
  {
  }

  lemma LastArrives(ms: seq<Message>, m: Message)
    requires m.Handshake?
    ensures Arriving(ms, m, |m.body|) == Complete(ms + [m])
  {
    CompleteAppend(ms, m);
    assert m.body[..|m.body|] + Zeros(0) == m.body;
  }

  lemma {:induction false} MessagesDecode(first: nat, ms: seq<Message>, mtu: int)
    requires forall m :: m in ms ==> Sendable(m, mtu) && Decodable(m) && Encodable(m, mtu)
    requires DistinctNumbers(ms) && EncodeMessages(first, ms, mtu).recordSeq <= EPOCH_STEP
    ensures DecodeRecords(EncodeMessages(first, ms, mtu).records) == Ok(Complete(ms))
  {
    if ms != [] {
      var less, m := ms[..|ms| - 1], ms[|ms| - 1];
      assert ms == less + [m] && m in ms;
      assert forall x :: x in less ==> x in ms;
      var o := EncodeMessages(first, less, mtu);
      MessageNumbers(o, m, mtu);
      MessagesDecode(first, less, mtu);
      if m.Handshake? {
        NotIndexed(less, m.msgSeq);
      }
      MessageDecodes(o, less, m, mtu);
    }
  }

  /**
   * For every MTU that leaves room for a fragment and that every unsplittable record fits, decoding the
   * packets of an encoded volley gives back its messages, however they were cut up.
   */
  lemma VolleyRoundTrip(first: nat, ms: seq<Message>, mtu: int)
    requires forall m :: m in ms ==> Sendable(m, mtu) && Decodable(m) && Encodable(m, mtu)
    requires DistinctNumbers(ms) && 0 <= mtu < MTU_LIMIT && EncodeMessages(first, ms, mtu).recordSeq <= EPOCH_STEP
    ensures DecodeVolley(Flat(Packets(EncodeMessages(first, ms, mtu)))) == Ok(ms)
  {
    PacketsOfVolley(first, ms, mtu);
    MessagesDecode(first, ms, mtu);
    RecordsRoundTrip(EncodeMessages(first, ms, mtu).records);
  }
}
