/** Handshake volleys: taking openssl's records apart into messages, and packing the messages again for any MTU. */
module DtlsVolley {
  import opened ByteStrings
  import opened DtlsRecords

  datatype Message =
    | Opaque(record: Record)
    | Pseudo(version: Bytes, contentType: nat, payload: Bytes)
    | Handshake(version: Bytes, msgType: nat, msgSeq: nat, body: Bytes)

  const EPOCH_STEP := 0x1_0000_0000_0000

  /** The epoch is the upper two bytes of the record number. */
  function Epoch(epochSeqno: nat): nat {
    epochSeqno / EPOCH_STEP % 0x1_0000
  }

  const HANDSHAKE_TYPES := {0, 1, 2, 3, 4, 8, 11, 12, 13, 14, 15, 16, 20, 21, 22, 23, 24, 25, 26, 254}

  /** What the headers can hold. */
  predicate MessageFits(m: Message) {
    match m
    case Opaque(r) => RecordFits(r)
    case Pseudo(version, contentType, payload) => |version| == 2 && contentType < 256 && Fits(|payload|, 2)
    case Handshake(version, msgType, msgSeq, body) => |version| == 2 && msgType < 256 && Fits(msgSeq, 2) && Fits(|body|, 3)
  }

  // ---------- encoding ----------

  /** What `encode_volley` has so far; `records` are the records it has written, one after the other. */
  datatype Out = Out(packets: seq<Bytes>, packet: Bytes, recordSeq: nat, records: seq<Record>)

  function Flushed(o: Out): Out {
    o.(packets := o.packets + [o.packet], packet := [])
  }

  function Emitted(o: Out, r: Record): Out {
    o.(packet := o.packet + EncodeRecord(r), records := o.records + [r])
  }

  /** A record that cannot be split. */
  function EncodeWhole(o: Out, r: Record, mtu: int): Out {
    Emitted(if mtu - |o.packet| - |EncodeRecord(r)| <= 0 then Flushed(o) else o, r)
  }

  function FragmentRecord(m: Message, offset: nat, length: nat, recordSeq: nat): Record
    requires m.Handshake? && offset + length <= |m.body|
  {
    Record(HANDSHAKE, m.version, recordSeq,
      EncodeFragment(Fragment(m.msgType, |m.body|, m.msgSeq, offset, length, m.body[offset..offset + length])))
  }

  /** One round of the loop over the fragments of a message, and how much of the body it has taken. */
  function FragmentStep(o: Out, m: Message, offset: nat, mtu: int): (r: (Out, nat, bool))
    requires m.Handshake? && offset <= |m.body|
    ensures offset + r.1 <= |m.body|
  {
    var space := mtu - |o.packet| - RECORD_HEADER_SIZE - HANDSHAKE_HEADER_SIZE;
    if space <= 0 then (Flushed(o), 0, false)
    else
      var length := if space < |m.body| - offset then space else |m.body| - offset;
      (Emitted(o, FragmentRecord(m, offset, length, o.recordSeq)).(recordSeq := o.recordSeq + 1), length, true)
  }

  function EncodeFragments(o: Out, m: Message, offset: nat, some: bool, mtu: int): Out
    requires m.Handshake? && offset <= |m.body| && mtu > RECORD_HEADER_SIZE + HANDSHAKE_HEADER_SIZE
    decreases |m.body| - offset, !some, |o.packet|
  {
    if offset == |m.body| && some then o
    else
      var (o1, length, wrote) := FragmentStep(o, m, offset, mtu);
      EncodeFragments(o1, m, offset + length, some || wrote, mtu)
  }

  /** What one round does to the packets: it flushes the current one, or puts a fragment into what is left of it. */
  lemma FragmentRound(o: Out, m: Message, offset: nat, some: bool, mtu: int)
    requires m.Handshake? && offset <= |m.body| && mtu > RECORD_HEADER_SIZE + HANDSHAKE_HEADER_SIZE && (offset < |m.body| || !some)
    ensures var space := mtu - |o.packet| - RECORD_HEADER_SIZE - HANDSHAKE_HEADER_SIZE;
      var (o1, length, wrote) := FragmentStep(o, m, offset, mtu);
      && EncodeFragments(o, m, offset, some, mtu) == EncodeFragments(o1, m, offset + length, some || wrote, mtu)
      && (if space <= 0
          then !wrote && length == 0 && o1.packets == o.packets + [o.packet] && o1.packet == [] && o1.recordSeq == o.recordSeq
               && o1.records == o.records
          else wrote && length == (if space < |m.body| - offset then space else |m.body| - offset)
               && o1.packets == o.packets && o1.packet == o.packet + EncodeRecord(FragmentRecord(m, offset, length, o.recordSeq))
               && o1.recordSeq == o.recordSeq + 1 && o1.records == o.records + [FragmentRecord(m, offset, length, o.recordSeq)]
               && (|m.version| == 2 ==> |o1.packet| == |o.packet| + RECORD_HEADER_SIZE + HANDSHAKE_HEADER_SIZE + length))
  {
  }

  lemma FragmentsDone(o: Out, m: Message, mtu: int)
    requires m.Handshake? && mtu > RECORD_HEADER_SIZE + HANDSHAKE_HEADER_SIZE
    ensures EncodeFragments(o, m, |m.body|, true, mtu) == o
  {
  }

  predicate Encodable(m: Message, mtu: int) {
    m.Handshake? ==> mtu > RECORD_HEADER_SIZE + HANDSHAKE_HEADER_SIZE
  }

  function EncodeMessage(o: Out, m: Message, mtu: int): Out
    requires Encodable(m, mtu)
  {
    match m
    case Opaque(r) => EncodeWhole(o, r, mtu)
    case Pseudo(version, contentType, payload) =>
      EncodeWhole(o, Record(contentType, version, o.recordSeq, payload), mtu).(recordSeq := o.recordSeq + 1)
    case Handshake(_, _, _, _) => EncodeFragments(o, m, 0, false, mtu)
  }

  function EncodeMessages(first: nat, ms: seq<Message>, mtu: int): Out
    requires forall m :: m in ms ==> Encodable(m, mtu)
  {
    if ms == [] then Out([], [], first, [])
    else EncodeMessage(EncodeMessages(first, ms[..|ms| - 1], mtu), ms[|ms| - 1], mtu)
  }

  function Packets(o: Out): seq<Bytes> {
    if o.packet != [] then o.packets + [o.packet] else o.packets
  }

  /** The size of a message that cannot be split, as a record. */
  function WholeSize(m: Message): nat {
    match m
    case Opaque(r) => |EncodeRecord(r)|
    case Pseudo(version, _, payload) => RECORD_HEADER_SIZE + |payload|
    case Handshake(_, _, _, _) => 0
  }

  lemma EncodedNext(first: nat, ms: seq<Message>, i: nat, mtu: int)
    requires i < |ms| && forall m :: m in ms ==> Encodable(m, mtu)
    ensures ms[i] in ms && (forall m :: m in ms[..i] ==> Encodable(m, mtu)) && forall m :: m in ms[..i + 1] ==> Encodable(m, mtu)
    ensures EncodeMessages(first, ms[..i + 1], mtu) == EncodeMessage(EncodeMessages(first, ms[..i], mtu), ms[i], mtu)
  {
    hide EncodeMessage;
    assert ms[..i + 1][..i] == ms[..i];
  }

  lemma NothingEncoded(first: nat, ms: seq<Message>, mtu: int)
    ensures ms[..0] == [] && EncodeMessages(first, [], mtu) == Out([], [], first, [])
  {
  }

  lemma WholeAppended(o: Out, r: Record, mtu: int)
    ensures var full := mtu - |o.packet| - |EncodeRecord(r)| <= 0; var o1 := EncodeWhole(o, r, mtu);
      && o1.packets == (if full then o.packets + [o.packet] else o.packets)
      && o1.packet == (if full then [] else o.packet) + EncodeRecord(r)
      && o1.recordSeq == o.recordSeq
  {
  }

  class RecordEncoder {
    var recordSeq: nat

    constructor ()
      ensures recordSeq == 0
    {
      recordSeq := 0;
    }

    method SetFirstRecordNumber(n: nat)
      modifies this
      ensures recordSeq == n
    {
      recordSeq := n;
    }

    /**
     * `encode_volley`; no result is its AssertionError. With handshake messages and an MTU of 25 or less
     * it would not return at all.
     */
    method EncodeVolley(messages: seq<Message>, mtu: int) returns (packets: seq<Bytes>, ok: bool)
      requires forall m :: m in messages ==> Encodable(m, mtu) && MessageFits(m)
      modifies this
      ensures ok <==> forall m :: m in messages ==> WholeSize(m) <= mtu
      ensures ok ==> packets == Packets(EncodeMessages(old(recordSeq), messages, mtu))
      ensures ok ==> recordSeq == EncodeMessages(old(recordSeq), messages, mtu).recordSeq
    {
      hide EncodeFragments, Fits, EncodeMessages, EncodeWhole, EncodeRecord;
      packets := [];
      var packet: Bytes := [];
      ghost var o := Out([], [], recordSeq, []);
      NothingEncoded(recordSeq, messages, mtu);
      for i := 0 to |messages|
        invariant o == EncodeMessages(old(recordSeq), messages[..i], mtu)
        invariant packets == o.packets && packet == o.packet && recordSeq == o.recordSeq
        invariant forall j :: 0 <= j < i ==> WholeSize(messages[j]) <= mtu
      {
        var message := messages[i];
        assert message in messages && MessageFits(message) && Encodable(message, mtu);
        EncodedNext(old(recordSeq), messages, i, mtu);
        match message {
          case Opaque(record) =>
            WholeAppended(o, record, mtu);
            packets, packet := AppendWhole(packets, packet, EncodeRecord(record), mtu);
            if |packet| > mtu { return [], false; }
          case Pseudo(version, contentType, payload) =>
            WholeAppended(o, Record(contentType, version, recordSeq, payload), mtu);
            packets, packet := AppendWhole(packets, packet, EncodeRecord(Record(contentType, version, recordSeq, payload)), mtu);
            recordSeq := recordSeq + 1;
            if |packet| > mtu { return [], false; }
          case Handshake(_, _, _, _) =>
            packets, packet := EncodeHandshake(packets, packet, message, mtu, o);
        }
        o := EncodeMessage(o, message, mtu);
      }
      assert messages[..|messages|] == messages;
      ok := true;
      if packet != [] {
        packets := packets + [packet];
      }
    }

    method AppendWhole(packets0: seq<Bytes>, packet0: Bytes, encoded: Bytes, mtu: int) returns (packets: seq<Bytes>, packet: Bytes)
      ensures packets == if mtu - |packet0| - |encoded| <= 0 then packets0 + [packet0] else packets0
      ensures packet == (if mtu - |packet0| - |encoded| <= 0 then [] else packet0) + encoded
      ensures |packet| <= mtu <==> |encoded| <= mtu
    {
      packets, packet := packets0, packet0;
      if mtu - |packet| - |encoded| <= 0 {
        packets, packet := packets + [packet], [];
      }
      packet := packet + encoded;
    }

    /** The loop over the fragments of one handshake message. */
    method EncodeHandshake(packets0: seq<Bytes>, packet0: Bytes, message: Message, mtu: int, ghost o: Out) returns (packets: seq<Bytes>, packet: Bytes)
      requires message.Handshake? && Encodable(message, mtu) && MessageFits(message)
      requires packets0 == o.packets && packet0 == o.packet && recordSeq == o.recordSeq
      modifies this
      ensures var o1 := EncodeMessage(o, message, mtu); packets == o1.packets && packet == o1.packet && recordSeq == o1.recordSeq
    {
      hide EncodeFragments, FragmentStep, EncodeRecord, FragmentRecord;
      packets, packet := packets0, packet0;
      var body := message.body;
      var offset, encoded := 0, 0;
      ghost var o1 := o;
      while offset < |body| || encoded == 0
        invariant offset <= |body| && (encoded == 0 ==> offset == 0) && 0 <= encoded
        invariant packets == o1.packets && packet == o1.packet && recordSeq == o1.recordSeq
        invariant EncodeFragments(o1, message, offset, encoded > 0, mtu) == EncodeFragments(o, message, 0, false, mtu)
        decreases |body| - offset, encoded == 0, |packet|
      {
        var space := mtu - |packet| - RECORD_HEADER_SIZE - HANDSHAKE_HEADER_SIZE;
        FragmentRound(o1, message, offset, encoded > 0, mtu);
        o1 := FragmentStep(o1, message, offset, mtu).0;
        if space <= 0 {
          packets, packet := packets + [packet], [];
          continue;
        }
        var length := if space < |body| - offset then space else |body| - offset;
        packet := packet + EncodeRecord(FragmentRecord(message, offset, length, recordSeq));
        recordSeq := recordSeq + 1;
        offset := offset + length;
        encoded := encoded + 1;
        assert |packet| <= mtu;
      }
      FragmentsDone(o1, message, mtu);
    }
  }
}
