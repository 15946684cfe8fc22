/** What the packets of an encoded volley contain, and when encoding them comes to an end. */
module DtlsPackets {
  import opened ByteStrings
  import opened DtlsRecords
  import opened DtlsVolley

  /** The packets hold the records, one after the other. */
  ghost predicate Holds(o: Out) {
    Flat(o.packets) + o.packet == EncodeRecords(o.records)
  }

  lemma FlushedHolds(o: Out)
    requires Holds(o)
    ensures Holds(Flushed(o))
  {
    assert (o.packets + [o.packet])[..|o.packets|] == o.packets;
  }

  lemma EmittedHolds(o: Out, r: Record)
    requires Holds(o)
    ensures Holds(Emitted(o, r))
  {
    EncodeRecordsAppend(o.records, r);
  }

  ghost predicate Bounded(o: Out, mtu: int) {
    |o.packet| <= mtu && forall p :: p in o.packets ==> |p| <= mtu
  }

  /** The record numbers handed out by the encoder: those of the first epoch, in order. */
  function Numbers(rs: seq<Record>): seq<nat> {
    if rs == [] then []
    else Numbers(rs[..|rs| - 1]) + if Epoch(rs[|rs| - 1].epochSeqno) == 0 then [rs[|rs| - 1].epochSeqno] else []
  }

  /** They are consecutive, from `first` to the encoder's next one. */
  ghost predicate Numbered(o: Out, first: nat) {
    |Numbers(o.records)| == o.recordSeq - first && forall i :: 0 <= i < |Numbers(o.records)| ==> Numbers(o.records)[i] == first + i
  }

  lemma NumbersAppend(rs: seq<Record>, r: Record)
    ensures Numbers(rs + [r]) == Numbers(rs) + if Epoch(r.epochSeqno) == 0 then [r.epochSeqno] else []
  {
    assert (rs + [r])[..|rs|] == rs;
  }

  /** What holds of the output at every point of the encoding. */
  ghost predicate Good(o: Out, first: nat, mtu: int) {
    Holds(o) && Bounded(o, mtu) && AllFit(o.records) && (o.recordSeq <= EPOCH_STEP ==> Numbered(o, first))
  }

  /** The MTUs for which every fragment has a length that the record header can hold. */
  const MTU_LIMIT := 0x1_0000 + RECORD_HEADER_SIZE

  lemma FlushedGood(o: Out, first: nat, mtu: int)
    requires Good(o, first, mtu) && 0 <= mtu
    ensures Good(Flushed(o), first, mtu)
  {
    FlushedHolds(o);
  }

  /** A record with the next number. */
  lemma NextGood(o: Out, r: Record, first: nat, mtu: int)
    requires Good(o, first, mtu) && RecordFits(r) && |o.packet| + |EncodeRecord(r)| <= mtu && r.epochSeqno == o.recordSeq
    ensures Good(Emitted(o, r).(recordSeq := o.recordSeq + 1), first, mtu)
  {
    EmittedHolds(o, r);
    NumbersAppend(o.records, r);
  }

  lemma OpaqueGood(o: Out, r: Record, first: nat, mtu: int)
    requires Good(o, first, mtu) && RecordFits(r) && |o.packet| + |EncodeRecord(r)| <= mtu && Epoch(r.epochSeqno) != 0
    ensures Good(Emitted(o, r), first, mtu)
  {
    EmittedHolds(o, r);
    NumbersAppend(o.records, r);
  }

  lemma {:induction false} FragmentsNumbers(o: Out, m: Message, offset: nat, some: bool, mtu: int)
    requires m.Handshake? && offset <= |m.body| && mtu > RECORD_HEADER_SIZE + HANDSHAKE_HEADER_SIZE
    ensures o.recordSeq <= EncodeFragments(o, m, offset, some, mtu).recordSeq
    decreases |m.body| - offset, !some, |o.packet|
  {
    if offset != |m.body| || !some {
      var (o1, length, wrote) := FragmentStep(o, m, offset, mtu);
      FragmentsNumbers(o1, m, offset + length, some || wrote, mtu);
    }
  }

  lemma FragmentRecordFits(m: Message, offset: nat, length: nat, recordSeq: nat)
    requires m.Handshake? && MessageFits(m) && offset + length <= |m.body| && Fits(recordSeq, 8)
    requires length + HANDSHAKE_HEADER_SIZE < 0x1_0000
    ensures RecordFits(FragmentRecord(m, offset, length, recordSeq))
    ensures FragmentRecord(m, offset, length, recordSeq).epochSeqno == recordSeq
    ensures |EncodeRecord(FragmentRecord(m, offset, length, recordSeq))| == RECORD_HEADER_SIZE + HANDSHAKE_HEADER_SIZE + length
  {
    FitsBounds(HANDSHAKE_HEADER_SIZE + length);
  }

  lemma {:induction false} FragmentsGood(o: Out, m: Message, offset: nat, some: bool, mtu: int, first: nat)
    requires Good(o, first, mtu) && MessageFits(m)
    requires m.Handshake? && offset <= |m.body| && RECORD_HEADER_SIZE + HANDSHAKE_HEADER_SIZE < mtu < MTU_LIMIT
    requires EncodeFragments(o, m, offset, some, mtu).recordSeq <= 0x1_0000_0000_0000_0000
    ensures Good(EncodeFragments(o, m, offset, some, mtu), first, mtu)
    decreases |m.body| - offset, !some, |o.packet|
  {
    hide Good, MessageFits, EncodeRecord, EncodeFragment, FragmentRecord, RecordFits;
    if offset != |m.body| || !some {
      var (o1, length, wrote) := FragmentStep(o, m, offset, mtu);
      FragmentsNumbers(o1, m, offset + length, some || wrote, mtu);
      if wrote {
        FitsInEight(o.recordSeq);
        FragmentRecordFits(m, offset, length, o.recordSeq);
        NextGood(o, FragmentRecord(m, offset, length, o.recordSeq), first, mtu);
      } else {
        FlushedGood(o, first, mtu);
      }
      FragmentsGood(o1, m, offset + length, some || wrote, mtu, first);
    }
  }

  /** What the properties of a whole volley ask of its messages, besides fitting their headers. */
  predicate Sendable(m: Message, mtu: int) {
    && MessageFits(m) && Encodable(m, mtu) && WholeSize(m) <= mtu
    && (m.Opaque? ==> Epoch(m.record.epochSeqno) != 0)
  }

  lemma MessageNumbers(o: Out, m: Message, mtu: int)
    requires Encodable(m, mtu)
    ensures o.recordSeq <= EncodeMessage(o, m, mtu).recordSeq
  {
    if m.Handshake? {
      FragmentsNumbers(o, m, 0, false, mtu);
    }
  }

  lemma MessageGood(o: Out, m: Message, mtu: int, first: nat)
    requires Good(o, first, mtu) && Sendable(m, mtu) && 0 <= mtu < MTU_LIMIT
    requires EncodeMessage(o, m, mtu).recordSeq <= 0x1_0000_0000_0000_0000
    ensures Good(EncodeMessage(o, m, mtu), first, mtu)
  {
    hide Good;
    FlushedGood(o, first, mtu);
    match m {
      case Opaque(r) =>
        OpaqueGood(if mtu - |o.packet| - |EncodeRecord(r)| <= 0 then Flushed(o) else o, r, first, mtu);
      case Pseudo(version, contentType, payload) =>
        var r := Record(contentType, version, o.recordSeq, payload);
        FitsInEight(o.recordSeq);
        NextGood(if mtu - |o.packet| - |EncodeRecord(r)| <= 0 then Flushed(o) else o, r, first, mtu);
      case Handshake(_, _, _, _) =>
        FragmentsGood(o, m, 0, false, mtu, first);
    }
  }

  lemma {:induction false} MessagesGood(first: nat, ms: seq<Message>, mtu: int)
    requires forall m :: m in ms ==> Sendable(m, mtu) && Encodable(m, mtu)
    requires 0 <= mtu < MTU_LIMIT && EncodeMessages(first, ms, mtu).recordSeq <= 0x1_0000_0000_0000_0000
    ensures Good(EncodeMessages(first, ms, mtu), first, mtu)
  {
    if ms != [] {
      var m := ms[|ms| - 1];
      var o := EncodeMessages(first, ms[..|ms| - 1], mtu);
      assert forall x :: x in ms[..|ms| - 1] ==> x in ms;
      assert m in ms;
      MessageNumbers(o, m, mtu);
      MessagesGood(first, ms[..|ms| - 1], mtu);
      MessageGood(o, m, mtu, first);
    }
  }

  /**
   * No packet is longer than the MTU, the packets in a row are exactly the records in a row, and the
   * record numbers handed out are consecutive, so that the next volley goes on where this one ended.
   */
  lemma PacketsOfVolley(first: nat, ms: seq<Message>, mtu: int)
    requires forall m :: m in ms ==> Sendable(m, mtu) && Encodable(m, mtu)
    requires 0 <= mtu < MTU_LIMIT && EncodeMessages(first, ms, mtu).recordSeq <= 0x1_0000_0000_0000_0000
    ensures var o := EncodeMessages(first, ms, mtu);
      && (forall p :: p in Packets(o) ==> |p| <= mtu)
      && Flat(Packets(o)) == EncodeRecords(o.records) && AllFit(o.records)
      && (o.recordSeq <= EPOCH_STEP ==> Numbered(o, first))
  {
    var o := EncodeMessages(first, ms, mtu);
    MessagesGood(first, ms, mtu);
    assert (o.packets + [o.packet])[..|o.packets|] == o.packets;
  }

  // ---------- fragments ----------

  function Sum(ns: seq<nat>): nat {
    if ns == [] then 0 else ns[0] + Sum(ns[1..])
  }

  /** The records of fragments of the given lengths, each starting where the one before it ended. */
  function Cut(m: Message, offset: nat, lengths: seq<nat>, recordSeq: nat): seq<Record>
    requires m.Handshake? && offset + Sum(lengths) <= |m.body|
    decreases |lengths|
  {
    if lengths == [] then []
    else [FragmentRecord(m, offset, lengths[0], recordSeq)] + Cut(m, offset + lengths[0], lengths[1..], recordSeq + 1)
  }

  /** The lengths of the fragments that a body is cut into: none empty, unless the body is, and then just one. */
  predicate Lengths(lengths: seq<nat>, left: nat, some: bool) {
    && Sum(lengths) == left
    && (forall n :: n in lengths ==> 0 < n || (left == 0 && !some))
    && (left == 0 ==> |lengths| == if some then 0 else 1)
  }

  lemma CutFirst(m: Message, offset: nat, length: nat, rest: seq<nat>, recordSeq: nat)
    requires m.Handshake? && offset + length + Sum(rest) <= |m.body|
    ensures Sum([length] + rest) == length + Sum(rest)
    ensures Cut(m, offset, [length] + rest, recordSeq) ==
      [FragmentRecord(m, offset, length, recordSeq)] + Cut(m, offset + length, rest, recordSeq + 1)
  {
    hide FragmentRecord;
    assert ([length] + rest)[1..] == rest;
  }

  /** Every byte of a handshake body goes into exactly one fragment, and the fragments come in order. */
  lemma {:induction false} BodyCovered(o: Out, m: Message, offset: nat, some: bool, mtu: int) returns (lengths: seq<nat>)
    requires m.Handshake? && offset <= |m.body| && mtu > RECORD_HEADER_SIZE + HANDSHAKE_HEADER_SIZE
    ensures Lengths(lengths, |m.body| - offset, some)
    ensures EncodeFragments(o, m, offset, some, mtu).records == o.records + Cut(m, offset, lengths, o.recordSeq)
    ensures EncodeFragments(o, m, offset, some, mtu).recordSeq == o.recordSeq + |lengths|
    decreases |m.body| - offset, !some, |o.packet|
  {
    hide EncodeRecord, EncodeFragment, FragmentRecord, FragmentStep, EncodeFragments, Cut;
    if offset == |m.body| && some {
      lengths := [];
      FragmentsDone(o, m, mtu);
      NothingCut(m, offset, o.recordSeq);
    } else {
      FragmentRound(o, m, offset, some, mtu);
      var (o1, length, wrote) := FragmentStep(o, m, offset, mtu);
      var rest := BodyCovered(o1, m, offset + length, some || wrote, mtu);
      if wrote {
        lengths := [length] + rest;
        CutFirst(m, offset, length, rest, o.recordSeq);
      } else {
        lengths := rest;
      }
    }
  }

  lemma NothingCut(m: Message, offset: nat, recordSeq: nat)
    requires m.Handshake? && offset <= |m.body|
    ensures Sum([]) == 0 && Cut(m, offset, [], recordSeq) == []
  {
  }

  // ---------- termination ----------

  /** The loop over the fragments after `rounds` more rounds, with the part of the body that it has taken. */
  function Rounds(o: Out, m: Message, offset: nat, mtu: int, rounds: nat): (Out, nat)
    requires m.Handshake? && offset <= |m.body|
    decreases rounds
  {
    if rounds == 0 then (o, offset)
    else
      var (o1, length, _) := FragmentStep(o, m, offset, mtu);
      Rounds(o1, m, offset + length, mtu, rounds - 1)
  }

  /** With an MTU of 25 or less the loop over a message's fragments goes on for ever, adding a packet in each round. */
  lemma {:induction false} TooSmallMtu(o: Out, m: Message, offset: nat, mtu: int, rounds: nat)
    requires m.Handshake? && offset <= |m.body| && mtu <= RECORD_HEADER_SIZE + HANDSHAKE_HEADER_SIZE
    ensures var (o1, offset1) := Rounds(o, m, offset, mtu, rounds);
      offset1 == offset && o1.records == o.records && |o1.packets| == |o.packets| + rounds
    decreases rounds
  {
    if rounds > 0 {
      TooSmallMtu(Flushed(o), m, offset, mtu, rounds - 1);
    }
  }
}
