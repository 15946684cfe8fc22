/** DTLS records and handshake fragments: the parsers and printers of `trio/_dtls.py`. */
module DtlsRecords {
  import opened ByteStrings

  const CHANGE_CIPHER_SPEC := 20
  const ALERT := 21
  const HANDSHAKE := 22

  const CLIENT_HELLO := 1
  const HELLO_VERIFY_REQUEST := 3

  const RECORD_HEADER_SIZE := 13
  const HANDSHAKE_HEADER_SIZE := 12

  /** Why decoding gives up; `Exhausted` is the StopIteration of a generator that yields nothing. */
  datatype Failure = BadPacket | AssertionError | ValueError | Exhausted

  datatype Result<+T> = Ok(value: T) | Err(failure: Failure)

  datatype Record = Record(contentType: nat, version: Bytes, epochSeqno: nat, payload: Bytes)

  /** What `RECORD_HEADER` can hold. */
  predicate RecordFits(r: Record) {
    r.contentType < 256 && |r.version| == 2 && Fits(r.epochSeqno, 8) && Fits(|r.payload|, 2)
  }

  function EncodeRecord(r: Record): (b: Bytes)
    ensures |r.version| == 2 ==> |b| == RECORD_HEADER_SIZE + |r.payload|
  {
    BigEndian(r.contentType, 1) + r.version + BigEndian(r.epochSeqno, 8) + BigEndian(|r.payload|, 2) + r.payload
  }

  function EncodeRecords(rs: seq<Record>): Bytes {
    if rs == [] then [] else EncodeRecord(rs[0]) + EncodeRecords(rs[1..])
  }

  /** The record at the start of a packet; `None` when there is no whole one. */
  function ParseRecord(packet: Bytes): (r: Result<Record>)
    ensures r.Ok? ==> RECORD_HEADER_SIZE + |r.value.payload| <= |packet|
  {
    if |packet| < RECORD_HEADER_SIZE then Err(BadPacket)
    else
      var length := FromBigEndian(packet[11..13]);
      if |packet| < RECORD_HEADER_SIZE + length then Err(BadPacket)
      else Ok(Record(FromBigEndian(packet[..1]), packet[1..3], FromBigEndian(packet[3..11]),
                     packet[RECORD_HEADER_SIZE..RECORD_HEADER_SIZE + length]))
  }

  /** All records of a packet, and whether the packet ends with the last of them. */
  function ParseRecords(packet: Bytes): (seq<Record>, bool)
    decreases |packet|
  {
    if packet == [] then ([], true)
    else match ParseRecord(packet)
      case Err(_) => ([], false)
      case Ok(r) =>
        var (rs, ok) := ParseRecords(packet[RECORD_HEADER_SIZE + |r.payload|..]);
        ([r] + rs, ok)
  }

  /** `records_untrusted`, run to its end. */
  method RecordsUntrusted(packet: Bytes) returns (records: seq<Record>, ok: bool)
    ensures records == ParseRecords(packet).0 && ok == ParseRecords(packet).1
  {
    records, ok := [], true;
    var i := 0;
    assert packet[i..] == packet;
    while i < |packet|
      invariant i <= |packet|
      invariant ParseRecords(packet).0 == records + ParseRecords(packet[i..]).0
      invariant ParseRecords(packet).1 == ParseRecords(packet[i..]).1
    {
      var rest := packet[i..];
      var parsed := ParseRecord(rest);
      if parsed.Err? {
        return records, false;
      }
      assert ParseRecords(rest).0 == [parsed.value] + ParseRecords(rest[RECORD_HEADER_SIZE + |parsed.value.payload|..]).0;
      i := i + RECORD_HEADER_SIZE + |parsed.value.payload|;
      assert packet[i..] == rest[RECORD_HEADER_SIZE + |parsed.value.payload|..];
      records := records + [parsed.value];
    }
  }

  /** Printing and parsing one record, whatever follows it. */
  lemma RecordRoundTrip(r: Record, rest: Bytes)
    requires RecordFits(r)
    ensures ParseRecord(EncodeRecord(r) + rest) == Ok(r)
    ensures (EncodeRecord(r) + rest)[RECORD_HEADER_SIZE + |r.payload|..] == rest
  {
    var p := EncodeRecord(r) + rest;
    FitsBounds(r.contentType);
    FromTo(r.contentType, 1);
    FromTo(r.epochSeqno, 8);
    FromTo(|r.payload|, 2);
    assert p[..1] == BigEndian(r.contentType, 1);
    assert p[1..3] == r.version;
    assert p[3..11] == BigEndian(r.epochSeqno, 8);
    assert p[11..13] == BigEndian(|r.payload|, 2);
    assert p[13..13 + |r.payload|] == r.payload;
  }

  lemma HeaderCut(packet: Bytes, length: nat)
    requires RECORD_HEADER_SIZE + length <= |packet|
    ensures packet == packet[..1] + packet[1..3] + packet[3..11] + packet[11..13] + packet[13..13 + length] + packet[13 + length..]
  {
  }

  /** Parsing and printing: nothing in a record is lost or changed. */
  lemma RecordReprinted(packet: Bytes)
    requires ParseRecord(packet).Ok?
    ensures var r := ParseRecord(packet).value;
      RecordFits(r) && packet == EncodeRecord(r) + packet[RECORD_HEADER_SIZE + |r.payload|..]
  {
    hide BigEndian, FromBigEndian;
    var r := ParseRecord(packet).value;
    ToFrom(packet[..1]);
    ToFrom(packet[3..11]);
    ToFrom(packet[11..13]);
    FitsBounds(r.contentType);
    HeaderCut(packet, |r.payload|);
  }

  predicate AllFit(rs: seq<Record>) {
    forall r :: r in rs ==> RecordFits(r)
  }

  lemma {:induction false} RecordsRoundTrip(rs: seq<Record>)
    requires AllFit(rs)
    ensures ParseRecords(EncodeRecords(rs)) == (rs, true)
  {
    if rs != [] {
      RecordsRoundTrip(rs[1..]);
      RecordRoundTrip(rs[0], EncodeRecords(rs[1..]));
      assert rs == [rs[0]] + rs[1..];
    }
  }

  lemma {:induction false} RecordsReprinted(packet: Bytes)
    ensures var (rs, ok) := ParseRecords(packet);
      AllFit(rs) && |EncodeRecords(rs)| <= |packet| && EncodeRecords(rs) == packet[..|EncodeRecords(rs)|]
        && (ok <==> EncodeRecords(rs) == packet)
    decreases |packet|
  {
    if packet != [] && ParseRecord(packet).Ok? {
      var r := ParseRecord(packet).value;
      var rest := packet[RECORD_HEADER_SIZE + |r.payload|..];
      RecordReprinted(packet);
      RecordsReprinted(rest);
      var (rs, ok) := ParseRecords(rest);
      assert ([r] + rs)[1..] == rs;
      assert EncodeRecords([r] + rs) == EncodeRecord(r) + EncodeRecords(rs);
    }
  }

  lemma {:induction false} EncodeRecordsAppend(rs: seq<Record>, r: Record)
    ensures EncodeRecords(rs + [r]) == EncodeRecords(rs) + EncodeRecord(r)
  {
    hide EncodeRecord;
    if rs == [] {
      assert [r][1..] == [];
    } else {
      EncodeRecordsAppend(rs[1..], r);
      assert (rs + [r])[1..] == rs[1..] + [r];
    }
  }

  // ---------- handshake fragments ----------

  datatype Fragment = Fragment(msgType: nat, msgLen: nat, msgSeq: nat, fragOffset: nat, fragLen: nat, frag: Bytes)

  predicate FragmentFits(h: Fragment) {
    h.msgType < 256 && Fits(h.msgLen, 3) && Fits(h.msgSeq, 2) && Fits(h.fragOffset, 3) && Fits(h.fragLen, 3)
  }

  function EncodeFragment(h: Fragment): (b: Bytes)
    ensures |b| == HANDSHAKE_HEADER_SIZE + |h.frag|
  {
    BigEndian(h.msgType, 1) + BigEndian(h.msgLen, 3) + BigEndian(h.msgSeq, 2) + BigEndian(h.fragOffset, 3) +
      BigEndian(h.fragLen, 3) + h.frag
  }

  /** `decode_handshake_fragment_untrusted`. */
  function DecodeFragment(payload: Bytes): Result<Fragment> {
    if |payload| < HANDSHAKE_HEADER_SIZE then Err(BadPacket)
    else
      var fragLen := FromBigEndian(payload[9..12]);
      var frag := payload[12..];
      if |frag| != fragLen then Err(BadPacket)
      else Ok(Fragment(FromBigEndian(payload[..1]), FromBigEndian(payload[1..4]), FromBigEndian(payload[4..6]),
                       FromBigEndian(payload[6..9]), fragLen, frag))
  }

  lemma FragmentRoundTrip(h: Fragment)
    requires FragmentFits(h)
    ensures DecodeFragment(EncodeFragment(h)) == if h.fragLen == |h.frag| then Ok(h) else Err(BadPacket)
  {
    hide BigEndian, FromBigEndian, Fits;
    FitsBounds(h.msgType);
    FromTo(h.msgType, 1);
    FromTo(h.msgLen, 3);
    FromTo(h.msgSeq, 2);
    FromTo(h.fragOffset, 3);
    FromTo(h.fragLen, 3);
    HeaderFields(BigEndian(h.msgType, 1), BigEndian(h.msgLen, 3), BigEndian(h.msgSeq, 2), BigEndian(h.fragOffset, 3), BigEndian(h.fragLen, 3), h.frag);
  }

  lemma HeaderFields(b0: Bytes, b1: Bytes, b2: Bytes, b3: Bytes, b4: Bytes, rest: Bytes)
    requires |b0| == 1 && |b1| == 3 && |b2| == 2 && |b3| == 3 && |b4| == 3
    ensures var p := b0 + b1 + b2 + b3 + b4 + rest;
      p[..1] == b0 && p[1..4] == b1 && p[4..6] == b2 && p[6..9] == b3 && p[9..12] == b4 && p[12..] == rest
  {
  }

  lemma FragmentReprinted(payload: Bytes)
    requires DecodeFragment(payload).Ok?
    ensures var h := DecodeFragment(payload).value;
      FragmentFits(h) && h.fragLen == |h.frag| && EncodeFragment(h) == payload
  {
    var h := DecodeFragment(payload).value;
    ToFrom(payload[..1]);
    ToFrom(payload[1..4]);
    ToFrom(payload[4..6]);
    ToFrom(payload[6..9]);
    ToFrom(payload[9..12]);
    FitsBounds(h.msgType);
    assert payload == payload[..1] + payload[1..4] + payload[4..6] + payload[6..9] + payload[9..12] + payload[12..];
  }

  // ---------- ClientHello ----------

  /** What `decode_client_hello_untrusted` returns: the record number, the cookie, and the bits to be signed. */
  datatype Hello = Hello(epochSeqno: nat, cookie: Bytes, bits: Bytes)

  const SESSION_ID_LENGTH_OFFSET := 34

  function DecodeClientHello(packet: Bytes): Result<Hello> {
    if packet == [] then Err(Exhausted)
    else match ParseRecord(packet)
      case Err(e) => Err(e)
      case Ok(record) =>
        if record.contentType != HANDSHAKE then Err(BadPacket)
        else match DecodeFragment(record.payload)
          case Err(e) => Err(e)
          case Ok(fragment) =>
            if fragment.msgType != CLIENT_HELLO || fragment.fragOffset != 0 || fragment.fragLen != fragment.msgLen then Err(BadPacket)
            else DecodeHelloBody(record.epochSeqno, fragment.frag)
  }

  function DecodeHelloBody(epochSeqno: nat, body: Bytes): Result<Hello> {
    if |body| <= SESSION_ID_LENGTH_OFFSET then Err(BadPacket)
    else
      var lengthOffset := SESSION_ID_LENGTH_OFFSET + 1 + body[SESSION_ID_LENGTH_OFFSET];
      if |body| <= lengthOffset then Err(BadPacket)
      else
        var start := lengthOffset + 1;
        var end := start + body[lengthOffset];
        if |body| < end then Err(BadPacket)
        else Ok(Hello(epochSeqno, body[start..end], body[..lengthOffset] + body[end..]))
  }

  /** The part of a ClientHello in front of the cookie ends with the session id. */
  predicate EndsWithSessionId(before: Bytes) {
    |before| > SESSION_ID_LENGTH_OFFSET && |before| == SESSION_ID_LENGTH_OFFSET + 1 + before[SESSION_ID_LENGTH_OFFSET]
  }

  function HelloBody(before: Bytes, cookie: Bytes, after: Bytes): Bytes
    requires |cookie| < 256
  {
    before + [|cookie|] + cookie + after
  }

  /** A ClientHello in one fragment in one record, with anything behind it. */
  function ClientHello(version: Bytes, epochSeqno: nat, msgSeq: nat, before: Bytes, cookie: Bytes, after: Bytes, rest: Bytes): Bytes
    requires |cookie| < 256
  {
    var body := HelloBody(before, cookie, after);
    EncodeRecord(Record(HANDSHAKE, version, epochSeqno, EncodeFragment(Fragment(CLIENT_HELLO, |body|, msgSeq, 0, |body|, body)))) + rest
  }

  predicate HelloFits(version: Bytes, epochSeqno: nat, msgSeq: nat, before: Bytes, cookie: Bytes, after: Bytes) {
    && |version| == 2 && Fits(epochSeqno, 8) && Fits(msgSeq, 2) && EndsWithSessionId(before) && |cookie| < 256
    && |before| + 1 + |cookie| + |after| + HANDSHAKE_HEADER_SIZE < 0x1_0000
  }

  /**
   * What is signed of a ClientHello is everything in its body around the cookie: not the cookie, not the
   * record it came in, and not its message number.
   */
  lemma ClientHelloDecoded(version: Bytes, epochSeqno: nat, msgSeq: nat, before: Bytes, cookie: Bytes, after: Bytes, rest: Bytes)
    requires HelloFits(version, epochSeqno, msgSeq, before, cookie, after)
    ensures DecodeClientHello(ClientHello(version, epochSeqno, msgSeq, before, cookie, after, rest)) ==
      Ok(Hello(epochSeqno, cookie, before + after))
  {
    var body := HelloBody(before, cookie, after);
    var fragment := Fragment(CLIENT_HELLO, |body|, msgSeq, 0, |body|, body);
    FitsBounds(|body|);
    FitsBounds(0);
    FitsBounds(HANDSHAKE_HEADER_SIZE + |body|);
    FragmentRoundTrip(fragment);
    RecordRoundTrip(Record(HANDSHAKE, version, epochSeqno, EncodeFragment(fragment)), rest);
    HelloBodyDecoded(epochSeqno, before, cookie, after);
  }

  lemma HelloBodyDecoded(epochSeqno: nat, before: Bytes, cookie: Bytes, after: Bytes)
    requires EndsWithSessionId(before) && |cookie| < 256
    ensures DecodeHelloBody(epochSeqno, HelloBody(before, cookie, after)) == Ok(Hello(epochSeqno, cookie, before + after))
  {
    var body := HelloBody(before, cookie, after);
    assert body[SESSION_ID_LENGTH_OFFSET] == before[SESSION_ID_LENGTH_OFFSET];
    assert body[|before|] == |cookie|;
    assert body[..|before|] == before;
    assert body[|before| + 1..|before| + 1 + |cookie|] == cookie;
    assert body[|before| + 1 + |cookie|..] == after;
  }

  lemma DecodedHelloBody(epochSeqno: nat, body: Bytes) returns (before: Bytes, after: Bytes)
    requires DecodeHelloBody(epochSeqno, body).Ok?
    ensures var hello := DecodeHelloBody(epochSeqno, body).value;
      && EndsWithSessionId(before) && |hello.cookie| < 256 && hello.epochSeqno == epochSeqno
      && body == HelloBody(before, hello.cookie, after) && hello.bits == before + after
  {
    var hello := DecodeHelloBody(epochSeqno, body).value;
    var lengthOffset := SESSION_ID_LENGTH_OFFSET + 1 + body[SESSION_ID_LENGTH_OFFSET];
    var end := lengthOffset + 1 + body[lengthOffset];
    before, after := body[..lengthOffset], body[end..];
    assert body == before + [body[lengthOffset]] + hello.cookie + after;
  }

  /** Whatever is accepted is such a ClientHello. */
  lemma DecodedClientHello(packet: Bytes) returns (version: Bytes, msgSeq: nat, before: Bytes, after: Bytes, rest: Bytes)
    requires DecodeClientHello(packet).Ok?
    ensures var hello := DecodeClientHello(packet).value;
      && HelloFits(version, hello.epochSeqno, msgSeq, before, hello.cookie, after)
      && packet == ClientHello(version, hello.epochSeqno, msgSeq, before, hello.cookie, after, rest)
      && hello.bits == before + after
  {
    hide EncodeRecord, EncodeFragment, Fits, DecodeHelloBody, HelloBody;
    var record := ParseRecord(packet).value;
    RecordReprinted(packet);
    FragmentReprinted(record.payload);
    var fragment := DecodeFragment(record.payload).value;
    version, msgSeq, rest := record.version, fragment.msgSeq, packet[RECORD_HEADER_SIZE + |record.payload|..];
    before, after := DecodedHelloBody(record.epochSeqno, fragment.frag);
    HelloBodySize(before, DecodeClientHello(packet).value.cookie, after);
    FitsBounds(|record.payload|);
  }

  lemma HelloBodySize(before: Bytes, cookie: Bytes, after: Bytes)
    requires |cookie| < 256
    ensures |HelloBody(before, cookie, after)| == |before| + 1 + |cookie| + |after|
  {
  }

  /** The decoder raises nothing but `BadPacket`, except on the empty packet, where the generator has no first record. */
  lemma ClientHelloFailures(packet: Bytes)
    ensures DecodeClientHello(packet).Ok? || DecodeClientHello(packet) == Err(BadPacket) <==> packet != []
  {
  }
}
