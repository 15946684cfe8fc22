/**
 * The stateless cookie of the DTLS handshake. HMAC is a parameter, of which only a digest of at least
 * one byte is assumed; a cookie is wrongly accepted just if it collides on two inputs that are named.
 */
module DtlsCookie {
  import opened ByteStrings
  import opened DtlsRecords

  const COOKIE_REFRESH_INTERVAL := 30.0
  const SALT_BYTES := 8
  const COOKIE_LENGTH := 32

  type Hmac = (Bytes, Bytes) -> Bytes

  function Take(b: Bytes, n: nat): Bytes {
    if n < |b| then b[..n] else b
  }

  // ---------- _signable ----------

  function SignableOf(fields: seq<Bytes>): Bytes {
    if fields == [] then [] else BigEndian(|fields[0]|, 8) + fields[0] + SignableOf(fields[1..])
  }

  lemma Associate(a: Bytes, b: Bytes, c: Bytes, d: Bytes)
    ensures a + (b + c + d) == (a + b) + c + d
  {
  }

  lemma {:induction false} SignableAppend(fields: seq<Bytes>, field: Bytes)
    ensures SignableOf(fields + [field]) == SignableOf(fields) + BigEndian(|field|, 8) + field
  {
    hide BigEndian;
    if fields == [] {
      assert [] + [field] == [field] && [field][1..] == [];
    } else {
      var first := BigEndian(|fields[0]|, 8) + fields[0];
      SignableAppend(fields[1..], field);
      assert (fields + [field])[1..] == fields[1..] + [field];
      assert SignableOf(fields + [field]) == first + (SignableOf(fields[1..]) + BigEndian(|field|, 8) + field);
      Associate(first, SignableOf(fields[1..]), BigEndian(|field|, 8), field);
    }
  }

  /** `_signable`. */
  method Signable(fields: seq<Bytes>) returns (out: Bytes)
    ensures out == SignableOf(fields)
  {
    out := [];
    for i := 0 to |fields|
      invariant out == SignableOf(fields[..i])
    {
      SignableAppend(fields[..i], fields[i]);
      assert fields[..i + 1] == fields[..i] + [fields[i]];
      out := out + BigEndian(|fields[i]|, 8) + fields[i];
    }
    assert fields[..|fields|] == fields;
  }

  predicate Packable(fields: seq<Bytes>) {
    forall f :: f in fields ==> Fits(|f|, 8)
  }

  /** Different fields never look the same when they are signed. */
  lemma {:induction false} SignableInjective(a: seq<Bytes>, b: seq<Bytes>)
    requires Packable(a) && Packable(b) && SignableOf(a) == SignableOf(b)
    ensures a == b
  {
    if a != [] && b != [] {
      var s := SignableOf(a);
      FromTo(|a[0]|, 8);
      FromTo(|b[0]|, 8);
      assert s[..8] == BigEndian(|a[0]|, 8) && s[..8] == BigEndian(|b[0]|, 8);
      assert a[0] == s[8..8 + |a[0]|] == b[0];
      assert SignableOf(a[1..]) == s[8 + |a[0]|..] == SignableOf(b[1..]);
      SignableInjective(a[1..], b[1..]);
    }
  }

  // ---------- cookies ----------

  /** `_current_cookie_tick`, for a clock that is not negative. */
  function Tick(now: real): nat
    requires now >= 0.0
  {
    (now / COOKIE_REFRESH_INTERVAL).Floor
  }

  /** The fields under the signature; an address is the list of its parts, as text. */
  function SignedFields(salt: Bytes, tick: nat, address: seq<Bytes>, bits: Bytes): seq<Bytes> {
    [salt, BigEndian(tick, 8), SignableOf(address), bits]
  }

  function MakeCookie(hmac: Hmac, key: Bytes, salt: Bytes, tick: nat, address: seq<Bytes>, bits: Bytes): Bytes {
    Take(salt + hmac(key, SignableOf(SignedFields(salt, tick, address, bits))), COOKIE_LENGTH)
  }

  function Before(tick: nat): nat {
    if tick == 0 then 0 else tick - 1
  }

  predicate ValidCookie(hmac: Hmac, key: Bytes, cookie: Bytes, address: seq<Bytes>, bits: Bytes, now: real)
    requires now >= 0.0
  {
    |cookie| > SALT_BYTES &&
    var salt, tick := cookie[..SALT_BYTES], Tick(now);
    cookie == MakeCookie(hmac, key, salt, tick, address, bits) || cookie == MakeCookie(hmac, key, salt, Before(tick), address, bits)
  }

  /** Everything is short enough for its length, and the clock early enough, to be packed into 8 bytes. */
  predicate InRange(tick: nat, address: seq<Bytes>, bits: Bytes) {
    Fits(tick, 8) && Packable(address) && Fits(|SignableOf(address)|, 8) && Fits(|bits|, 8)
  }

  /** Two different inputs whose digests agree as far as a cookie shows them. */
  ghost predicate Collision(hmac: Hmac, key: Bytes, d: Bytes, e: Bytes) {
    d != e && Take(hmac(key, d), COOKIE_LENGTH - SALT_BYTES) == Take(hmac(key, e), COOKIE_LENGTH - SALT_BYTES)
  }

  /** The input that was signed and the input that it is checked against collide. */
  ghost predicate Forged(hmac: Hmac, key: Bytes, salt: Bytes, tick: nat, address: seq<Bytes>, bits: Bytes,
                         tick2: nat, address2: seq<Bytes>, bits2: Bytes) {
    Collision(hmac, key, SignableOf(SignedFields(salt, tick, address, bits)), SignableOf(SignedFields(salt, tick2, address2, bits2)))
  }

  lemma EightFits()
    ensures Fits(8, 8)
  {
    FitsInEight(8);
  }

  lemma SignedFieldsInjective(salt: Bytes, tick: nat, address: seq<Bytes>, bits: Bytes, tick2: nat, address2: seq<Bytes>, bits2: Bytes)
    requires |salt| == SALT_BYTES && InRange(tick, address, bits) && InRange(tick2, address2, bits2)
    requires SignableOf(SignedFields(salt, tick, address, bits)) == SignableOf(SignedFields(salt, tick2, address2, bits2))
    ensures tick == tick2 && address == address2 && bits == bits2
  {
    var a, b := SignedFields(salt, tick, address, bits), SignedFields(salt, tick2, address2, bits2);
    EightFits();
    SignableInjective(a, b);
    assert a[1] == b[1] && a[2] == b[2] && a[3] == b[3];
    FromTo(tick, 8);
    FromTo(tick2, 8);
    SignableInjective(address, address2);
  }

  /** Cookies with the same salt are equal just when their digests agree as far as a cookie shows them. */
  lemma SameDigest(hmac: Hmac, key: Bytes, salt: Bytes, d: Bytes, e: Bytes)
    requires |salt| == SALT_BYTES
    ensures Take(salt + hmac(key, d), COOKIE_LENGTH) == Take(salt + hmac(key, e), COOKIE_LENGTH) <==>
      Take(hmac(key, d), COOKIE_LENGTH - SALT_BYTES) == Take(hmac(key, e), COOKIE_LENGTH - SALT_BYTES)
  {
    TakeAfter(salt, hmac(key, d));
    TakeAfter(salt, hmac(key, e));
    var x, y := Take(hmac(key, d), COOKIE_LENGTH - SALT_BYTES), Take(hmac(key, e), COOKIE_LENGTH - SALT_BYTES);
    assert (salt + x)[SALT_BYTES..] == x && (salt + y)[SALT_BYTES..] == y;
  }

  lemma TakeAfter(salt: Bytes, digest: Bytes)
    requires |salt| == SALT_BYTES
    ensures Take(salt + digest, COOKIE_LENGTH) == salt + Take(digest, COOKIE_LENGTH - SALT_BYTES)
  {
  }

  /** The cookie is the one that this address and this ClientHello would be given at the tick `tick2`. */
  lemma SameCookie(hmac: Hmac, key: Bytes, salt: Bytes, tick: nat, address: seq<Bytes>, bits: Bytes,
                   tick2: nat, address2: seq<Bytes>, bits2: Bytes)
    requires |salt| == SALT_BYTES && InRange(tick, address, bits) && InRange(tick2, address2, bits2)
    ensures MakeCookie(hmac, key, salt, tick, address, bits) == MakeCookie(hmac, key, salt, tick2, address2, bits2) <==>
      (tick2 == tick && address2 == address && bits2 == bits)
      || Forged(hmac, key, salt, tick, address, bits, tick2, address2, bits2)
  {
    var d, e := SignableOf(SignedFields(salt, tick, address, bits)), SignableOf(SignedFields(salt, tick2, address2, bits2));
    SameDigest(hmac, key, salt, d, e);
    if d == e {
      SignedFieldsInjective(salt, tick, address, bits, tick2, address2, bits2);
    }
  }

  /**
   * A cookie is accepted just when it was made for the same address and the same ClientHello, in this
   * interval or the one before, or HMAC collides on exactly the two inputs that were signed and are
   * checked.
   */
  lemma CookieMeaning(hmac: Hmac, key: Bytes, salt: Bytes, tick: nat, address: seq<Bytes>, bits: Bytes,
                      address2: seq<Bytes>, bits2: Bytes, now: real)
    requires |salt| == SALT_BYTES && now >= 0.0 && InRange(tick, address, bits) && InRange(Tick(now), address2, bits2)
    requires Fits(Before(Tick(now)), 8)
    requires forall d :: |hmac(key, d)| > 0
    ensures ValidCookie(hmac, key, MakeCookie(hmac, key, salt, tick, address, bits), address2, bits2, now) <==>
      (address2 == address && bits2 == bits && (tick == Tick(now) || tick == Before(Tick(now))))
      || Forged(hmac, key, salt, tick, address, bits, Tick(now), address2, bits2)
      || Forged(hmac, key, salt, tick, address, bits, Before(Tick(now)), address2, bits2)
  {
    hide MakeCookie, Forged;
    CookieSalt(hmac, key, salt, tick, address, bits);
    SameCookie(hmac, key, salt, tick, address, bits, Tick(now), address2, bits2);
    SameCookie(hmac, key, salt, tick, address, bits, Before(Tick(now)), address2, bits2);
  }

  lemma CookieSalt(hmac: Hmac, key: Bytes, salt: Bytes, tick: nat, address: seq<Bytes>, bits: Bytes)
    requires |salt| == SALT_BYTES && forall d :: |hmac(key, d)| > 0
    ensures var cookie := MakeCookie(hmac, key, salt, tick, address, bits);
      |cookie| > SALT_BYTES && cookie[..SALT_BYTES] == salt
  {
    assert |hmac(key, SignableOf(SignedFields(salt, tick, address, bits)))| > 0;
  }

  /**
   * For an HMAC that does not collide on the inputs at hand, a cookie is rejected for any other address
   * and any other ClientHello, and outside of its interval and the next.
   */
  lemma OthersRejected(hmac: Hmac, key: Bytes, salt: Bytes, tick: nat, address: seq<Bytes>, bits: Bytes,
                       address2: seq<Bytes>, bits2: Bytes, now: real)
    requires |salt| == SALT_BYTES && now >= 0.0 && InRange(tick, address, bits) && InRange(Tick(now), address2, bits2)
    requires Fits(Before(Tick(now)), 8)
    requires forall d :: |hmac(key, d)| > 0
    requires !Forged(hmac, key, salt, tick, address, bits, Tick(now), address2, bits2)
    requires !Forged(hmac, key, salt, tick, address, bits, Before(Tick(now)), address2, bits2)
    requires address2 != address || bits2 != bits || (tick != Tick(now) && tick != Before(Tick(now)))
    ensures !ValidCookie(hmac, key, MakeCookie(hmac, key, salt, tick, address, bits), address2, bits2, now)
  {
    CookieMeaning(hmac, key, salt, tick, address, bits, address2, bits2, now);
  }

  lemma TickFits(now: real)
    requires now >= 0.0 && now / COOKIE_REFRESH_INTERVAL < 18446744073709551616.0
    ensures Fits(Tick(now), 8) && Fits(Before(Tick(now)), 8)
  {
    FitsInEight(Tick(now));
    FitsInEight(Before(Tick(now)));
  }

  /**
   * A cookie handed out at `made` is accepted until thirty seconds later at least; from sixty seconds
   * later on it is accepted just if HMAC collides on the inputs for the two times, so never otherwise.
   */
  lemma CookieLifetime(hmac: Hmac, key: Bytes, salt: Bytes, made: real, address: seq<Bytes>, bits: Bytes, now: real)
    requires |salt| == SALT_BYTES && 0.0 <= made <= now && now / COOKIE_REFRESH_INTERVAL < 18446744073709551616.0
    requires InRange(0, address, bits) && forall d :: |hmac(key, d)| > 0
    ensures var cookie := MakeCookie(hmac, key, salt, Tick(made), address, bits);
      && (now <= made + COOKIE_REFRESH_INTERVAL ==> ValidCookie(hmac, key, cookie, address, bits, now))
      && (made + 2.0 * COOKIE_REFRESH_INTERVAL <= now ==>
            (ValidCookie(hmac, key, cookie, address, bits, now) <==>
              Forged(hmac, key, salt, Tick(made), address, bits, Tick(now), address, bits)
              || Forged(hmac, key, salt, Tick(made), address, bits, Before(Tick(now)), address, bits)))
  {
    hide MakeCookie, Forged, ValidCookie;
    TickFits(made);
    TickFits(now);
    CookieMeaning(hmac, key, salt, Tick(made), address, bits, address, bits, now);
    var a, b := made / COOKIE_REFRESH_INTERVAL, now / COOKIE_REFRESH_INTERVAL;
    assert now <= made + COOKIE_REFRESH_INTERVAL ==> b <= a + 1.0;
    assert made + 2.0 * COOKIE_REFRESH_INTERVAL <= now ==> a + 2.0 <= b;
  }

  // ---------- the challenge ----------

  const DTLS10: Bytes := [254, 255]

  /** `challenge_for`: the HelloVerifyRequest, for a salt drawn by the caller. */
  function ChallengeFor(hmac: Hmac, key: Bytes, address: seq<Bytes>, epochSeqno: nat, bits: Bytes, salt: Bytes, now: real): Bytes
    requires now >= 0.0
  {
    var cookie := MakeCookie(hmac, key, salt, Tick(now), address, bits);
    var body := DTLS10 + [|cookie|] + cookie;
    EncodeRecord(Record(HANDSHAKE, DTLS10, epochSeqno,
      EncodeFragment(Fragment(HELLO_VERIFY_REQUEST, |body|, 0, 0, |body|, body))))
  }

  /** The cookie that a client reads out of a HelloVerifyRequest. */
  function CookieOf(packet: Bytes): Result<Bytes> {
    match ParseRecord(packet)
    case Err(e) => Err(e)
    case Ok(r) =>
      match DecodeFragment(r.payload)
      case Err(e) => Err(e)
      case Ok(h) =>
        var size: int := if |h.frag| > 2 then h.frag[2] else 0;
        if h.msgType == HELLO_VERIFY_REQUEST && |h.frag| > 2 && |h.frag| == size + 3 then Ok(h.frag[3..]) else Err(BadPacket)
  }

  lemma ChallengeCarriesCookie(hmac: Hmac, key: Bytes, address: seq<Bytes>, epochSeqno: nat, bits: Bytes, salt: Bytes, now: real)
    requires now >= 0.0 && Fits(epochSeqno, 8)
    ensures CookieOf(ChallengeFor(hmac, key, address, epochSeqno, bits, salt, now)) ==
      Ok(MakeCookie(hmac, key, salt, Tick(now), address, bits))
  {
    hide EncodeRecord, EncodeFragment, ParseRecord, DecodeFragment, Fits, MakeCookie;
    var cookie := MakeCookie(hmac, key, salt, Tick(now), address, bits);
    CookieSize(hmac, key, salt, Tick(now), address, bits);
    var body := DTLS10 + [|cookie|] + cookie;
    var h := Fragment(HELLO_VERIFY_REQUEST, |body|, 0, 0, |body|, body);
    var r := Record(HANDSHAKE, DTLS10, epochSeqno, EncodeFragment(h));
    FitsBounds(|body|);
    FitsBounds(0);
    FitsBounds(|r.payload|);
    FragmentRoundTrip(h);
    RecordRoundTrip(r, []);
    assert EncodeRecord(r) + [] == EncodeRecord(r);
    assert body[2] == |cookie| && body[3..] == cookie;
  }

  lemma CookieSize(hmac: Hmac, key: Bytes, salt: Bytes, tick: nat, address: seq<Bytes>, bits: Bytes)
    ensures |MakeCookie(hmac, key, salt, tick, address, bits)| <= COOKIE_LENGTH
  {
  }

  /**
   * The whole exchange: a client that answers the challenge within thirty seconds, with the same
   * ClientHello but for the cookie and the record and message numbers, is let in.
   */
  lemma ChallengeAnswered(hmac: Hmac, key: Bytes, address: seq<Bytes>, salt: Bytes, made: real, now: real,
                          version: Bytes, epochSeqno: nat, msgSeq: nat, before: Bytes, after: Bytes, rest: Bytes, first: Bytes)
    requires 0.0 <= made <= now <= made + COOKIE_REFRESH_INTERVAL && now / COOKIE_REFRESH_INTERVAL < 18446744073709551616.0
    requires |salt| == SALT_BYTES && forall d :: |hmac(key, d)| > 0
    requires DecodeClientHello(first).Ok? && DecodeClientHello(first).value.bits == before + after
    requires InRange(0, address, before + after)
    requires forall cookie :: |cookie| <= COOKIE_LENGTH ==> HelloFits(version, epochSeqno, msgSeq, before, cookie, after)
    ensures Fits(DecodeClientHello(first).value.epochSeqno, 8)
    ensures var hello := DecodeClientHello(first).value;
      var answer := CookieOf(ChallengeFor(hmac, key, address, hello.epochSeqno, hello.bits, salt, made));
      && answer.Ok? && |answer.value| < 256
      && var second := DecodeClientHello(ClientHello(version, epochSeqno, msgSeq, before, answer.value, after, rest));
      && second.Ok? && ValidCookie(hmac, key, second.value.cookie, address, second.value.bits, now)
  {
    hide EncodeRecord, EncodeFragment, ParseRecord, DecodeFragment, MakeCookie, ValidCookie, ClientHello, DecodeClientHello, ChallengeFor, CookieOf;
    var hello := DecodeClientHello(first).value;
    var v, m, b, a, r := DecodedClientHello(first);
    ChallengeCarriesCookie(hmac, key, address, hello.epochSeqno, hello.bits, salt, made);
    var cookie := MakeCookie(hmac, key, salt, Tick(made), address, hello.bits);
    CookieSize(hmac, key, salt, Tick(made), address, hello.bits);
    ClientHelloDecoded(version, epochSeqno, msgSeq, before, cookie, after, rest);
    CookieLifetime(hmac, key, salt, made, address, hello.bits, now);
  }
}
