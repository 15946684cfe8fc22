/** Byte strings and big-endian integers, as `struct` and `int.from_bytes` handle them. */
module ByteStrings {
  type Byte = b: int | 0 <= b < 256

  type Bytes = seq<Byte>

  /** The last `width` bytes of a number, most significant first. */
  function BigEndian(n: nat, width: nat): (b: Bytes)
    ensures |b| == width
  {
    if width == 0 then [] else BigEndian(n / 256, width - 1) + [n % 256]
  }

  function FromBigEndian(b: Bytes): nat {
    if b == [] then 0 else FromBigEndian(b[..|b| - 1]) * 256 + b[|b| - 1]
  }

  /** The number can be written in so many bytes. */
  predicate Fits(n: nat, width: nat) {
    if width == 0 then n == 0 else Fits(n / 256, width - 1)
  }

  lemma {:induction false} FromTo(n: nat, width: nat)
    requires Fits(n, width)
    ensures FromBigEndian(BigEndian(n, width)) == n
  {
    if width > 0 {
      FromTo(n / 256, width - 1);
      var b := BigEndian(n, width);
      assert b[..|b| - 1] == BigEndian(n / 256, width - 1);
    }
  }

  lemma {:induction false} ToFrom(b: Bytes)
    ensures Fits(FromBigEndian(b), |b|) && BigEndian(FromBigEndian(b), |b|) == b
  {
    if b != [] {
      var n, high := FromBigEndian(b), FromBigEndian(b[..|b| - 1]);
      assert n / 256 == high && n % 256 == b[|b| - 1];
      ToFrom(b[..|b| - 1]);
    }
  }

  lemma FitsBounds(n: nat)
    ensures Fits(n, 1) <==> n < 0x100
    ensures Fits(n, 2) <==> n < 0x1_0000
    ensures Fits(n, 3) <==> n < 0x100_0000
  {
    assert Fits(n / 256, 0) <==> n < 256;
    assert Fits(n / 256, 1) <==> Fits(n / 256 / 256, 0);
    assert Fits(n / 256, 2) == Fits(n / 256 / 256, 1) == Fits(n / 256 / 256 / 256, 0);
  }

  lemma FitsInEight(n: nat)
    ensures Fits(n, 8) <==> n < 0x1_0000_0000_0000_0000
  {
    var n1 := n / 256;
    var n2 := n1 / 256;
    var n3 := n2 / 256;
    var n4 := n3 / 256;
    var n5 := n4 / 256;
    FitsBounds(n5);
    assert Fits(n, 8) == Fits(n1, 7) == Fits(n2, 6) == Fits(n3, 5) == Fits(n4, 4) == Fits(n5, 3);
  }

  function Flat(parts: seq<Bytes>): Bytes {
    if parts == [] then [] else Flat(parts[..|parts| - 1]) + parts[|parts| - 1]
  }
}
