/** Fixed-width little-endian encoding of the fields a rebalance proof commits to. */
module Encoding {
  import opened Checked

  /** The fifteen hashed fields, in hashing order. */
  datatype Link = Link(
    prevHash: Bytes32, config: Key, sequence: u64, slot: u64, price: i64, conf: u64, expo: i32,
    publishTime: i64, collateralNotional: u64, hedgedNotional: u64, deltaBefore: i32, deltaAfter: i32,
    venueId: u8, venuesHash: Bytes32, keeper: Key)

  function LittleEndian(n: nat, width: nat): (bytes: seq<u8>)
    ensures |bytes| == width
  {
    if width == 0 then [] else [n % 256] + LittleEndian(n / 256, width - 1)
  }

  function FromLittleEndian(bytes: seq<u8>): nat {
    if bytes == [] then 0 else bytes[0] + 256 * FromLittleEndian(bytes[1..])
  }

  function Base256(width: nat): nat {
    if width == 0 then 1 else 256 * Base256(width - 1)
  }

  /** Decoding an encoded number of the right width gives the number back. */
  lemma {:induction false} LittleEndianRoundTrip(n: nat, width: nat)
    requires n < Base256(width)
    ensures FromLittleEndian(LittleEndian(n, width)) == n
  {
    if width > 0 {
      LittleEndianRoundTrip(n / 256, width - 1);
      assert LittleEndian(n, width)[1..] == LittleEndian(n / 256, width - 1);
    }
  }

  /** Two's complement, the byte image of a signed integer. */
  function Unsigned(x: int, modulus: nat): int {
    if x < 0 then x + modulus else x
  }

  const MOD_32: nat := 0x1_0000_0000
  const MOD_64: nat := 0x1_0000_0000_0000_0000

  function Numbers64(n: u64): seq<u8> {
    LittleEndian(n, 8)
  }

  function Signed64(x: i64): seq<u8> {
    LittleEndian(Unsigned(x, MOD_64), 8)
  }

  function Signed32(x: i32): seq<u8> {
    LittleEndian(Unsigned(x, MOD_32), 4)
  }

  lemma Widths()
    ensures Base256(4) == MOD_32
    ensures Base256(8) == MOD_64
  {
    assert Base256(4) == 256 * (256 * (256 * (256 * Base256(0))));
    assert Base256(8) == 256 * (256 * (256 * (256 * Base256(4))));
  }

  lemma Numbers64Injective(a: u64, b: u64)
    requires Numbers64(a) == Numbers64(b)
    ensures a == b
  {
    Widths();
    LittleEndianRoundTrip(a, 8);
    LittleEndianRoundTrip(b, 8);
  }

  lemma Signed64Injective(a: i64, b: i64)
    requires Signed64(a) == Signed64(b)
    ensures a == b
  {
    Widths();
    LittleEndianRoundTrip(Unsigned(a, MOD_64), 8);
    LittleEndianRoundTrip(Unsigned(b, MOD_64), 8);
  }

  lemma Signed32Injective(a: i32, b: i32)
    requires Signed32(a) == Signed32(b)
    ensures a == b
  {
    Widths();
    LittleEndianRoundTrip(Unsigned(a, MOD_32), 4);
    LittleEndianRoundTrip(Unsigned(b, MOD_32), 4);
  }

  function Fields(l: Link): seq<seq<u8>> {
    [ l.prevHash, l.config.bytes, Numbers64(l.sequence), Numbers64(l.slot), Signed64(l.price),
      Numbers64(l.conf), Signed32(l.expo), Signed64(l.publishTime), Numbers64(l.collateralNotional),
      Numbers64(l.hedgedNotional), Signed32(l.deltaBefore), Signed32(l.deltaAfter), [l.venueId],
      l.venuesHash, l.keeper.bytes ]
  }

  function Concat(parts: seq<seq<u8>>): seq<u8> {
    if parts == [] then [] else parts[0] + Concat(parts[1..])
  }

  /** The bytes handed to the hash. */
  function Preimage(l: Link): seq<u8> {
    Concat(Fields(l))
  }

  /** A concatenation of parts of known widths determines the parts. */
  lemma {:induction false} ConcatInjective(a: seq<seq<u8>>, b: seq<seq<u8>>)
    requires |a| == |b| && forall i :: 0 <= i < |a| ==> |a[i]| == |b[i]|
    requires Concat(a) == Concat(b)
    ensures a == b
  {
    if a != [] {
      var x, y := Concat(a), Concat(b);
      assert x[..|a[0]|] == a[0] && x[|a[0]|..] == Concat(a[1..]);
      assert y[..|b[0]|] == b[0] && y[|b[0]|..] == Concat(b[1..]);
      ConcatInjective(a[1..], b[1..]);
      assert a == [a[0]] + a[1..] && b == [b[0]] + b[1..];
    }
  }

  function TotalWidth(parts: seq<seq<u8>>): nat {
    if parts == [] then 0 else |parts[0]| + TotalWidth(parts[1..])
  }

  lemma {:induction false} ConcatWidth(parts: seq<seq<u8>>)
    ensures |Concat(parts)| == TotalWidth(parts)
  {
    if parts != [] {
      ConcatWidth(parts[1..]);
    }
  }

  lemma ThreeWidths(parts: seq<seq<u8>>)
    requires |parts| >= 3
    ensures TotalWidth(parts) == |parts[0]| + |parts[1]| + |parts[2]| + TotalWidth(parts[3..])
  {
    assert parts[1..][1..] == parts[2..] && parts[2..][1..] == parts[3..];
    assert TotalWidth(parts[1..]) == |parts[1]| + TotalWidth(parts[2..]);
  }

  /** Every preimage is 197 bytes long. */
  lemma PreimageWidth(l: Link)
    ensures |Preimage(l)| == 197
  {
    var x: seq<seq<u8>> := Fields(l);
    ConcatWidth(x);
    ThreeWidths(x);
    ThreeWidths(x[3..]);
    ThreeWidths(x[6..]);
    ThreeWidths(x[9..]);
    ThreeWidths(x[12..]);
    assert x[3..][3..] == x[6..] && x[6..][3..] == x[9..] && x[9..][3..] == x[12..];
    assert x[12..][3..] == x[15..];
  }

  /** Two proofs with the same preimage agree on every hashed field. */
  lemma PreimageInjective(a: Link, b: Link)
    requires Preimage(a) == Preimage(b)
    ensures a == b
  {
    var x, y := Fields(a), Fields(b);
    ConcatInjective(x, y);
    assert x[0] == y[0] && x[1] == y[1] && x[12] == y[12] && x[13] == y[13] && x[14] == y[14];
    assert x[2] == y[2] && x[3] == y[3] && x[5] == y[5] && x[8] == y[8] && x[9] == y[9];
    assert x[4] == y[4] && x[7] == y[7] && x[6] == y[6] && x[10] == y[10] && x[11] == y[11];
    Numbers64Injective(a.sequence, b.sequence);
    Numbers64Injective(a.slot, b.slot);
    Numbers64Injective(a.conf, b.conf);
    Numbers64Injective(a.collateralNotional, b.collateralNotional);
    Numbers64Injective(a.hedgedNotional, b.hedgedNotional);
    Signed64Injective(a.price, b.price);
    Signed64Injective(a.publishTime, b.publishTime);
    Signed32Injective(a.expo, b.expo);
    Signed32Injective(a.deltaBefore, b.deltaBefore);
    Signed32Injective(a.deltaAfter, b.deltaAfter);
  }
}
