/**
 * The 80-bit hybrid-logical-clock timestamp and its 10-byte encoding
 * (wacp/crates/wacp-clock/src/timestamp.rs).
 */
module Timestamps {
  import opened Options
  import opened Lexicographic
  import opened Words

  const U16_MAX: U16 := 65535

  datatype Timestamp = Timestamp(physical: U64, logical: U16)

  const ZERO := Timestamp(0, 0)
  const MAX := Timestamp(0xFFFF_FFFF_FFFF_FFFF, U16_MAX)

  datatype Ordering = Less | Equal | Greater

  function CmpNat(a: nat, b: nat): Ordering {
    if a < b then Less else if a == b then Equal else Greater
  }

  /** `Ord::cmp`: physical time first, then the counter. */
  function Cmp(a: Timestamp, b: Timestamp): Ordering {
    match CmpNat(a.physical, b.physical)
    case Equal => CmpNat(a.logical, b.logical)
    case o => o
  }

  /** The timestamp read as one 80-bit number. */
  function Number(t: Timestamp): nat {
    t.physical * 0x1_0000 + t.logical
  }

  lemma CmpIsNumeric(a: Timestamp, b: Timestamp)
    ensures Cmp(a, b) == CmpNat(Number(a), Number(b))
    ensures Number(a) == Number(b) <==> a == b
  {
  }

  // Big-endian numbers

  function Pow256(n: nat): nat {
    if n == 0 then 1 else 256 * Pow256(n - 1)
  }

  lemma Pow256Values()
    ensures Pow256(2) == 0x1_0000 && Pow256(8) == 0x1_0000_0000_0000_0000
  {
    assert Pow256(4) == 0x1_0000_0000;
    assert Pow256(6) == 0x1_0000_0000_0000;
  }

  /** `to_be_bytes` of an n-byte number: the least significant byte comes last. */
  function BigEndian(x: nat, n: nat): (bytes: seq<Byte>)
    requires x < Pow256(n)
    ensures |bytes| == n
  {
    if n == 0 then [] else BigEndian(x / 256, n - 1) + [x % 256]
  }

  /** `from_be_bytes`. */
  function Value(bytes: seq<Byte>): (x: nat)
    ensures x < Pow256(|bytes|)
  {
    if bytes == [] then 0 else Value(bytes[..|bytes| - 1]) * 256 + bytes[|bytes| - 1]
  }

  lemma {:induction false} ValueOfBigEndian(x: nat, n: nat)
    requires x < Pow256(n)
    ensures Value(BigEndian(x, n)) == x
  {
    if n > 0 {
      ValueOfBigEndian(x / 256, n - 1);
      assert BigEndian(x, n)[..n - 1] == BigEndian(x / 256, n - 1);
    }
  }

  lemma {:induction false} BigEndianOfValue(bytes: seq<Byte>)
    ensures BigEndian(Value(bytes), |bytes|) == bytes
  {
    if bytes != [] {
      var front, last := bytes[..|bytes| - 1], bytes[|bytes| - 1];
      BigEndianOfValue(front);
      assert Value(bytes) / 256 == Value(front) && Value(bytes) % 256 == last;
      assert bytes == front + [last];
    }
  }

  /** Comparing one more byte at the end. */
  lemma {:induction false} LexSnoc(a: seq<nat>, b: seq<nat>, x: nat, y: nat)
    requires |a| == |b|
    ensures LexLess(a + [x], b + [y]) <==> LexLess(a, b) || (a == b && x < y)
  {
    if a == [] {
      assert a + [x] == [x] && b + [y] == [y];
    } else {
      LexSnoc(a[1..], b[1..], x, y);
      assert (a + [x])[1..] == a[1..] + [x] && (b + [y])[1..] == b[1..] + [y];
      assert a == [a[0]] + a[1..] && b == [b[0]] + b[1..];
    }
  }

  /** Two numbers of the same width compare as their bytes do. */
  lemma {:induction false} LexIsNumeric(a: seq<Byte>, b: seq<Byte>)
    requires |a| == |b|
    ensures LexLess(a, b) <==> Value(a) < Value(b)
    ensures a == b <==> Value(a) == Value(b)
  {
    if a != [] {
      var n := |a| - 1;
      LexIsNumeric(a[..n], b[..n]);
      LexSnoc(a[..n], b[..n], a[n], b[n]);
      assert a == a[..n] + [a[n]] && b == b[..n] + [b[n]];
    }
  }

  // The encoding

  function Encode(t: Timestamp): (bytes: seq<Byte>)
    ensures |bytes| == 10
  {
    Pow256Values();
    BigEndian(t.physical, 8) + BigEndian(t.logical, 2)
  }

  /** `copy_from_slice` into `buf` at `at`. */
  method CopyInto(buf: array<Byte>, at: nat, bytes: seq<Byte>)
    requires at + |bytes| <= buf.Length
    modifies buf
    ensures buf[..] == old(buf[..at]) + bytes + old(buf[at + |bytes|..])
  {
    for i := 0 to |bytes|
      invariant forall k :: 0 <= k < buf.Length ==>
        buf[k] == if at <= k < at + i then bytes[k - at] else old(buf[k])
    {
      buf[at + i] := bytes[i];
    }
  }

  /** `to_bytes`. */
  method ToBytes(t: Timestamp) returns (buf: array<Byte>)
    ensures fresh(buf) && buf[..] == Encode(t)
  {
    buf := new Byte[10](_ => 0);
    Pow256Values();
    CopyInto(buf, 0, BigEndian(t.physical, 8));
    CopyInto(buf, 8, BigEndian(t.logical, 2));
  }

  /** `from_bytes`. */
  function FromBytes(bytes: seq<Byte>): Timestamp
    requires |bytes| == 10
  {
    Pow256Values();
    Timestamp(Value(bytes[..8]), Value(bytes[8..]))
  }

  lemma EncodeThenDecode(t: Timestamp)
    ensures FromBytes(Encode(t)) == t
  {
    Pow256Values();
    var high, low := BigEndian(t.physical, 8), BigEndian(t.logical, 2);
    assert Encode(t)[..8] == high && Encode(t)[8..] == low;
    ValueOfBigEndian(t.physical, 8);
    ValueOfBigEndian(t.logical, 2);
  }

  lemma DecodeThenEncode(bytes: seq<Byte>)
    requires |bytes| == 10
    ensures Encode(FromBytes(bytes)) == bytes
  {
    BigEndianOfValue(bytes[..8]);
    BigEndianOfValue(bytes[8..]);
    assert bytes == bytes[..8] + bytes[8..];
  }

  /** The bytes of a timestamp are its 80-bit number. */
  lemma EncodeIsNumber(t: Timestamp)
    ensures Value(Encode(t)) == Number(t)
  {
    Pow256Values();
    var high, low := BigEndian(t.physical, 8), BigEndian(t.logical, 2);
    assert Encode(t)[..9][..8] == high && Encode(t)[..9] == high + [low[0]];
    assert low[..1] == [low[0]] && low[..0] == [];
    ValueOfBigEndian(t.physical, 8);
    ValueOfBigEndian(t.logical, 2);
  }

  /** Byte order is timestamp order. */
  lemma EncodingKeepsOrder(a: Timestamp, b: Timestamp)
    ensures LexLess(Encode(a), Encode(b)) <==> Cmp(a, b) == Less
    ensures Encode(a) == Encode(b) <==> Cmp(a, b) == Equal
  {
    EncodeIsNumber(a);
    EncodeIsNumber(b);
    LexIsNumeric(Encode(a), Encode(b));
    CmpIsNumeric(a, b);
  }

  /** `succ`; `None` where `physical_us + 1` overflows. */
  function Succ(t: Timestamp): Option<Timestamp> {
    if t.logical == U16_MAX then
      if t.physical == MAX.physical then None else Some(Timestamp(t.physical + 1, 0))
    else Some(Timestamp(t.physical, t.logical + 1))
  }

  /** `succ` is the least timestamp above `t`, and overflows only at the greatest. */
  lemma SuccIsNext(t: Timestamp)
    ensures Succ(t).None? <==> t == MAX
    ensures Succ(t).None? ==> forall u: Timestamp :: Cmp(t, u) != Less
    ensures Succ(t).Some? ==>
      && Number(Succ(t).value) == Number(t) + 1
      && Cmp(t, Succ(t).value) == Less
      && forall u: Timestamp :: Cmp(t, u) == Less ==> Cmp(Succ(t).value, u) != Greater
  {
  }
}
