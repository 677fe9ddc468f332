/**
 * Opaque pagination cursors: unpadded base64url (section 5 of RFC 4648) of a
 * UTF-8 sort key (wacp-console/crates/console-api/src/pagination.rs). Text is
 * its UTF-8 bytes.
 */
module Cursors {
  import opened Options
  import opened Lexicographic

  type Sextet = x: nat | x < 64

  /** The base64url alphabet: A-Z, a-z, 0-9, '-', '_'. */
  function Symbol(v: Sextet): Byte {
    if v < 26 then 65 + v
    else if v < 52 then 97 + (v - 26)
    else if v < 62 then 48 + (v - 52)
    else if v == 62 then 45
    else 95
  }

  function SymbolValue(c: Byte): Option<Sextet> {
    if 65 <= c < 91 then Some(c - 65)
    else if 97 <= c < 123 then Some(c - 97 + 26)
    else if 48 <= c < 58 then Some(c - 48 + 52)
    else if c == 45 then Some(62)
    else if c == 95 then Some(63)
    else None
  }

  lemma SymbolsRoundTrip(v: Sextet, c: Byte)
    ensures SymbolValue(Symbol(v)) == Some(v)
    ensures SymbolValue(c).Some? ==> Symbol(SymbolValue(c).value) == c
  {
  }

  /** Three bytes to four sextets; one or two last bytes to two or three. */
  function Pack(b: seq<Byte>): seq<Sextet> {
    if b == [] then []
    else if |b| == 1 then [b[0] / 4, b[0] % 4 * 16]
    else if |b| == 2 then [b[0] / 4, b[0] % 4 * 16 + b[1] / 16, b[1] % 16 * 4]
    else Quad(b[0], b[1], b[2]) + Pack(b[3..])
  }

  function Quad(x: Byte, y: Byte, z: Byte): seq<Sextet> {
    [x / 4, x % 4 * 16 + y / 16, y % 16 * 4 + z / 64, z % 64]
  }

  function First(x: nat, y: nat): nat { x * 4 + y / 16 }

  function Second(y: nat, z: nat): nat { y % 16 * 16 + z / 4 }

  function Third(z: nat, w: nat): nat { z % 4 * 64 + w }

  /** Sextets to bytes; a lone last sextet or non-zero spare bits are refused. */
  function Unpack(v: seq<Sextet>): Option<seq<Byte>> {
    if v == [] then Some([])
    else if |v| == 1 then None
    else if |v| == 2 then if v[1] % 16 == 0 then Some([First(v[0], v[1])]) else None
    else if |v| == 3 then if v[2] % 4 == 0 then Some([First(v[0], v[1]), Second(v[1], v[2])]) else None
    else
      var rest := Unpack(v[4..]);
      if rest.None? then None
      else Some(Trio(v[0], v[1], v[2], v[3]) + rest.value)
  }

  function Trio(x: Sextet, y: Sextet, z: Sextet, w: Sextet): seq<Byte> {
    [First(x, y), Second(y, z), Third(z, w)]
  }

  function Symbols(v: seq<Sextet>): seq<Byte> {
    if v == [] then [] else [Symbol(v[0])] + Symbols(v[1..])
  }

  /** The values of all symbols, unless one is outside the alphabet. */
  function Values(s: seq<Byte>): Option<seq<Sextet>> {
    if s == [] then Some([])
    else if SymbolValue(s[0]).None? || Values(s[1..]).None? then None
    else Some([SymbolValue(s[0]).value] + Values(s[1..]).value)
  }

  function Encode(b: seq<Byte>): seq<Byte> {
    Symbols(Pack(b))
  }

  function Decode(s: seq<Byte>): Option<seq<Byte>> {
    var v := Values(s);
    if v.None? then None else Unpack(v.value)
  }

  lemma {:induction false} ValuesOfSymbols(v: seq<Sextet>)
    ensures Values(Symbols(v)) == Some(v)
  {
    if v != [] {
      ValuesOfSymbols(v[1..]);
      assert Symbols(v)[1..] == Symbols(v[1..]);
      SymbolsRoundTrip(v[0], 0);
      assert v == [v[0]] + v[1..];
    }
  }

  lemma {:induction false} SymbolsOfValues(s: seq<Byte>)
    requires Values(s).Some?
    ensures Symbols(Values(s).value) == s
  {
    if s != [] {
      SymbolsOfValues(s[1..]);
      assert Values(s).value[1..] == Values(s[1..]).value;
      SymbolsRoundTrip(0, s[0]);
    }
  }

  lemma QuadFirst(x: Byte, y: Byte, z: Byte)
    ensures var q := Quad(x, y, z); First(q[0], q[1]) == x
  {
  }

  lemma QuadSecond(x: Byte, y: Byte, z: Byte)
    ensures var q := Quad(x, y, z); Second(q[1], q[2]) == y
  {
    LowPart(x % 4, y / 16);
    HighPart(y % 16, z / 64);
  }

  lemma LowPart(a: nat, b: nat)
    requires b < 16
    ensures (a * 16 + b) % 16 == b
  {
  }

  lemma HighPart(a: nat, b: nat)
    requires b < 4
    ensures (a * 4 + b) / 4 == a
  {
  }

  lemma QuadThird(x: Byte, y: Byte, z: Byte)
    ensures var q := Quad(x, y, z); Third(q[2], q[3]) == z
  {
  }

  lemma UnpackFour(q: seq<Sextet>, v: seq<Sextet>)
    requires |q| == 4 && Unpack(v).Some?
    ensures Unpack(q + v) == Some(Trio(q[0], q[1], q[2], q[3]) + Unpack(v).value)
  {
    assert (q + v)[4..] == v;
  }

  lemma UnpackQuad(x: Byte, y: Byte, z: Byte, v: seq<Sextet>)
    requires Unpack(v).Some?
    ensures Unpack(Quad(x, y, z) + v) == Some([x, y, z] + Unpack(v).value)
  {
    QuadFirst(x, y, z);
    QuadSecond(x, y, z);
    QuadThird(x, y, z);
    UnpackFour(Quad(x, y, z), v);
  }

  lemma {:induction false} UnpackPack(b: seq<Byte>)
    ensures Unpack(Pack(b)) == Some(b)
  {
    if |b| == 1 {
      QuadFirst(b[0], 0, 0);
      assert b == [b[0]];
    } else if |b| == 2 {
      QuadFirst(b[0], b[1], 0);
      QuadSecond(b[0], b[1], 0);
      assert b == [b[0], b[1]];
    } else if |b| > 2 {
      UnpackPack(b[3..]);
      UnpackQuad(b[0], b[1], b[2], Pack(b[3..]));
      assert b == [b[0], b[1], b[2]] + b[3..];
    }
  }

  lemma BytesSplit(x: Sextet, y: Sextet, z: Sextet, w: Sextet)
    ensures First(x, y) / 4 == x && First(x, y) % 4 == y / 16
    ensures Second(y, z) / 16 == y % 16 && Second(y, z) % 16 == z / 4
    ensures Third(z, w) / 64 == z % 4 && Third(z, w) % 64 == w
  {
  }

  lemma SextetsRegroup(x: Sextet, y: Sextet, z: Sextet, w: Sextet)
    ensures Quad(First(x, y), Second(y, z), Third(z, w)) == [x, y, z, w]
    ensures y % 16 == 0 ==> First(x, y) / 4 == x && First(x, y) % 4 * 16 == y
    ensures z % 4 == 0 ==>
      && First(x, y) / 4 == x && First(x, y) % 4 * 16 + Second(y, z) / 16 == y
      && Second(y, z) % 16 * 4 == z
  {
    BytesSplit(x, y, z, w);
    assert y / 16 * 16 + y % 16 == y && z / 4 * 4 + z % 4 == z;
  }

  lemma PackTrio(x: Sextet, y: Sextet, z: Sextet, w: Sextet, b: seq<Byte>)
    ensures Pack(Trio(x, y, z, w) + b) == [x, y, z, w] + Pack(b)
  {
    SextetsRegroup(x, y, z, w);
    assert (Trio(x, y, z, w) + b)[3..] == b;
  }

  lemma {:induction false} PackUnpack(v: seq<Sextet>)
    requires Unpack(v).Some?
    ensures Pack(Unpack(v).value) == v
  {
    if |v| == 2 {
      SextetsRegroup(v[0], v[1], 0, 0);
    } else if |v| == 3 {
      SextetsRegroup(v[0], v[1], v[2], 0);
    } else if |v| > 3 {
      PackUnpack(v[4..]);
      PackTrio(v[0], v[1], v[2], v[3], Unpack(v[4..]).value);
      assert v == [v[0], v[1], v[2], v[3]] + v[4..];
    }
  }

  /** Decoding undoes encoding. */
  lemma DecodeEncode(b: seq<Byte>)
    ensures Decode(Encode(b)) == Some(b)
  {
    ValuesOfSymbols(Pack(b));
    UnpackPack(b);
  }

  /** Every accepted cursor is the encoding of what it decodes to: no two cursors mean the same key. */
  lemma EncodeDecode(s: seq<Byte>)
    requires Decode(s).Some?
    ensures Encode(Decode(s).value) == s
  {
    PackUnpack(Values(s).value);
    SymbolsOfValues(s);
  }

  // UTF-8 (section 4 of RFC 3629)

  predicate Tail(b: Byte) {
    0x80 <= b < 0xC0
  }

  /** The length of the well-formed character that `b` starts with, or 0. */
  function CharLength(b: seq<Byte>): nat {
    if b == [] then 0
    else if b[0] < 0x80 then 1
    else if |b| >= 2 && 0xC2 <= b[0] < 0xE0 && Tail(b[1]) then 2
    else if |b| >= 3 && Tail(b[1]) && Tail(b[2])
            && (  (b[0] == 0xE0 && b[1] >= 0xA0)
               || 0xE1 <= b[0] < 0xED
               || (b[0] == 0xED && b[1] < 0xA0)
               || 0xEE <= b[0] < 0xF0) then 3
    else if |b| >= 4 && Tail(b[1]) && Tail(b[2]) && Tail(b[3])
            && (  (b[0] == 0xF0 && b[1] >= 0x90)
               || 0xF1 <= b[0] < 0xF4
               || (b[0] == 0xF4 && b[1] < 0x90)) then 4
    else 0
  }

  predicate ValidUtf8(b: seq<Byte>) {
    b == [] || (0 < CharLength(b) <= |b| && ValidUtf8(b[CharLength(b)..]))
  }

  type Text = b: seq<Byte> | ValidUtf8(b)

  lemma {:induction false} AsciiIsUtf8(b: seq<Byte>)
    requires forall i :: 0 <= i < |b| ==> b[i] < 0x80
    ensures ValidUtf8(b)
  {
    if b != [] {
      AsciiIsUtf8(b[1..]);
    }
  }

  lemma {:induction false} SymbolsAreAscii(v: seq<Sextet>)
    ensures forall i :: 0 <= i < |Symbols(v)| ==> Symbols(v)[i] < 0x80
  {
    if v != [] {
      SymbolsAreAscii(v[1..]);
    }
  }

  /** `encode_cursor`. */
  function EncodeCursor(key: Text): Text {
    SymbolsAreAscii(Pack(key));
    AsciiIsUtf8(Encode(key));
    Encode(key)
  }

  /** `decode_cursor`: absent, malformed or non-UTF-8 cursors all count as none. */
  function DecodeCursor(cursor: Option<Text>): Option<Text> {
    if cursor.None? then None
    else
      var bytes := Decode(cursor.value);
      if bytes.Some? && ValidUtf8(bytes.value) then Some(bytes.value) else None
  }

  /** A cursor leads back to its key. */
  lemma CursorRoundTrip(key: Text)
    ensures DecodeCursor(Some(EncodeCursor(key))) == Some(key)
  {
    DecodeEncode(key);
  }
}
