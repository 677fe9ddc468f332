/**
 * The checkpoint content hash: the FNV-1a fold on 64-bit words
 * (`md5_like_hash` of wacp/crates/wacp-coordinator/src/handler.rs).
 */
module Fingerprint {
  import opened Words

  const OFFSET: U64 := 0xcbf29ce484222325
  const PRIME: nat := 0x100000001b3

  /** The inverse of PRIME modulo 2^64. */
  const INVERSE: nat := 0xce965057aff6957b

  /** Exclusive or of the low `n` bits, bit by bit. */
  function Xor(a: nat, b: nat, n: nat): (x: nat)
    ensures x < Pow2(n)
  {
    if n == 0 then 0 else 2 * Xor(a / 2, b / 2, n - 1) + (a + b) % 2
  }

  lemma Pow2Is64()
    ensures Pow2(64) == WORD && Pow2(8) == 256
  {
    assert Pow2(6) == 64;
    Pow2Adds(8, 8);
    Pow2Adds(16, 16);
    Pow2Adds(32, 32);
  }

  lemma {:induction false} Pow2Adds(m: nat, n: nat)
    ensures Pow2(m + n) == Pow2(m) * Pow2(n)
  {
    if m > 0 {
      Pow2Adds(m - 1, n);
    }
  }

  /** `wrapping_mul(PRIME)`. */
  function TimesPrime(x: U64): U64 {
    x * PRIME % WORD
  }

  /** One byte of the fold. */
  function Step(h: U64, b: U8): U64 {
    Pow2Is64();
    TimesPrime(Xor(h, b, 64))
  }

  function Fold(h: U64, data: seq<U8>): U64 {
    if data == [] then h else Step(Fold(h, data[..|data| - 1]), data[|data| - 1])
  }

  method Hash(data: seq<U8>) returns (h: U64)
    ensures h == Fold(OFFSET, data)
  {
    h := OFFSET;
    Pow2Is64();
    for i := 0 to |data|
      invariant h == Fold(OFFSET, data[..i])
    {
      assert data[..i + 1][..i] == data[..i];
      h := Xor(h, data[i], 64);
      h := TimesPrime(h);
    }
    assert data[..|data|] == data;
  }

  /** Multiplying by the inverse undoes the multiplication by PRIME. */
  lemma MultiplicationUndone(x: U64)
    ensures TimesPrime(x) * INVERSE % WORD == x
  {
    var k := x * PRIME / WORD;
    assert TimesPrime(x) == x * PRIME - k * WORD;
    var j := PRIME * INVERSE / WORD;
    assert PRIME * INVERSE == j * WORD + 1;
    assert TimesPrime(x) * INVERSE == x + (x * j - k * INVERSE) * WORD;
    AddingWords(x, x * j - k * INVERSE);
  }

  lemma AddingWords(x: U64, n: int)
    ensures (x + n * WORD) % WORD == x
  {
  }

  lemma XorBits(a: nat, b: nat, n: nat)
    requires n > 0
    ensures Xor(a, b, n) / 2 == Xor(a / 2, b / 2, n - 1)
    ensures Xor(a, b, n) % 2 == (a + b) % 2
  {
  }

  lemma ParityTwice(a: nat, b: nat, x: nat)
    requires x % 2 == (a + b) % 2
    ensures (x + b) % 2 == a % 2
  {
  }

  lemma HalvesAndParity(x: nat, y: nat)
    requires x / 2 == y / 2 && x % 2 == y % 2
    ensures x == y
  {
  }

  lemma {:induction false} XorUndone(a: nat, b: nat, n: nat)
    requires a < Pow2(n)
    ensures Xor(Xor(a, b, n), b, n) == a
  {
    if n > 0 {
      XorUndone(a / 2, b / 2, n - 1);
      var x := Xor(a, b, n);
      XorBits(a, b, n);
      XorBits(x, b, n);
      ParityTwice(a, b, x);
      HalvesAndParity(Xor(x, b, n), a);
    }
  }

  lemma {:induction false} XorCommutes(a: nat, b: nat, n: nat)
    ensures Xor(a, b, n) == Xor(b, a, n)
  {
    if n > 0 {
      XorCommutes(a / 2, b / 2, n - 1);
    }
  }

  /** A step can be undone: it is injective in the accumulator, and in the byte. */
  lemma StepInjective(h: U64, h': U64, b: U8, b': U8)
    ensures Step(h, b) == Step(h', b) ==> h == h'
    ensures Step(h, b) == Step(h, b') ==> b == b'
  {
    Pow2Is64();
    MultiplicationUndone(Xor(h, b, 64));
    MultiplicationUndone(Xor(h', b, 64));
    MultiplicationUndone(Xor(h, b', 64));
    XorUndone(h, b, 64);
    XorUndone(h', b, 64);
    XorCommutes(h, b, 64);
    XorCommutes(h, b', 64);
    XorUndone(b, h, 64);
    XorUndone(b', h, 64);
  }

  /** Different accumulators stay different whatever bytes follow. */
  lemma {:induction false} FoldInjective(h: U64, h': U64, data: seq<U8>)
    requires h != h'
    ensures Fold(h, data) != Fold(h', data)
  {
    if data != [] {
      var n := |data| - 1;
      FoldInjective(h, h', data[..n]);
      StepInjective(Fold(h, data[..n]), Fold(h', data[..n]), data[n], data[n]);
    }
  }

  lemma {:induction false} FoldConcat(h: U64, a: seq<U8>, b: seq<U8>)
    ensures Fold(h, a + b) == Fold(Fold(h, a), b)
  {
    if b == [] {
      assert a + b == a;
    } else {
      var n := |b| - 1;
      FoldConcat(h, a, b[..n]);
      assert (a + b)[..|a| + n] == a + b[..n];
    }
  }

  /** Payloads of equal length that differ in exactly one byte have different hashes. */
  lemma OneByteApart(before: seq<U8>, b: U8, b': U8, after: seq<U8>)
    requires b != b'
    ensures Fold(OFFSET, before + [b] + after) != Fold(OFFSET, before + [b'] + after)
  {
    var h := Fold(OFFSET, before);
    FoldConcat(OFFSET, before + [b], after);
    FoldConcat(OFFSET, before + [b'], after);
    FoldConcat(OFFSET, before, [b]);
    FoldConcat(OFFSET, before, [b']);
    assert [b][..0] == [] && [b'][..0] == [];
    StepInjective(h, h, b, b');
    FoldInjective(Step(h, b), Step(h, b'), after);
  }

  /** Payloads that share a prefix and a suffix collide exactly if their middles already do. */
  lemma CollisionsComeFromTheMiddle(before: seq<U8>, x: seq<U8>, y: seq<U8>, after: seq<U8>)
    ensures Fold(OFFSET, before + x + after) == Fold(OFFSET, before + y + after)
      <==> Fold(Fold(OFFSET, before), x) == Fold(Fold(OFFSET, before), y)
  {
    FoldConcat(OFFSET, before + x, after);
    FoldConcat(OFFSET, before + y, after);
    FoldConcat(OFFSET, before, x);
    FoldConcat(OFFSET, before, y);
    var hx, hy := Fold(Fold(OFFSET, before), x), Fold(Fold(OFFSET, before), y);
    if hx != hy {
      FoldInjective(hx, hy, after);
    }
  }
}
