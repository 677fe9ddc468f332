/** Machine words as bounded numbers, and powers of two. */
module Words {
  const WORD: nat := 0x1_0000_0000_0000_0000

  type U64 = x: nat | x < WORD
  type U32 = x: nat | x < 0x1_0000_0000
  type U16 = x: nat | x < 0x1_0000
  type U8 = x: nat | x < 256

  function Pow2(n: nat): (p: nat)
    ensures p >= 1
  {
    if n == 0 then 1 else 2 * Pow2(n - 1)
  }
}
