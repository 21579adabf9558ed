/** Go's int64 arithmetic, written out over unbounded integers. */
module Int64 {

  const TWO_62: int := 0x4000_0000_0000_0000
  const TWO_63: int := 0x8000_0000_0000_0000
  const TWO_64: int := 0x1_0000_0000_0000_0000

  // The value an int64 holds after wrap-around.
  function Wrap64(x: int): int {
    (x + TWO_63) % TWO_64 - TWO_63
  }

  // It is the one int64 that differs from x by a multiple of 2^64.
  lemma WrapIsInt64(x: int)
    ensures -TWO_63 <= Wrap64(x) < TWO_63 && (x - Wrap64(x)) % TWO_64 == 0
    ensures -TWO_63 <= x < TWO_63 ==> Wrap64(x) == x
  {
    var q := (x + TWO_63) / TWO_64;
    assert x - Wrap64(x) == q * TWO_64;
  }

  function Lesser(a: int, b: int): int {
    if a < b then a else b
  }

  function Pow2(k: nat): (r: int)
    ensures r >= 1
  {
    if k == 0 then 1 else 2 * Pow2(k - 1)
  }

  lemma {:induction false} Pow2Adds(a: nat, b: nat)
    ensures Pow2(a + b) == Pow2(a) * Pow2(b)
  {
    if a > 0 {
      Pow2Adds(a - 1, b);
    }
  }

  lemma Pow2Of16()
    ensures Pow2(14) == 0x4000 && Pow2(16) == 0x1_0000
  {
    assert Pow2(7) == 128 && Pow2(8) == 256;
    Pow2Adds(7, 7);
    Pow2Adds(8, 8);
  }

  lemma Pow2Words()
    ensures Pow2(62) == TWO_62 && Pow2(63) == TWO_63 && Pow2(64) == TWO_64
  {
    Pow2Of16();
    Pow2Adds(16, 16);
    Pow2Adds(16, 14);
    Pow2Adds(32, 30);
  }
}
