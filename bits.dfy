/**
 * Python's integer bit operations, restricted to the non-negative operands the
 * controller uses: `x << n`, `x >> n` and `x & y`.
 */
module Bits {

  /** A value that fits one byte on the SPI bus. */
  type Byte = b: int | 0 <= b < 256

  /** 2 to the power n. */
  function Pow2(n: nat): (p: nat)
    ensures p >= 1
  {
    if n == 0 then 1 else 2 * Pow2(n - 1)
  }

  lemma Pow2Values()
    ensures Pow2(2) == 4 && Pow2(4) == 16 && Pow2(8) == 256
  {
  }

  /** `x << n`. */
  function ShiftLeft(x: int, n: nat): int
  {
    x * Pow2(n)
  }

  /** `x >> n`: Python shifts floor, and so does `/` by a positive divisor. */
  function ShiftRight(x: int, n: nat): int
  {
    x / Pow2(n)
  }

  /** `x & y`, computed bit by bit from the least significant bit. */
  function And(x: nat, y: nat): (r: nat)
    ensures r <= x && r <= y
    decreases x
  {
    if x == 0 || y == 0 then 0 else 2 * And(x / 2, y / 2) + (x % 2) * (y % 2)
  }

  /** A positive multiple of d is at least d. */
  lemma MulAtLeast(d: int, k: int)
    requires d > 0 && k >= 1
    ensures d * k >= d
  {
  }

  /** Quotient and remainder are unique. */
  lemma DivModUnique(x: int, d: int, q: int, r: int)
    requires d > 0 && x == d * q + r && 0 <= r < d
    ensures x / d == q && x % d == r
  {
    var q', r' := x / d, x % d;
    assert d * (q - q') == r' - r by {
      assert x == d * q' + r';
      assert d * q - d * q' == d * (q - q');
    }
    if q > q' {
      MulAtLeast(d, q - q');
    } else if q < q' {
      MulAtLeast(d, q' - q);
    }
  }

  /** Taking a number modulo 2p: halve it modulo p, then put the lowest bit back. */
  lemma ModDouble(x: nat, p: nat)
    requires p > 0
    ensures x % (2 * p) == 2 * ((x / 2) % p) + x % 2
  {
    var q, r := (x / 2) / p, (x / 2) % p;
    assert x / 2 == p * q + r;
    assert x == (2 * p) * q + (2 * r + x % 2);
    DivModUnique(x, 2 * p, q, 2 * r + x % 2);
  }

  /** Masking with an odd number keeps the lowest bit and masks the rest with half of it. */
  lemma AndOddMask(x: nat, k: nat)
    requires x > 0
    ensures And(x, 2 * k + 1) == 2 * And(x / 2, k) + x % 2
  {
    var y := 2 * k + 1;
    assert y / 2 == k && y % 2 == 1;
    assert And(x, y) == 2 * And(x / 2, y / 2) + (x % 2) * (y % 2);
  }

  /** One step of the induction below: from a mask of k + 1 to one of 2k + 1. */
  lemma AndDoubleMask(x: nat, k: nat)
    requires x > 0
    requires And(x / 2, k) == (x / 2) % (k + 1)
    ensures And(x, 2 * k + 1) == x % (2 * (k + 1))
  {
    AndOddMask(x, k);
    ModDouble(x, k + 1);
  }

  /** Masking with n one-bits keeps the value modulo 2^n. */
  lemma {:induction false} AndLowMask(x: nat, n: nat)
    ensures And(x, Pow2(n) - 1) == x % Pow2(n)
  {
    if n == 0 {
      assert Pow2(n) - 1 == 0;
    } else if x == 0 {
    } else {
      var k := Pow2(n - 1) - 1;
      assert Pow2(n) - 1 == 2 * k + 1 && Pow2(n) == 2 * (k + 1);
      AndLowMask(x / 2, n - 1);
      AndDoubleMask(x, k);
    }
  }
}
