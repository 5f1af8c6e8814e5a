/** Go's 64-bit integers: wrap-around and division; and the arithmetic facts the other modules share. */
module Int64 {
  const TWO63 := 0x8000_0000_0000_0000
  const TWO64 := 0x1_0000_0000_0000_0000

  predicate Is64(x: int) { -TWO63 <= x < TWO63 }

  /** The value a 64-bit signed integer holds after an operation whose exact result is `x`. */
  function Wrap(x: int): (r: int)
    ensures Is64(r)
    ensures (r - x) % TWO64 == 0
    ensures Is64(x) ==> r == x
    ensures 0 <= x ==> r <= x
  {
    (x + TWO63) % TWO64 - TWO63
  }

  /** Go's integer division truncates toward zero. */
  function TruncDiv(t: int, d: int): int
    requires d > 0
  {
    if t >= 0 then t / d else -((-t) / d)
  }

  function Max(a: int, b: int): int { if a >= b then a else b }
  function Min(a: int, b: int): int { if a <= b then a else b }

  function Pow2(n: nat): (p: nat)
    ensures p >= 1
  {
    if n == 0 then 1 else 2 * Pow2(n - 1)
  }

  /** `x` shifted left by `n` bits, without a limit. */
  function Shl(x: int, n: nat): int {
    if n == 0 then x else 2 * Shl(x, n - 1)
  }

  lemma {:induction false} ShlIs(x: int, n: nat)
    ensures Shl(x, n) == x * Pow2(n)
  {
    if n > 0 {
      ShlIs(x, n - 1);
      TwiceProduct(x, Pow2(n - 1));
    }
  }

  lemma TwiceProduct(x: int, p: int)
    ensures x * (2 * p) == 2 * (x * p)
  {
  }

  lemma {:induction false} ShlGrows(x: nat, n: nat, m: nat)
    requires n <= m
    ensures 0 <= Shl(x, n) <= Shl(x, m)
  {
    if n < m { ShlGrows(x, n, m - 1); } else { ShlNonNegative(x, n); }
  }

  lemma {:induction false} ShlNonNegative(x: nat, n: nat)
    ensures 0 <= Shl(x, n)
  {
    if n > 0 { ShlNonNegative(x, n - 1); }
  }

  lemma MulGrows(a: int, b: int, m: nat)
    requires a <= b
    ensures a * m <= b * m
  {
    assert b * m == a * m + (b - a) * m;
  }

  lemma OneMore(n: int, m: int)
    ensures (n + 1) * m == n * m + m
  {
  }

  /** Wrapping a part of a sum first makes no difference. */
  lemma WrapSum(a: int, b: int)
    ensures Wrap(a + Wrap(b)) == Wrap(a + b)
  {
    var q := (b + TWO63) / TWO64;
    assert Wrap(b) == b - q * TWO64;
    ModShift(a + b + TWO63, q);
  }

  lemma WrapBoth(a: int, b: int)
    ensures Wrap(Wrap(a) + Wrap(b)) == Wrap(a + b)
  {
    WrapSum(Wrap(a), b);
    WrapSum(b, a);
  }

  lemma ModShift(x: int, q: int)
    ensures (x - q * TWO64) % TWO64 == x % TWO64
  {
    var r, k := x % TWO64, x / TWO64;
    assert x - q * TWO64 == (k - q) * TWO64 + r;
  }

  /** Division and powers by example. */
  lemma SmallNumbers()
    ensures TruncDiv(7, 2) == 3 && TruncDiv(-7, 2) == -3
    ensures Pow2(0) == 1 && Pow2(1) == 2 && Pow2(5) == 32
  {
  }
}
