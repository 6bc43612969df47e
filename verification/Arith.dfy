/** Integer facts shared by the arithmetic modules, and C's `int` arithmetic. */
module Arith {

  const INT_MAX: int := 0x7fff_ffff
  const INT_MIN: int := -0x8000_0000

  predicate FitsInt(x: int) {
    INT_MIN <= x <= INT_MAX
  }

  /** The value a 32-bit two's complement register keeps of `x`. */
  function Wrap32(x: int): int {
    if FitsInt(x) then x else (x - INT_MIN) % 0x1_0000_0000 + INT_MIN
  }

  /** The wrapped value fits and differs from `x` by a multiple of 2 to the 32. */
  lemma Wrap32Exact(x: int)
    ensures FitsInt(Wrap32(x)) && (x - Wrap32(x)) % 4294967296 == 0
  {
  }

  /** C's division: truncation toward zero, unlike Dafny's Euclidean `/`. */
  function TruncDiv(a: int, b: int): int
    requires b != 0
  {
    if a >= 0 && b > 0 then a / b
    else if a < 0 && b < 0 then -a / -b
    else -(Abs(a) / Abs(b))
  }

  /** The quotient's magnitude is that of the magnitudes, rounded down; it is negative only for unlike signs. */
  lemma TruncDivExact(a: int, b: int)
    requires b != 0
    ensures IsQuotient(Abs(TruncDiv(a, b)), Abs(a), Abs(b))
    ensures TruncDiv(a, b) >= 0 || a >= 0 > b || a < 0 < b
    ensures TruncDiv(a, b) <= 0 || (a >= 0 && b > 0) || (a < 0 && b < 0)
  {
    QuotientIs(Abs(a), Abs(b));
    hide IsQuotient;
    QuotientNonNegative(Abs(a), Abs(b));
  }

  lemma QuotientNonNegative(x: nat, d: nat)
    requires d > 0
    ensures x / d >= 0
  {
  }

  function Abs(x: int): nat {
    if x < 0 then -x else x
  }

  function Min(a: int, b: int): int {
    if a <= b then a else b
  }

  function Max(a: int, b: int): int {
    if a <= b then b else a
  }

  /** Least number of steps of size `step` that cover `distance`. */
  function CeilDiv(distance: nat, step: nat): (n: nat)
    requires step > 0
    ensures n * step >= distance
    ensures forall m: nat :: m * step >= distance ==> n <= m
  {
    var n := (distance + step - 1) / step;
    CeilDivBounds(distance, step, n);
    n
  }

  /** `q` is `x / d`, rounded down. */
  predicate IsQuotient(q: nat, x: nat, d: nat) {
    q * d <= x < (q + 1) * d
  }

  lemma QuotientIs(x: nat, d: nat)
    requires d > 0
    ensures IsQuotient(x / d, x, d)
  {
    var q := x / d;
    assert x == q * d + x % d;
    Successor(q, d);
  }

  lemma CeilDivBounds(distance: nat, step: nat, n: nat)
    requires step > 0 && n == (distance + step - 1) / step
    ensures n * step >= distance
    ensures forall m: nat :: m * step >= distance ==> n <= m
  {
    assert n * step <= distance + step - 1 < n * step + step;
    forall m: nat | m * step >= distance ensures n <= m {
      if m < n { MulMono(m + 1, n, step); }
    }
  }

  lemma MulMono(a: nat, b: nat, c: nat)
    requires a <= b
    ensures a * c <= b * c
  {
  }

  lemma MulMonoBoth(a: nat, b: nat, c: nat, d: nat)
    requires a <= b && c <= d
    ensures a * c <= b * d
  {
    MulMono(a, b, c);
    MulMono(c, d, b);
  }

  lemma DivMono(a: nat, b: nat, d: nat)
    requires d > 0 && a <= b
    ensures a / d <= b / d
  {
    if b / d < a / d { MulMono(b / d + 1, a / d, d); }
  }

  /** `c <= x / d` as soon as `c * d <= x`. */
  lemma DivLower(x: nat, d: nat, c: nat)
    requires d > 0 && c * d <= x
    ensures c <= x / d
  {
    if x / d < c { MulMono(x / d + 1, c, d); }
  }

  lemma Successor(n: nat, step: nat)
    ensures (n + 1) * step == n * step + step >= step
  {
  }
}
