/** Small definitions shared by the whole model: failure-compatible wrappers and
    the handful of JavaScript number operations whose behaviour differs from
    Dafny's unbounded arithmetic (32-bit conversion, shifts, rounding and the
    truncating remainder). */
module Common {

  datatype Option<+T> = None | Some(value: T)

  datatype Result<+T, +E> = Success(value: T) | Failure(error: E)

  const TwoTo31: int := 0x8000_0000
  const TwoTo32: int := 0x1_0000_0000

  predicate IsInt32(x: int) {
    -TwoTo31 <= x < TwoTo31
  }

  /** ECMAScript ToInt32: reduce modulo 2^32 into the signed range. This is what
      `x | 0` and the left operand of `<<` and `>>` go through. */
  function ToInt32(x: int): (r: int)
    ensures IsInt32(r)
    ensures (r - x) % TwoTo32 == 0
    ensures IsInt32(x) ==> r == x
  {
    ((x + TwoTo31) % TwoTo32) - TwoTo31
  }

  /** Two integers that agree modulo 2^32 convert to the same signed 32-bit value. */
  lemma ToInt32Congruent(x: int, y: int)
    requires (x - y) % TwoTo32 == 0
    ensures ToInt32(x) == ToInt32(y)
  {
    var k := (x - y) / TwoTo32;
    assert x - y == k * TwoTo32;
    var a := y + TwoTo31;
    var q, r := a / TwoTo32, a % TwoTo32;
    assert x + TwoTo31 == (q + k) * TwoTo32 + r;
    DivModUnique(x + TwoTo31, TwoTo32, q + k, r);
  }

  /** Quotient and remainder are determined by any decomposition with a remainder in range. */
  lemma DivModUnique(a: int, m: int, q: int, r: int)
    requires m > 0 && 0 <= r < m && a == q * m + r
    ensures a / m == q && a % m == r
  {
    var q0, r0 := a / m, a % m;
    assert (q - q0) * m == r0 - r;
    if q > q0 {
      MulAtLeast(q - q0, m);
    } else if q < q0 {
      MulAtLeast(q0 - q, m);
    }
  }

  lemma MulAtLeast(d: int, m: int)
    requires d >= 1 && m > 0
    ensures d * m >= m
  {
  }

  function Pow2(n: nat): (r: nat)
    ensures r >= 1
  {
    if n == 0 then 1 else 2 * Pow2(n - 1)
  }

  /** JavaScript `x >> k` for a non-negative shift count: the left operand goes
      through ToInt32, only the low five bits of the count are used, and the
      shift is arithmetic (rounds toward minus infinity). */
  function Shr(x: int, k: nat): int
  {
    ToInt32(x) / Pow2(k % 32)
  }

  /** A shift of a non-negative 32-bit value stays between zero and the value. */
  lemma ShrBounds(x: int, k: nat)
    requires IsInt32(x) && x >= 0
    ensures 0 <= Shr(x, k) <= x
  {
    assert ToInt32(x) == x;
    DivLe(x, Pow2(k % 32));
  }

  lemma DivLe(x: int, p: int)
    requires x >= 0 && p >= 1
    ensures 0 <= x / p <= x
  {
    var q, r := x / p, x % p;
    assert x == p * q + r && 0 <= r;
    if q > 0 {
      MulLeftMono(1, p, q);
    }
  }

  /** One more bit of shift halves the value again (while the count stays below 32). */
  lemma {:induction false} ShrStep(x: int, k: nat)
    requires IsInt32(x) && x >= 0 && k + 1 < 32
    ensures Shr(x, k + 1) == Shr(x, k) / 2
  {
    assert (k + 1) % 32 == k + 1 && k % 32 == k;
    assert ToInt32(x) == x;
    assert Pow2(k + 1) == Pow2(k) * 2;
    DivDiv(x, Pow2(k), 2);
  }

  lemma DivDiv(x: int, a: int, b: int)
    requires x >= 0 && a > 0 && b > 0
    ensures x / (a * b) == (x / a) / b
  {
    var q, r := x / a, x % a;
    var q2, r2 := q / b, q % b;
    assert x == q * a + r;
    assert q == q2 * b + r2;
    assert x == q2 * (a * b) + (r2 * a + r) by {
      assert q * a == (q2 * b + r2) * a;
      assert (q2 * b + r2) * a == q2 * (a * b) + r2 * a;
    }
    assert r2 * a <= (b - 1) * a by {
      MulLeftMono(r2, b - 1, a);
    }
    assert (b - 1) * a + r < a * b;
    DivModUnique(x, a * b, q2, r2 * a + r);
  }

  lemma MulLeftMono(u: int, v: int, a: int)
    requires u <= v && a > 0
    ensures u * a <= v * a
  {
    assert v * a - u * a == (v - u) * a;
  }

  /** JavaScript `Math.round`: the nearest integer, halves going up. */
  function Round(x: real): (r: int)
    ensures x - 0.5 < r as real <= x + 0.5
  {
    (x + 0.5).Floor
  }

  lemma RoundMonotonic(x: real, y: real)
    requires x <= y
    ensures Round(x) <= Round(y)
  {
  }

  /** JavaScript `%` on integers: the remainder takes the sign of the dividend. */
  function JsRem(a: int, m: int): (r: int)
    requires m > 0
    ensures a >= 0 ==> 0 <= r < m
    ensures a < 0 ==> -m < r <= 0
  {
    if a >= 0 then a % m else -((-a) % m)
  }

  /** Truncation toward zero of a real. */
  function Trunc(x: real): (r: int)
    ensures x >= 0.0 ==> 0.0 <= r as real <= x < r as real + 1.0
    ensures x < 0.0 ==> r as real - 1.0 < x <= r as real <= 0.0
  {
    if x >= 0.0 then x.Floor else -((-x).Floor)
  }

  /** JavaScript `%` on numbers (C's fmod): `a - b * trunc(a / b)`, computed exactly. */
  function JsFmod(a: real, b: real): (r: real)
    requires b != 0.0
  {
    a - b * Trunc(a / b) as real
  }

  lemma MulMono(a: real, b: real, c: real)
    requires a <= b && c >= 0.0
    ensures a * c <= b * c
  {
    assert b * c - a * c == (b - a) * c;
  }

  lemma MulStrict(a: real, b: real, c: real)
    requires a < b && c > 0.0
    ensures a * c < b * c
  {
    assert b * c - a * c == (b - a) * c;
  }

  lemma DivMul(a: real, r: real)
    requires r > 0.0
    ensures (a / r) * r == a
    ensures a >= 0.0 ==> a / r >= 0.0
    ensures a < r ==> a / r < 1.0
  {
    var q := a / r;
    assert q * r == a;
    if a >= 0.0 && q < 0.0 {
      MulStrict(q, 0.0, r);
    }
    if a < r && q >= 1.0 {
      MulMono(1.0, q, r);
    }
  }

  /** Truncating a non-negative quotient `q` of `a` by `r` loses less than one `r`. */
  lemma TruncMulBounds(a: real, r: real, q: real)
    requires q >= 0.0 && r > 0.0 && q * r == a
    ensures 0.0 <= Trunc(q) as real * r <= a < Trunc(q) as real * r + r
    ensures a < r ==> Trunc(q) == 0
  {
    BetweenMultiples(a, r, q, Trunc(q) as real);
  }

  /** Real-only core of `TruncMulBounds`: `q * r` lies between the multiples of
      `r` by `k` and `k + 1` when `q` does. */
  lemma BetweenMultiples(a: real, r: real, q: real, k: real)
    requires 0.0 <= k <= q < k + 1.0 && r > 0.0 && q * r == a
    ensures 0.0 <= k * r <= a < k * r + r
    ensures a < r ==> k < 1.0
  {
    MulMono(0.0, k, r);
    MulMono(k, q, r);
    BelowNextMultiple(a, r, q, k);
    if a < r && k >= 1.0 {
      MulMono(1.0, k, r);
    }
  }

  lemma BelowNextMultiple(a: real, r: real, q: real, k: real)
    requires q < k + 1.0 && r > 0.0 && q * r == a
    ensures a < k * r + r
  {
    MulStrict(q, k + 1.0, r);
    assert (k + 1.0) * r == k * r + r;
  }

  /** For a non-negative dividend and a positive divisor, the remainder lies in
      [0, divisor), is at most the dividend, and is the dividend itself when
      that is already below the divisor. */
  lemma {:induction false} FmodBounds(a: real, r: real)
    requires a >= 0.0 && r > 0.0
    ensures 0.0 <= JsFmod(a, r) < r
    ensures JsFmod(a, r) <= a
    ensures a < r ==> JsFmod(a, r) == a
  {
    DivMul(a, r);
    TruncMulBounds(a, r, a / r);
  }
}
