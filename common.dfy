/**
 * Values shared by every module of the model: an optional value, a JavaScript
 * number that may be NaN or infinite, and the numeric helpers the source takes
 * from `Math` (round, min, max).
 */
module Common {

  datatype Option<T> = None | Some(value: T) {
    function GetOr(default: T): T {
      match this
      case Some(v) => v
      case None => default
    }
  }

  /**
   * A JavaScript number. NaN and the two infinities are one case: every
   * guard of the modelled code (`isNaN`, `!isFinite`) treats them alike.
   */
  datatype JsNum = Finite(v: real) | NonFinite

  function MinR(a: real, b: real): (r: real)
    ensures r <= a && r <= b && (r == a || r == b)
  {
    if a <= b then a else b
  }

  function MaxR(a: real, b: real): (r: real)
    ensures r >= a && r >= b && (r == a || r == b)
  {
    if a >= b then a else b
  }

  function AbsR(x: real): (r: real)
    ensures r >= 0.0 && (r == x || r == -x)
  {
    if x >= 0.0 then x else -x
  }

  /** `Math.max(lo, Math.min(hi, x))`, the clamp idiom of the source. */
  function ClampR(x: real, lo: real, hi: real): (r: real)
    requires lo <= hi
    ensures lo <= r <= hi
    ensures lo <= x <= hi ==> r == x
    ensures x <= lo ==> r == lo
    ensures x >= hi ==> r == hi
  {
    MaxR(lo, MinR(hi, x))
  }

  /** `Math.round(x)`: the nearest integer, halves rounded up (towards +infinity). */
  function Round(x: real): (n: int)
    ensures x - 0.5 < n as real <= x + 0.5
  {
    (x + 0.5).Floor
  }

  lemma RoundMonotone(x: real, y: real)
    requires x <= y
    ensures Round(x) <= Round(y)
  {
  }

  lemma RoundOfInt(n: int)
    ensures Round(n as real) == n
  {
  }

  /** Truncation towards zero, as JavaScript's `%` uses for its quotient. */
  function Trunc(x: real): (n: int)
    ensures 0.0 <= x ==> 0 <= n && n as real <= x < n as real + 1.0
    ensures x < 0.0 ==> n <= 0 && n as real - 1.0 < x <= n as real
  {
    if x >= 0.0 then x.Floor else -((-x).Floor)
  }

  /** JavaScript's remainder `x % m` for a positive modulus: the sign follows `x`. */
  function JsRem(x: real, m: real): (r: real)
    requires m > 0.0
    ensures 0.0 <= x ==> 0.0 <= r < m
    ensures x < 0.0 ==> -m < r <= 0.0
    ensures -m < x < m ==> r == x
  {
    var q := Trunc(x / m);
    QuotientBounds(x, m, q);
    x - m * q as real
  }

  lemma QuotientBounds(x: real, m: real, q: int)
    requires m > 0.0 && q == Trunc(x / m)
    ensures 0.0 <= x ==> 0.0 <= x - m * q as real < m
    ensures x < 0.0 ==> -m < x - m * q as real <= 0.0
    ensures -m < x < m ==> q == 0
  {
    var qr := q as real;
    DivSign(x, m);
    if 0.0 <= x {
      BelowQuotient(x, m, qr);
      AboveQuotient(x, m, qr + 1.0);
      assert m * (qr + 1.0) == m * qr + m;
    } else {
      AboveQuotient(x, m, qr);
      BelowQuotient(x, m, qr - 1.0);
      assert m * (qr - 1.0) == m * qr - m;
    }
    if -m < x < m {
      if x / m >= 1.0 { BelowQuotient(x, m, 1.0); }
      if x / m <= -1.0 { AboveQuotient(x, m, -1.0); }
    }
  }

  lemma DivSign(x: real, m: real)
    requires m > 0.0
    ensures 0.0 <= x <==> 0.0 <= x / m
  {
    if 0.0 <= x / m {
      BelowQuotient(x, m, 0.0);
    } else {
      AboveQuotient(x, m, 0.0);
    }
  }

  /** `a <= x / m` gives `m * a <= x`, strictly when the first is strict. */
  lemma BelowQuotient(x: real, m: real, a: real)
    requires m > 0.0 && a <= x / m
    ensures m * a <= x
    ensures a < x / m ==> m * a < x
  {
    var t := x / m;
    var s := t - a;
    assert m * t == m * a + m * s;
    assert m * t == x;
    if s > 0.0 { assert m * s > 0.0; }
  }

  /** `x / m <= a` gives `x <= m * a`, strictly when the first is strict. */
  lemma AboveQuotient(x: real, m: real, a: real)
    requires m > 0.0 && x / m <= a
    ensures x <= m * a
    ensures x / m < a ==> x < m * a
  {
    var t := x / m;
    var s := a - t;
    assert m * a == m * t + m * s;
    assert m * t == x;
    if s > 0.0 { assert m * s > 0.0; }
  }

  /** `m * a <= x` gives `a <= x / m`. */
  lemma AtLeastQuotient(x: real, m: real, a: real)
    requires m > 0.0 && m * a <= x
    ensures a <= x / m
  {
    if x / m < a {
      AboveQuotient(x, m, a);
    }
  }

  /** `x <= m * a` gives `x / m <= a`. */
  lemma AtMostQuotient(x: real, m: real, a: real)
    requires m > 0.0 && x <= m * a
    ensures x / m <= a
  {
    if a < x / m {
      BelowQuotient(x, m, a);
    }
  }

  lemma DivMonotone(a: real, b: real, t: real)
    requires t > 0.0 && a <= b
    ensures a / t <= b / t
  {
    BelowQuotient(a, t, a / t);
    AtLeastQuotient(b, t, a / t);
  }

  /** A fraction of a non-negative amount is between nothing and all of it. */
  lemma FractionOf(r: real, w: real)
    requires 0.0 <= r <= 1.0 && 0.0 <= w
    ensures 0.0 <= r * w <= w
  {
    assert w - r * w == (1.0 - r) * w;
  }

  /** For non-negative reals, comparing squares is comparing the numbers. */
  lemma SquareMonotone(a: real, b: real)
    requires 0.0 <= a && 0.0 <= b
    ensures a < b ==> a * a < b * b
    ensures b < a ==> b * b < a * a
    ensures a == b ==> a * a == b * b
  {
    if a < b {
      SquareStrict(a, b);
    } else if b < a {
      SquareStrict(b, a);
    }
  }

  lemma SquareStrict(a: real, b: real)
    requires 0.0 <= a < b
    ensures a * a < b * b
  {
    var d := b - a;
    assert b * b == a * a + 2.0 * a * d + d * d;
    assert d * d > 0.0;
    assert a * d >= 0.0;
  }
}
