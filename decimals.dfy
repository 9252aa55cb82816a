/**
 * Fixed-point decimal amounts, as Drupal Commerce keeps prices, and the
 * `round($amount, 2)` applied to them before they are sent: rounding to the
 * nearest hundredth, halves away from zero.
 */
module Decimals {

  /** The amount `digits / 10^scale`. */
  datatype Decimal = Decimal(digits: int, scale: nat)

  function Pow10(n: nat): (r: nat)
    ensures r >= 1
  {
    if n == 0 then 1 else 10 * Pow10(n - 1)
  }

  function Abs(x: int): nat
  {
    if x < 0 then -x else x
  }

  /**
   * `r` is `d` rounded to two decimal places, halves away from zero: as an
   * independent reference for Round2. When `d` has at most two decimal places
   * `r` is the same amount; otherwise `r` is a nearest multiple of 1/100 and
   * on a tie it is the one of larger magnitude.
   */
  ghost predicate RoundsTo2(d: Decimal, r: Decimal)
  {
    r.scale == 2 &&
    if d.scale <= 2 then
      r.digits == d.digits * Pow10(2 - d.scale)
    else
      var q := Pow10(d.scale - 2);
      var err := Abs(d.digits - r.digits * q);
      2 * err <= q &&
      (2 * err == q ==> Abs(r.digits * q) > Abs(d.digits))
  }

  lemma DivBounds(a: int, b: int)
    requires a >= 0 && b > 0
    ensures b * (a / b) <= a < b * (a / b) + b
  {
  }

  /** PHP `round($d, 2)` on an exact decimal. */
  function Round2(d: Decimal): (r: Decimal)
    ensures RoundsTo2(d, r)
  {
    if d.scale <= 2 then
      Decimal(d.digits * Pow10(2 - d.scale), 2)
    else
      var q := Pow10(d.scale - 2);
      var m := Abs(d.digits);
      var n := (2 * m + q) / (2 * q);
      NearestMultiple(m, q);
      var r := Decimal(if d.digits < 0 then -n else n, 2);
      SignedMultiple(d.digits, n, q);
      r
  }

  /** n = (2m + q) div 2q is the multiple of q nearest m, a tie going up. */
  lemma NearestMultiple(m: nat, q: nat)
    requires q >= 1
    ensures var n := (2 * m + q) / (2 * q); -(q as int) <= 2 * (m - n * q) < q
  {
    var n := (2 * m + q) / (2 * q);
    DivBounds(2 * m + q, 2 * q);
    assert 2 * q * n <= 2 * m + q < 2 * q * n + 2 * q;
  }

  /** Giving n the sign of dg keeps the distance to n * q the same as for |dg|. */
  lemma SignedMultiple(dg: int, n: int, q: int)
    ensures var k := if dg < 0 then -n else n; Abs(dg - k * q) == Abs(Abs(dg) - n * q)
    ensures var k := if dg < 0 then -n else n; Abs(k * q) == Abs(n * q)
  {
    if dg < 0 {
      assert -n * q == -(n * q);
    }
  }

  lemma NonNegProduct(x: int, q: int)
    requires x >= 0 && q >= 0
    ensures x * q >= 0
  {
  }

  /** A multiple of q is either non-negative or at most -q. */
  lemma MultipleSign(b: int, q: int)
    requires q >= 1
    ensures b * q >= 0 || b * q <= -q
  {
    if b >= 0 {
      NonNegProduct(b, q);
    } else {
      NonNegProduct(-b - 1, q);
      assert b * q == -((-b - 1) * q) - q;
    }
  }

  /** Two multiples of q that are both within q/2 of dg are at most one step apart. */
  lemma CloseMultiples(dg: int, x: int, y: int, q: int)
    requires q >= 1
    requires 2 * Abs(dg - x * q) <= q && 2 * Abs(dg - y * q) <= q
    ensures -1 <= x - y <= 1
  {
    var e := x * q - y * q;
    assert -(q as int) <= e <= q by {
      assert -(q as int) <= 2 * (x * q - dg) <= q;
      assert -(q as int) <= 2 * (y * q - dg) <= q;
    }
    assert (x - y - 2) * q == e - 2 * q && (y - x - 2) * q == -e - 2 * q;
    if x - y >= 2 {
      NonNegProduct(x - y - 2, q);
    } else if y - x >= 2 {
      NonNegProduct(y - x - 2, q);
    }
  }

  /** Of two multiples of q one step apart, both within q/2, both are ties and one is nearer zero than dg. */
  lemma AdjacentTie(dg: int, lq: int, hq: int, q: int)
    requires q >= 1 && hq == lq + q && (lq >= 0 || lq <= -q)
    requires 2 * Abs(dg - hq) <= q && 2 * Abs(dg - lq) <= q
    ensures 2 * Abs(dg - lq) == q && 2 * Abs(dg - hq) == q
    ensures Abs(lq) <= Abs(dg) || Abs(hq) <= Abs(dg)
  {
  }

  /** Two roundings RoundsTo2 admits are never one hundredth apart. */
  lemma NotAdjacent(d: Decimal, a: Decimal, b: Decimal)
    requires d.scale > 2 && RoundsTo2(d, a) && RoundsTo2(d, b)
    ensures b.digits != a.digits + 1
  {
    var q := Pow10(d.scale - 2);
    if b.digits == a.digits + 1 {
      assert b.digits * q == a.digits * q + q;
      MultipleSign(a.digits, q);
      AdjacentTie(d.digits, a.digits * q, b.digits * q, q);
    }
  }

  /** The rounding Round2 computes is the only one RoundsTo2 admits. */
  lemma Round2Unique(d: Decimal, r: Decimal)
    requires RoundsTo2(d, r)
    ensures r == Round2(d)
  {
    var s := Round2(d);
    if d.scale > 2 {
      CloseMultiples(d.digits, r.digits, s.digits, Pow10(d.scale - 2));
      NotAdjacent(d, r, s);
      NotAdjacent(d, s, r);
    }
  }

  lemma RoundingExamples()
    ensures Round2(Decimal(19999, 3)) == Decimal(2000, 2)
    ensures Round2(Decimal(19994, 3)) == Decimal(1999, 2)
    ensures Round2(Decimal(-5, 3)) == Decimal(-1, 2)
    ensures Round2(Decimal(5000, 2)) == Decimal(5000, 2)
  {
  }
}
