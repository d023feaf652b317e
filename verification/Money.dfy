/** Money in whole cents: half-up rounding, the partial-year base, the tier
    discount and the installment split. */
module Money {

  /** num/den rounded to the nearest integer, a tie away from zero. */
  function RoundHalfUp(num: int, den: int): int
    requires den > 0
  {
    if num >= 0 then (2 * num + den) / (2 * den) else -((2 * -num + den) / (2 * den))
  }

  function Max(a: int, b: int): int {
    if a >= b then a else b
  }

  function Min(a: int, b: int): int {
    if a <= b then a else b
  }

  function Abs(a: int): nat {
    if a >= 0 then a else -a
  }

  lemma QuotientBounds(x: int, k: int, q: int)
    requires k > 0
    ensures q == x / k <==> k * q <= x < k * q + k
  {
    var d := x / k;
    var e := q - d;
    assert x == k * d + x % k;
    assert k * q == k * d + k * e;
    assert e >= 1 ==> k * e >= k;
    assert e <= -1 ==> k * e <= -k;
  }

  lemma MultipleOf(den: int, r: int)
    requires den > 0
    ensures r == 0 ==> den * r == 0
    ensures r > 0 ==> den * r >= den
    ensures r < 0 ==> den * r <= -den
  {
  }

  lemma NearestArith(num: nat, den: int, p: int)
    requires den > 0 && (p == 0 || p >= den || p <= -den)
    ensures 2 * p <= 2 * num + den < 2 * p + 2 * den <==>
            2 * Abs(num - p) <= den && (2 * Abs(num - p) == den ==> Abs(num) < Abs(p))
  {
  }

  lemma RoundNearestNat(num: nat, den: int, r: int)
    requires den > 0
    ensures r == (2 * num + den) / (2 * den) <==>
            2 * Abs(num - den * r) <= den && (2 * Abs(num - den * r) == den ==> Abs(num) < Abs(den * r))
  {
    QuotientBounds(2 * num + den, 2 * den, r);
    Associate(2, den, r);
    MultipleOf(den, r);
    NearestArith(num, den, den * r);
  }

  /** ROUND_HALF_UP characterised: the nearest integer, and of two equally near
      ones the one further from zero. */
  lemma RoundNearest(num: int, den: int, r: int)
    requires den > 0
    ensures r == RoundHalfUp(num, den) <==>
            2 * Abs(num - den * r) <= den && (2 * Abs(num - den * r) == den ==> Abs(num) < Abs(den * r))
  {
    if num >= 0 {
      RoundNearestNat(num, den, r);
    } else {
      RoundNearestNat(-num, den, -r);
      assert den * -r == -(den * r);
    }
  }

  /** The bound callers use: rounding moves a value by at most half a cent. */
  lemma RoundBound(num: int, den: int)
    requires den > 0
    ensures -den <= 2 * (num - den * RoundHalfUp(num, den)) <= den
  {
    RoundNearest(num, den, RoundHalfUp(num, den));
  }

  lemma RoundExact(value: int, den: int)
    requires den > 0
    ensures RoundHalfUp(den * value, den) == value
  {
    RoundNearest(den * value, den, value);
  }

  // ---- amounts of one record ----

  type Percent = p: nat | p == 0 || p == 50 || p == 75 || p == 100

  /** annual x count / installments, in cents. */
  function PartialBase(annual: int, installments: int, count: int): int {
    RoundHalfUp(annual * Max(count, 1), Max(installments, 1))
  }

  function Discount(base: int, percent: Percent): int {
    RoundHalfUp(base * percent, 100)
  }

  /** The billed total without an override is within 3/4 of a cent of the exact
      annual x k/n x (100-p)/100, whatever the sign of the annual amount. Stated over
      the common denominator 4 x 100 x n. */
  lemma BilledTotalBound(annual: int, n: int, k: int, percent: Percent)
    requires n >= 1 && k >= 1
    ensures var base := PartialBase(annual, n, k);
            var final := base - Discount(base, percent);
            4 * Abs(100 * n * final - annual * k * (100 - percent)) <= 3 * (100 * n)
  {
    var base := PartialBase(annual, n, k);
    var disc := Discount(base, percent);
    var e := annual * k - n * base;
    RoundBound(annual * k, n);
    var f := base * percent - 100 * disc;
    RoundBound(base * percent, 100);
    RoundExact(0, 100);
    RoundExact(base, 100);
    ScaleRemainder(n, base, disc, percent, f);
    BilledTotalArith(n * base, e, n * f, n, percent);
    assert n * base + e == annual * k;
    assert 100 * n * (base - disc) - annual * k * (100 - percent)
        == (n * base) * (100 - percent) + n * f - (n * base + e) * (100 - percent);
  }

  /** The error of the partial base is scaled by the share that is billed; the
      discount's own rounding adds half a cent when there is one to round. */
  lemma BilledTotalArith(nb: int, e: int, nf: int, n: int, percent: Percent)
    requires n >= 1 && -n <= 2 * e <= n && -50 * n <= nf <= 50 * n
    requires percent == 0 || percent == 100 ==> nf == 0
    ensures 4 * Abs(nb * (100 - percent) + nf - (nb + e) * (100 - percent)) <= 300 * n
  {
    assert (nb + e) * (100 - percent) == nb * (100 - percent) + e * (100 - percent);
    if percent == 0 {
    } else if percent == 50 {
    } else if percent == 75 {
    } else {
    }
  }

  lemma ScaleRemainder(n: int, base: int, disc: int, percent: Percent, f: int)
    requires n >= 1 && f == base * percent - 100 * disc && -100 <= 2 * f <= 100
    ensures 100 * n * (base - disc) == (n * base) * (100 - percent) + n * f
    ensures -50 * n <= n * f <= 50 * n
    ensures f == 0 ==> n * f == 0
  {
    calc {
      n * f;
      { Distribute(n, base * percent, 100 * disc); }
      n * (base * percent) - n * (100 * disc);
      { Associate(n, base, percent); Associate(n, disc, 100); }
      (n * base) * percent - (n * disc) * 100;
    }
    calc {
      100 * n * (base - disc);
      { Associate(100, n, base - disc); Distribute(n, base, disc); }
      100 * (n * base - n * disc);
    }
    ScaleBounds(n, f);
  }

  lemma ScaleOrder(n: int, a: int, b: int)
    requires n >= 0 && a <= b
    ensures n * a <= n * b
  {
  }

  lemma Distribute(n: int, a: int, b: int)
    ensures n * (a - b) == n * a - n * b
  {
  }

  lemma Associate(n: int, a: int, b: int)
    ensures n * (a * b) == (n * a) * b
  {
  }

  lemma ScaleBounds(n: int, f: int)
    requires n >= 1 && -100 <= 2 * f <= 100
    ensures -50 * n <= n * f <= 50 * n
  {
    assert n * (50 - f) >= 0 && n * (f + 50) >= 0;
  }

  // ---- the installment split ----

  function RowCount(count: int): nat {
    Max(count, 1)
  }

  /** Equal rows; the last one absorbs the rounding remainder. */
  function Amounts(total: int, n: nat): (rows: seq<int>)
    requires n >= 1
    ensures |rows| == n
  {
    var per := RoundHalfUp(total, n);
    seq(n, i => if i < n - 1 then per else total - per * (n - 1))
  }

  function Sum(rows: seq<int>): int {
    if rows == [] then 0 else Sum(rows[..|rows| - 1]) + rows[|rows| - 1]
  }

  lemma {:induction false} SumConstant(rows: seq<int>, value: int)
    requires forall i :: 0 <= i < |rows| ==> rows[i] == value
    ensures Sum(rows) == value * |rows|
  {
    if rows != [] {
      SumConstant(rows[..|rows| - 1], value);
    }
  }

  /** Conservation, for totals of either sign: the rows add up to the total. */
  lemma AmountsConserve(total: int, n: nat)
    requires n >= 1
    ensures Sum(Amounts(total, n)) == total
  {
    var rows := Amounts(total, n);
    SumConstant(rows[..n - 1], RoundHalfUp(total, n));
  }

  /** The absorbing row differs from its siblings by at most n/2 cents. */
  lemma LastRowBound(total: int, n: nat)
    requires n >= 2
    ensures var rows := Amounts(total, n);
            && (forall i :: 0 <= i < n - 1 ==> rows[i] == rows[0])
            && 2 * Abs(rows[n - 1] - rows[0]) <= n
  {
    RoundBound(total, n);
    var per := RoundHalfUp(total, n);
    assert total - per * (n - 1) - per == total - n * per;
  }

  /** Exactly when a non-negative total splits into non-negative rows: the
      quotient must cover what rounding up took from the last row. */
  lemma NonNegativeRows(total: nat, n: nat)
    requires n >= 1
    ensures (forall i :: 0 <= i < n ==> Amounts(total, n)[i] >= 0) <==>
            2 * (total % n) < n || total / n + total % n >= n - 1
  {
    var rows := Amounts(total, n);
    var per, q, r := RoundHalfUp(total, n), total / n, total % n;
    assert total == n * q + r;
    if 2 * r < n {
      RoundNearest(total, n, q);
      if r > 0 { assert Abs(total - n * q) == r; }
      assert per == q;
      assert q * (n - 1) == n * q - q;
    } else {
      assert n * (q + 1) == n * q + n;
      RoundNearest(total, n, q + 1);
      assert per == q + 1;
      assert (q + 1) * (n - 1) == n * q + n - q - 1;
    }
    assert rows[n - 1] == total - per * (n - 1);
  }

  /** The caller's simple guard: n(n-1)/2 cents are always enough. */
  lemma LargeTotalsSplitNonNegative(total: int, n: nat)
    requires n >= 1 && 2 * total >= n * (n - 1)
    ensures forall i :: 0 <= i < n ==> Amounts(total, n)[i] >= 0
  {
    var q, r := total / n, total % n;
    assert total >= 0 by { assert n * (n - 1) >= 0; }
    if 2 * r >= n && q + r < n - 1 {
      SmallQuotient(total, n, q, r);
    }
    NonNegativeRows(total, n);
  }

  lemma SmallQuotient(total: int, n: nat, q: int, r: int)
    requires total == n * q + r && 2 * r >= n >= 1 && q + r < n - 1
    ensures 2 * total < n * (n - 1)
  {
    ScaleOrder(n, q, n - 2 - r);
    Distribute(n, n - 2, r);
    Distribute(n, n, 2);
    ScaleOrder(n - 1, n, 2 * r);
    Distribute(2 * r, n, 1);
    Associate(2, r, n);
    Distribute(n, n, 1);
  }

  /** Below the guard a negative invoice row is possible: two cents in four rows. */
  lemma SmallTotalsCanGoNegative()
    ensures Amounts(2, 4) == [1, 1, 1, -1]
  {
    assert Amounts(2, 4)[3] == -1;
  }
}
