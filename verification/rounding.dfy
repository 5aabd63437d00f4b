/** Integer models of the source's `Math.round` of a quotient. All quantities are
    integers (milliseconds, money, counts), so `Math.round(n / d)` for `d > 0`
    is `floor(n / d + 1/2)`, which is `(2n + d) / (2d)` in Dafny's division
    (floor division for a positive divisor). */
module Rounding {

  /** `Math.round(n / d)` for `d > 0`: the nearest integer to `n / d`, halves rounded up. */
  function RoundDiv(n: int, d: int): (r: int)
    requires d > 0
    ensures 2 * d * r - d <= 2 * n < 2 * d * r + d
  {
    var q := (2 * n + d) / (2 * d);
    var m := (2 * n + d) % (2 * d);
    assert 2 * n + d == 2 * d * q + m && 0 <= m < 2 * d;
    q
  }

  /** Only one integer lies within half a step of `n / d`. */
  lemma RoundDivUnique(n: int, d: int, r: int)
    requires d > 0
    requires 2 * d * r - d <= 2 * n < 2 * d * r + d
    ensures r == RoundDiv(n, d)
  {
    var q := RoundDiv(n, d);
    if r >= q + 1 {
      assert 2 * d * r >= 2 * d * (q + 1) by { MulMono(2 * d, q + 1, r); }
    } else if q >= r + 1 {
      assert 2 * d * q >= 2 * d * (r + 1) by { MulMono(2 * d, r + 1, q); }
    }
  }

  lemma MulMono(k: int, a: int, b: int)
    requires k >= 0 && a <= b
    ensures k * a <= k * b
  {
    assert k * b - k * a == k * (b - a);
  }

  /** Rounding a quotient is monotone in the numerator. */
  lemma RoundDivMono(n1: int, n2: int, d: int)
    requires d > 0 && n1 <= n2
    ensures RoundDiv(n1, d) <= RoundDiv(n2, d)
  {
    var r1 := RoundDiv(n1, d);
    var r2 := RoundDiv(n2, d);
    if r1 >= r2 + 1 {
      MulMono(2 * d, r2 + 1, r1);
    }
  }

  /** An exact quotient rounds to itself. */
  lemma RoundDivExact(k: int, d: int)
    requires d > 0
    ensures RoundDiv(k * d, d) == k
  {
    RoundDivUnique(k * d, d, k);
  }

  /** A numerator in `[0, k * d]` rounds into `[0, k]`. */
  lemma RoundDivRange(n: int, d: int, k: int)
    requires d > 0 && 0 <= n <= k * d
    ensures 0 <= RoundDiv(n, d) <= k
  {
    RoundDivMono(0, n, d);
    RoundDivExact(0, d);
    RoundDivMono(n, k * d, d);
    RoundDivExact(k, d);
  }

  /** `whole > 0 ? Math.round(part / whole * 100) : 0`: the guarded percentage used for
      utilisation and success rates. */
  function Percent(part: int, whole: int): (r: int)
    ensures whole <= 0 ==> r == 0
    ensures whole > 0 ==> 2 * whole * r - whole <= 200 * part < 2 * whole * r + whole
  {
    if whole > 0 then RoundDiv(part * 100, whole) else 0
  }

  /** A part between 0 and the whole is between 0% and 100%. */
  lemma PercentRange(part: int, whole: int)
    requires 0 <= part <= whole
    ensures 0 <= Percent(part, whole) <= 100
  {
    if whole > 0 {
      RoundDivRange(part * 100, whole, 100);
    }
  }

  /** For a fixed positive whole, the percentage never decreases as the part grows. */
  lemma PercentMono(part1: int, part2: int, whole: int)
    requires part1 <= part2
    ensures Percent(part1, whole) <= Percent(part2, whole)
  {
    if whole > 0 {
      RoundDivMono(part1 * 100, part2 * 100, whole);
    }
  }

  /** A part at least as large as a positive whole is at least 100%. */
  lemma PercentAtLeastFull(part: int, whole: int)
    requires part >= whole > 0
    ensures Percent(part, whole) >= 100
  {
    RoundDivMono(100 * whole, part * 100, whole);
    RoundDivExact(100, whole);
  }

  /** `count > 0 ? Math.round(total / count / unit * 10) / 10 : 0`, kept in tenths of `unit`:
      the mean of `total` over `count` items, expressed in `unit`s to one decimal place. */
  function MeanTenths(total: int, count: int, unit: int): (r: int)
    requires unit > 0
    ensures count > 0 ==> 2 * (count * unit) * r - count * unit <= 20 * total < 2 * (count * unit) * r + count * unit
    ensures count <= 0 ==> r == 0
  {
    if count > 0 then RoundDiv(total * 10, count * unit) else 0
  }
}
