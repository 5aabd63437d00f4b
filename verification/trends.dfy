/** The period-over-period trend shown under a counter: the literal "+100%"
    whenever the previous value is not positive (even if the current value is
    0 too), otherwise the rounded percentage change followed by "%", with a
    minus sign for a fall and no sign for a rise. */
module Trends {
  import opened Rounding
  import opened Text

  datatype Trend = Plus100 | Pct(percent: int)

  /** `prev > 0 ? `${Math.round((cur - prev) / prev * 100)}%` : '+100%'`. */
  function TrendOf(cur: int, prev: int): (t: Trend)
    ensures prev <= 0 <==> t == Plus100
    ensures prev > 0 ==> 2 * prev * t.percent - prev <= 2 * (cur - prev) * 100 < 2 * prev * t.percent + prev
  {
    if prev > 0 then Pct(RoundDiv((cur - prev) * 100, prev)) else Plus100
  }

  /** The text the dashboard shows for a trend. */
  function TrendText(t: Trend): string
  {
    match t
    case Plus100 => "+100%"
    case Pct(n) => IntToString(n) + "%"
  }

  /** A computed change never carries a plus sign, so the "+100%" sentinel
      cannot be confused with a real doubling, which reads "100%". */
  lemma TrendTextSigns(t: Trend)
    ensures TrendText(t)[0] == '+' <==> t == Plus100
    ensures t.Pct? ==> TrendText(t) != TrendText(Plus100)
  {
  }

  /** With a positive previous value the shown change is non-negative whenever
      the current value has not fallen, and positive only if it has risen. */
  lemma TrendFollowsChange(cur: int, prev: int)
    requires prev > 0
    ensures cur >= prev ==> TrendOf(cur, prev).percent >= 0
    ensures TrendOf(cur, prev).percent > 0 ==> cur > prev
  {
    var n := TrendOf(cur, prev).percent;
    if cur >= prev {
      RoundDivMono(0, (cur - prev) * 100, prev);
      RoundDivExact(0, prev);
    }
    if n > 0 && cur <= prev {
      RoundDivMono((cur - prev) * 100, 0, prev);
      RoundDivExact(0, prev);
    }
  }

  /** Doubling from a positive value is a 100% change, shown without a plus sign. */
  lemma DoublingIsPlainHundred(prev: int)
    requires prev > 0
    ensures TrendOf(2 * prev, prev) == Pct(100)
    ensures TrendText(TrendOf(2 * prev, prev)) == "100%"
  {
    RoundDivExact(100, prev);
    assert (2 * prev - prev) * 100 == 100 * prev;
    assert NatToString(100) == "100";
  }
}
