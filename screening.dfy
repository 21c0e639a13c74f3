/** Price-series arithmetic of the scanner (fallen_angel_scanner.py,
    `calculate_drop`, `check_stability_before_drop`, and the trailing
    maximum used for the potential gain). */
module Screening {
  import opened Wrappers

  /** A closing price; quoted closes are positive. */
  type Price = r: real | r > 0.0 witness 1.0

  /** The tuple `(drop_percent, start_price, current_price, drop_days)`. */
  datatype Drop = Drop(percent: real, startPrice: real, currentPrice: real, days: int)

  /** The stability verdict `(is_stable, volatility)`. */
  datatype Stability = Stability(stable: bool, volatility: real)

  /** Percentage change from the first to the last close of `prices`, or
      all zeros when fewer than `lookbackDays` closes are given. `None`
      stands for the IndexError raised on an empty series that passes the
      length guard (only possible when `lookbackDays <= 0`). */
  function CalculateDrop(prices: seq<Price>, lookbackDays: int): (r: Option<Drop>)
    ensures |prices| < lookbackDays ==> r == Some(Drop(0.0, 0.0, 0.0, 0))
    ensures |prices| >= lookbackDays ==> (r.None? <==> prices == [])
    ensures |prices| >= lookbackDays && r.Some? ==>
      && r.value.startPrice == prices[0]
      && r.value.currentPrice == prices[|prices| - 1]
      && r.value.days == lookbackDays
      && r.value.percent * prices[0] == (prices[|prices| - 1] as real - prices[0] as real) * 100.0
  {
    if |prices| < lookbackDays then Some(Drop(0.0, 0.0, 0.0, 0))
    else if prices == [] then None
    else
      var start: real, current: real := prices[0], prices[|prices| - 1];
      Some(Drop((current - start) / start * 100.0, start, current, lookbackDays))
  }

  /** The computed change is negative exactly when the last close is below
      the first, zero exactly when they are equal, and never reaches -100%
      because closes are positive. */
  lemma DropSign(prices: seq<Price>, lookbackDays: int)
    requires |prices| >= lookbackDays && prices != []
    ensures var d := CalculateDrop(prices, lookbackDays).value;
      && (d.percent < 0.0 <==> prices[|prices| - 1] < prices[0])
      && (d.percent == 0.0 <==> prices[|prices| - 1] == prices[0])
      && d.percent > -100.0
  {
    var s: real, c: real := prices[0], prices[|prices| - 1];
    var p := CalculateDrop(prices, lookbackDays).value.percent;
    assert p * s == (c - s) * 100.0;
    assert (p + 100.0) * s == c * 100.0;
    if p <= -100.0 {
      assert false;
    }

  }

  /** 29 closes at 100 followed by a close at 70: a 30% drop. */
  lemma ThirtyPercentDrop()
    ensures CalculateDrop(seq(29, _ => 100.0) + [70.0], 30) == Some(Drop(-30.0, 100.0, 70.0, 30))
  {
    var prices: seq<Price> := seq(29, _ => 100.0) + [70.0];
    assert prices[0] == 100.0 && prices[|prices| - 1] == 70.0;
  }

  /** The closes `prices[stablePeriodEnd - minStableDays:stablePeriodEnd]`
      with Python's clamping of slice bounds to the series. */
  function StabilityWindow(prices: seq<Price>, stablePeriodEnd: int, minStableDays: nat): (w: seq<Price>)
    requires minStableDays <= stablePeriodEnd
    ensures stablePeriodEnd <= |prices| ==>
      |w| == minStableDays && w + prices[stablePeriodEnd..] == prices[stablePeriodEnd - minStableDays..]
    ensures |w| <= minStableDays
  {
    var hi := if stablePeriodEnd < |prices| then stablePeriodEnd else |prices|;
    var lo := if stablePeriodEnd - minStableDays < hi then stablePeriodEnd - minStableDays else hi;
    prices[lo..hi]
  }

  /** The guard and threshold of `check_stability_before_drop`; the
      volatility of the window is supplied by `volatility`. */
  function CheckStability(prices: seq<Price>, stablePeriodEnd: int, minStableDays: nat,
                          volatility: seq<Price> -> real): (r: Stability)
    ensures stablePeriodEnd < minStableDays ==> r == Stability(false, 0.0)
    ensures stablePeriodEnd >= minStableDays ==>
      r.volatility == volatility(StabilityWindow(prices, stablePeriodEnd, minStableDays))
    ensures r.stable <==> stablePeriodEnd >= minStableDays && r.volatility < 0.30
  {
    if stablePeriodEnd < minStableDays then Stability(false, 0.0)
    else
      var v := volatility(StabilityWindow(prices, stablePeriodEnd, minStableDays));
      Stability(v < 0.30, v)
  }

  /** `Series.max()` of a non-empty series. */
  function SeqMax(s: seq<Price>): (m: Price)
    requires s != []
    ensures m in s
    ensures forall i :: 0 <= i < |s| ==> s[i] <= m
  {
    if |s| == 1 then s[0]
    else
      var m' := SeqMax(s[1..]);
      if s[0] >= m' then s[0] else m'
  }
}
