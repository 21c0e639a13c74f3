/** Fundamentals and the bankruptcy-risk score (fallen_angel_scanner.py,
    `get_financial_health`, `calculate_risk_score` and the label chosen in
    `scan_for_fallen_angels`). */
module Scoring {
  import opened Wrappers

  /** A numeric field of the fundamentals snapshot: missing from the
      mapping, present but `None`, or a number. */
  datatype Value = Absent | Null | Num(x: real)

  /** The fields of the fundamentals snapshot the scanner reads. */
  datatype Info = Info(
    debtToEquity: Value,
    currentRatio: Value,
    marketCap: Value,
    totalCash: Value,
    longName: Option<string>)

  /** The health mapping. `currentRatio` is `None` when the snapshot holds
      an explicit `None`, which the score later fails to compare. */
  datatype Health = Health(debtToEquity: real, currentRatio: Option<real>, cashToMarketCap: real)

  datatype RiskLabel = VeryLow | Low | Medium | High {
    function Text(): string {
      match this
      case VeryLow => "Very Low"
      case Low => "Low"
      case Medium => "Medium"
      case High => "High"
    }
  }

  /** Python truthiness of a field read with `info.get(key)`. */
  predicate Truthy(v: Value) {
    v.Num? && v.x != 0.0
  }

  /** Comparing a `None` market cap with 0, or dividing a `None` cash
      amount, raises and yields `None`. Otherwise: a present non-zero
      debt/equity is rescaled from percent, a missing current ratio
      defaults to 1, and cash is related to market cap only when the
      market cap is positive. */
  function FinancialHealth(info: Info): (r: Option<Health>)
    ensures r.None? <==>
      info.marketCap.Null? || (info.marketCap.Num? && info.marketCap.x > 0.0 && info.totalCash.Null?)
    ensures r.Some? ==>
      && (Truthy(info.debtToEquity) ==> r.value.debtToEquity * 100.0 == info.debtToEquity.x)
      && (!Truthy(info.debtToEquity) ==> r.value.debtToEquity == 0.0)
      && (r.value.currentRatio.None? <==> info.currentRatio.Null?)
      && (info.currentRatio.Absent? ==> r.value.currentRatio == Some(1.0))
      && (info.currentRatio.Num? ==> r.value.currentRatio == Some(info.currentRatio.x))
    ensures r.Some? && info.marketCap.Num? && info.marketCap.x > 0.0 ==>
      r.value.cashToMarketCap * info.marketCap.x == (if info.totalCash.Num? then info.totalCash.x else 0.0)
    ensures r.Some? && !(info.marketCap.Num? && info.marketCap.x > 0.0) ==> r.value.cashToMarketCap == 0.0
  {
    var debtToEquity := if Truthy(info.debtToEquity) then info.debtToEquity.x / 100.0 else 0.0;
    var currentRatio :=
      match info.currentRatio
      case Absent => Some(1.0)
      case Null => None
      case Num(x) => Some(x);
    match info.marketCap
    case Null => None
    case Absent => Some(Health(debtToEquity, currentRatio, 0.0))
    case Num(cap) =>
      if cap > 0.0 then
        match info.totalCash
        case Null => None
        case Absent => Some(Health(debtToEquity, currentRatio, 0.0 / cap))
        case Num(cash) => Some(Health(debtToEquity, currentRatio, cash / cap))
      else Some(Health(debtToEquity, currentRatio, 0.0))
  }

  function DebtPoints(debtToEquity: real): (p: int)
    ensures 0 <= p <= 3
  {
    if debtToEquity > 2.0 then 3
    else if debtToEquity > 1.0 then 2
    else if debtToEquity > 0.5 then 1
    else 0
  }

  function LiquidityPoints(currentRatio: real): (p: int)
    ensures 0 <= p <= 2
  {
    if currentRatio < 1.0 then 2
    else if currentRatio < 1.5 then 1
    else 0
  }

  function DropPoints(dropPercent: real): (p: int)
    ensures 0 <= p <= 3
  {
    if dropPercent < -50.0 then 3
    else if dropPercent < -40.0 then 2
    else if dropPercent < -30.0 then 1
    else 0
  }

  function VolatilityPoints(stabilityVol: real): (p: int)
    ensures 0 <= p <= 2
  {
    if stabilityVol > 0.40 then 2
    else if stabilityVol > 0.30 then 1
    else 0
  }

  /** The additive point table starting from 0, capped at 10. */
  function RiskScore(debtToEquity: real, currentRatio: real, dropPercent: real, stabilityVol: real): (r: int)
    ensures 0 <= r <= 10
  {
    var score := DebtPoints(debtToEquity) + LiquidityPoints(currentRatio)
      + DropPoints(dropPercent) + VolatilityPoints(stabilityVol);
    if score < 10 then score else 10
  }

  /** `calculate_risk_score`: accumulates the points of each factor in
      turn. `None` stands for the TypeError raised when the current ratio
      is `None`. */
  method CalculateRiskScore(health: Health, dropPercent: real, stabilityVol: real) returns (r: Option<int>)
    ensures r.None? <==> health.currentRatio.None?
    ensures r.Some? ==>
      r.value == RiskScore(health.debtToEquity, health.currentRatio.value, dropPercent, stabilityVol)
  {
    var score := 0;

    if health.debtToEquity > 2.0 {
      score := score + 3;
    } else if health.debtToEquity > 1.0 {
      score := score + 2;
    } else if health.debtToEquity > 0.5 {
      score := score + 1;
    }

    if health.currentRatio.None? {
      return None;
    }
    var currentRatio := health.currentRatio.value;
    if currentRatio < 1.0 {
      score := score + 2;
    } else if currentRatio < 1.5 {
      score := score + 1;
    }

    if dropPercent < -50.0 {
      score := score + 3;
    } else if dropPercent < -40.0 {
      score := score + 2;
    } else if dropPercent < -30.0 {
      score := score + 1;
    }

    if stabilityVol > 0.40 {
      score := score + 2;
    } else if stabilityVol > 0.30 {
      score := score + 1;
    }

    r := Some(if score < 10 then score else 10);
  }

  /** The largest sum of the table is 3 + 2 + 3 + 2, so the cap at 10
      never changes the score. */
  lemma RiskCapNeverBinds(debtToEquity: real, currentRatio: real, dropPercent: real, stabilityVol: real)
    ensures RiskScore(debtToEquity, currentRatio, dropPercent, stabilityVol)
         == DebtPoints(debtToEquity) + LiquidityPoints(currentRatio)
          + DropPoints(dropPercent) + VolatilityPoints(stabilityVol)
  {
  }

  /** More leverage, less liquidity, a deeper drop or more volatility
      never lowers the score. */
  lemma RiskScoreMonotone(d1: real, d2: real, c1: real, c2: real, p1: real, p2: real, v1: real, v2: real)
    requires d1 <= d2 && c2 <= c1 && p2 <= p1 && v1 <= v2
    ensures RiskScore(d1, c1, p1, v1) <= RiskScore(d2, c2, p2, v2)
  {
  }

  /** `bankruptcy_risk`: thresholds 3, 5 and 7 on the score. */
  function BankruptcyRisk(score: int): (l: RiskLabel)
    ensures l == VeryLow <==> score <= 3
    ensures l == Low <==> 3 < score <= 5
    ensures l == Medium <==> 5 < score <= 7
    ensures l == High <==> 7 < score
  {
    if score <= 3 then VeryLow
    else if score <= 5 then Low
    else if score <= 7 then Medium
    else High
  }
}
