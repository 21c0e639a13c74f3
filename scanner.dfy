/** The scanning pipeline of fallen_angel_scanner.py: the scanner's own
    ticker universe (`get_all_tickers` and the lists it merges), the
    per-ticker admission chain of `scan_for_fallen_angels` and the loop
    that collects and ranks the admitted candidates. Price histories and
    fundamentals come from the network in the original; here they are
    the parameter `history`, `None` when fetching raised. */
module FallenAngelScanner {
  import opened Wrappers
  import opened OrderedDedup
  import opened Markets
  import opened Screening
  import opened Scoring
  import opened Ranking

  const MinDropPercent: real := 20.0
  const DropLookbackDays: nat := 30
  const MinMarketCap: real := 2000000000.0
  const MinStablePeriod: nat := 90
  /** `all_prices[-60:]`: the window of the recent high. */
  const RecentHighDays: nat := 60

  const FallenAngelCandidates: seq<string> := [
    "TTD", "LULU", "CDW", "GFS", "ON", "BIIB", "ENPH", "CZR",
    "MKTX", "ZS", "RIVN", "LCID", "MRNA", "WBD"
  ]

  const Sp500Fallback: seq<string> := [
    "AAPL", "MSFT", "GOOGL", "AMZN", "NVDA", "META", "TSLA"
  ]

  const Nasdaq100Tickers: seq<string> := [
    "AAPL", "MSFT", "GOOGL", "GOOG", "AMZN", "NVDA", "META", "TSLA",
    "AVGO", "ASML", "COST", "NFLX", "AMD", "ADBE", "PEP", "CSCO",
    "TMUS", "CMCSA", "TXN", "INTC", "QCOM", "INTU", "HON", "AMGN",
    "AMAT", "SBUX", "ISRG", "ADP", "ADI", "GILD", "BKNG", "VRTX",
    "PANW", "REGN", "LRCX", "MU", "MDLZ", "SNPS", "CDNS", "PYPL",
    "MRVL", "KLAC", "CRWD", "ORLY", "MAR", "FTNT", "MELI", "CSX",
    "ADSK", "ABNB", "DASH", "ROP", "WDAY", "NXPI", "CPRT", "PCAR",
    "CHTR", "AEP", "PAYX", "MNST", "ROST", "ODFL", "EA", "FAST",
    "KDP", "DXCM", "GEHC", "CTSH", "VRSK", "EXC", "CTAS", "LULU",
    "IDXX", "KHC", "XEL", "CCEP", "AZN", "MCHP", "BIIB", "ANSS",
    "WBD", "DDOG", "TEAM", "MDB", "ILMN", "ALGN", "ARM", "MRNA",
    "RIVN", "LCID", "ALNY", "FER", "INSM", "MPWR", "STX", "WDC"
  ]

  const WseTickers: seq<string> := [
    "PKO.WA", "PZU.WA", "PKN.WA", "KGH.WA", "PEO.WA", "CDR.WA", "ALE.WA", "DNP.WA",
    "LPP.WA", "PGE.WA", "JSW.WA", "CCC.WA", "CPS.WA", "OPL.WA", "MBK.WA", "KRU.WA",
    "BDX.WA", "KTY.WA", "ASB.WA", "LTS.WA", "11B.WA", "ATT.WA", "CIG.WA", "EUR.WA",
    "ING.WA", "KER.WA", "MIL.WA"
  ]

  const Ftse100Tickers: seq<string> := [
    "SHEL.L", "AZN.L", "HSBA.L", "ULVR.L", "BP.L", "GSK.L", "DGE.L", "RIO.L",
    "BATS.L", "REL.L", "NG.L", "LSEG.L", "BARC.L", "LLOY.L", "VOD.L", "AAL.L",
    "GLEN.L", "BHP.L", "CPG.L", "PRU.L", "IMB.L", "TSCO.L", "BA.L", "CNA.L",
    "RKT.L", "MNG.L", "EXPN.L", "RR.L", "WPP.L", "LGEN.L", "STJ.L", "INF.L",
    "FERG.L", "III.L", "NWG.L", "PSN.L", "AUTO.L", "STAN.L", "SGE.L", "AV.L",
    "ANTO.L", "SSE.L", "BT-A.L", "ENT.L", "SPX.L", "SBRY.L", "BRBY.L", "WTB.L",
    "CRDA.L"
  ]

  const TaseTickers: seq<string> := [
    "TEVA.TA", "LUMI.TA", "POLI.TA", "ESLT.TA", "ICL.TA", "TATT.TA", "AZRG.TA", "FIBI.TA",
    "MZTF.TA", "NICE.TA", "TASE.TA", "DLEKG.TA", "MLSR.TA", "BEZQ.TA", "ALHE.TA", "ELAL.TA",
    "PRCH.TA", "FTAL.TA", "MGRM.TA", "BIGT.TA", "ENLT.TA"
  ]

  const DaxTickers: seq<string> := [
    "ADS.DE", "AIR.DE", "ALV.DE", "BAS.DE", "BAYN.DE", "BEI.DE", "BMW.DE", "BNR.DE",
    "CBK.DE", "CON.DE", "DB1.DE", "DBK.DE", "DHL.DE", "DTE.DE", "EOAN.DE", "FME.DE",
    "FRE.DE", "HEI.DE", "HEN.DE", "HFG.DE", "IFX.DE", "MBG.DE", "MRK.DE", "MTX.DE",
    "MUV2.DE", "PAH3.DE", "PUM.DE", "QIA.DE", "RHM.DE", "RWE.DE", "SAP.DE", "SHL.DE",
    "SIE.DE", "SRT.DE", "SY1.DE", "VNA.DE", "VOW3.DE", "ZAL.DE", "HNR1.DE"
  ]


  /** `get_sp500_tickers`: the fetched symbols, or seven large US companies
      when the fetch raised. */
  function Sp500Tickers(fetched: Option<seq<string>>): (r: seq<string>)
    ensures fetched.Some? ==> r == fetched.value
    ensures fetched.None? ==> r == Sp500Fallback
  {
    fetched.GetOr(Sp500Fallback)
  }

  /** The lists merged after the priority list, in `extend` order. */
  function IndexLists(fetched: Option<seq<string>>): seq<string> {
    Sp500Tickers(fetched) + Nasdaq100Tickers + WseTickers + Ftse100Tickers + TaseTickers + DaxTickers
  }

  /** `all_tickers` after the seven `extend` calls. */
  function MergedLists(fetched: Option<seq<string>>): seq<string> {
    FallenAngelCandidates + IndexLists(fetched)
  }

  lemma FallenAngelCandidatesDistinct()
    ensures NoDuplicates(FallenAngelCandidates)
  {
  }

  /** `get_all_tickers`: the priority list first, then every index list,
      each ticker kept at its first occurrence only. */
  method GetAllTickers(fetched: Option<seq<string>>) returns (unique: seq<string>)
    ensures unique == Dedup(MergedLists(fetched))
    ensures NoDuplicates(unique)
    ensures forall t :: t in unique <==> t in MergedLists(fetched)
    ensures forall i, j :: 0 <= i < j < |unique| ==>
      FirstIndex(MergedLists(fetched), unique[i]) < FirstIndex(MergedLists(fetched), unique[j])
    ensures |FallenAngelCandidates| <= |unique| && unique[..|FallenAngelCandidates|] == FallenAngelCandidates
  {
    var allTickers: seq<string> := [];
    allTickers := allTickers + FallenAngelCandidates;
    allTickers := allTickers + Sp500Tickers(fetched);
    allTickers := allTickers + Nasdaq100Tickers;
    allTickers := allTickers + WseTickers;
    allTickers := allTickers + Ftse100Tickers;
    allTickers := allTickers + TaseTickers;
    allTickers := allTickers + DaxTickers;
    ExtendSeven(FallenAngelCandidates, Sp500Tickers(fetched), Nasdaq100Tickers,
      WseTickers, Ftse100Tickers, TaseTickers, DaxTickers);

    unique := RemoveDuplicates(allTickers);
    FallenAngelCandidatesDistinct();
    PriorityMerge(FallenAngelCandidates, IndexLists(fetched));
  }

  /** What the scanner reads about one ticker: its daily closes over the
      past year, oldest first, and its fundamentals snapshot. */
  datatype Snapshot = Snapshot(closes: seq<Price>, info: Info)

  /** The body of the scanning loop for one ticker: `None` for every
      `continue`, including the ones reached through a raised exception,
      and otherwise the candidate record. */
  function Evaluate(ticker: string, snap: Option<Snapshot>, volatility: seq<Price> -> real): (r: Option<Candidate>)
    ensures r.Some? ==> snap.Some? && r.value.ticker == ticker
  {
    if snap.None? then None
    else
      var closes, info := snap.value.closes, snap.value.info;
      if |closes| < DropLookbackDays + MinStablePeriod then None
      else if !(info.marketCap.Num? && info.marketCap.x >= MinMarketCap) then None
      else
        var drop := CalculateDrop(closes[|closes| - DropLookbackDays..], DropLookbackDays);
        if drop.None? || drop.value.percent >= -MinDropPercent then None
        else AssessDropped(ticker, closes, info, drop.value, volatility)
  }

  /** The rest of the loop body once the drop is deep enough: the
      stability check, the health snapshot and the risk score. */
  function AssessDropped(ticker: string, closes: seq<Price>, info: Info, drop: Drop,
                         volatility: seq<Price> -> real): (r: Option<Candidate>)
    requires |closes| >= DropLookbackDays + MinStablePeriod && info.marketCap.Num?
    requires drop.currentPrice > 0.0
    ensures r.Some? ==>
      && r.value.ticker == ticker
      && r.value.dropPercent == drop.percent
      && r.value.stabilityVol < 0.30
      && r.value.riskScore == RiskScore(r.value.debtToEquity, r.value.currentRatio, drop.percent, r.value.stabilityVol)
  {
    var stability := CheckStability(closes, |closes| - DropLookbackDays, MinStablePeriod, volatility);
    if !stability.stable then None
    else
      var health := FinancialHealth(info);
      if health.None? || health.value.currentRatio.None? then None
      else
        var h := health.value;
        var score := RiskScore(h.debtToEquity, h.currentRatio.value, drop.percent, stability.volatility);
        Some(NewCandidate(ticker, closes, info, drop, stability, h, score))
  }

  /** The potential gain, multiplied back by the price it is relative
      to, is the price difference in hundredths. */
  lemma GainTimesPrice(gain: real, high: real, current: real)
    requires current > 0.0 && gain == (high - current) / current * 100.0
    ensures gain * current == (high - current) * 100.0
  {
    var q := (high - current) / current;
    assert q * current == high - current;
  }

  /** The record appended for an admitted ticker. */
  function NewCandidate(ticker: string, closes: seq<Price>, info: Info, drop: Drop,
                        stability: Stability, h: Health, score: int): (c: Candidate)
    requires |closes| >= RecentHighDays && info.marketCap.Num? && h.currentRatio.Some?
    requires drop.currentPrice > 0.0
    ensures c.ticker == ticker && (c.market, c.currency) == MarketInfo(ticker)
    ensures c.previousHigh >= closes[|closes| - 1] as real
    ensures c.bankruptcyRisk == BankruptcyRisk(c.riskScore)
  {
    var recent := closes[|closes| - RecentHighDays..];
    var high := SeqMax(recent);
    var current := drop.currentPrice;
    assert recent[|recent| - 1] == closes[|closes| - 1];
    var market := MarketInfo(ticker);
    Candidate(
      ticker := ticker,
      company := info.longName.GetOr(ticker),
      market := market.0,
      currency := market.1,
      currentPrice := current,
      dropPercent := drop.percent,
      dropDays := drop.days,
      previousHigh := high,
      potentialGain := (high - current) / current * 100.0,
      marketCap := info.marketCap.x,
      riskScore := score,
      bankruptcyRisk := BankruptcyRisk(score),
      debtToEquity := h.debtToEquity,
      currentRatio := h.currentRatio.value,
      cashPosition := if h.cashToMarketCap > 0.15 then Strong else Moderate,
      stabilityVol := stability.volatility,
      broker := BrokerRecommendation(ticker, market.0))
  }

  /** The potential gain of a new record is the distance from its price
      up to the recent high, in percent of the price. */
  lemma NewCandidateGain(ticker: string, closes: seq<Price>, info: Info, drop: Drop,
                         stability: Stability, h: Health, score: int)
    requires |closes| >= RecentHighDays && info.marketCap.Num? && h.currentRatio.Some?
    requires drop.currentPrice > 0.0
    ensures var c := NewCandidate(ticker, closes, info, drop, stability, h, score);
      c.potentialGain * c.currentPrice == (c.previousHigh - c.currentPrice) * 100.0
  {
    var c := NewCandidate(ticker, closes, info, drop, stability, h, score);
    GainTimesPrice(c.potentialGain, c.previousHigh, c.currentPrice);
  }

  /** The admission chain stated on the inputs alone: a year of history
      with at least 120 closes, a market cap of at least 2 billion, a last
      close more than 20% below the close 29 sessions earlier, a
      volatility under 0.30 over the 90 closes before those 30, a cash
      amount and a current ratio that are not `None`. */
  ghost predicate Admissible(snap: Option<Snapshot>, volatility: seq<Price> -> real) {
    && snap.Some?
    && var closes, info := snap.value.closes, snap.value.info;
    && |closes| >= 120
    && info.marketCap.Num? && info.marketCap.x >= 2000000000.0
    && (closes[|closes| - 1] as real) < 0.8 * (closes[|closes| - 30] as real)
    && volatility(closes[|closes| - 120..|closes| - 30]) < 0.30
    && !info.totalCash.Null?
    && !info.currentRatio.Null?
  }

  /** Over a window of 30 positive closes, the drop exceeds 20% exactly
      when the last close is below 80% of the first. */
  lemma DropBeyondThreshold(window: seq<Price>)
    requires |window| == DropLookbackDays
    ensures var d := CalculateDrop(window, DropLookbackDays);
      d.Some? && (d.value.percent < -MinDropPercent <==> (window[29] as real) < 0.8 * (window[0] as real))
  {
    var d := CalculateDrop(window, DropLookbackDays).value;
    var s: real, c: real := window[0], window[29];
    assert d.percent * s == (c - s) * 100.0;
    if d.percent < -20.0 {
      assert d.percent * s < -20.0 * s;
    } else {
      assert d.percent * s >= -20.0 * s;
    }
  }

  /** The stability window is the 90 closes just before the 30-day drop
      window. */
  lemma StabilityWindowBeforeDrop(closes: seq<Price>)
    requires |closes| >= DropLookbackDays + MinStablePeriod
    ensures StabilityWindow(closes, |closes| - DropLookbackDays, MinStablePeriod)
      == closes[|closes| - 120..|closes| - 30]
  {
    var w := StabilityWindow(closes, |closes| - DropLookbackDays, MinStablePeriod);
    var e := |closes| - DropLookbackDays;
    assert w + closes[e..] == closes[e - MinStablePeriod..];
    assert w == (w + closes[e..])[..|w|];
  }

  /** A ticker becomes a candidate exactly when it is admissible. */
  lemma EvaluateAdmits(ticker: string, snap: Option<Snapshot>, volatility: seq<Price> -> real)
    ensures Evaluate(ticker, snap, volatility).Some? <==> Admissible(snap, volatility)
  {
    if snap.Some? && |snap.value.closes| >= DropLookbackDays + MinStablePeriod {
      var closes := snap.value.closes;
      var window := closes[|closes| - DropLookbackDays..];
      DropBeyondThreshold(window);
      assert window[0] == closes[|closes| - 30] && window[29] == closes[|closes| - 1];
      StabilityWindowBeforeDrop(closes);
    }
  }

  /** An admitted candidate names its ticker, and its market, currency
      and broker come from the suffix tables. */
  lemma CandidateNaming(ticker: string, snap: Option<Snapshot>, volatility: seq<Price> -> real)
    requires Evaluate(ticker, snap, volatility).Some?
    ensures var c := Evaluate(ticker, snap, volatility).value;
      && c.ticker == ticker
      && c.market == MarketInfo(ticker).0 && c.currency == MarketInfo(ticker).1
      && c.broker.primary != "Check manually"
  {
    ClassifiedTickersHaveBroker(ticker);
  }

  /** The potential gain from a price up to a high at least as large is
      not negative. */
  lemma GainNotNegative(high: real, current: real)
    requires current > 0.0 && high >= current
    ensures (high - current) / current * 100.0 >= 0.0
  {
    assert (high - current) / current >= 0.0;
  }

  /** The prices of an admitted candidate: its recent high is at least
      its current price, so the potential gain is not negative. */
  lemma CandidatePrices(ticker: string, snap: Option<Snapshot>, volatility: seq<Price> -> real)
    requires Evaluate(ticker, snap, volatility).Some?
    ensures var c := Evaluate(ticker, snap, volatility).value;
      && c.currentPrice == snap.value.closes[|snap.value.closes| - 1] as real
      && c.previousHigh >= c.currentPrice
      && c.potentialGain >= 0.0
  {
    var closes := snap.value.closes;
    var c := Evaluate(ticker, snap, volatility).value;
    var window := closes[|closes| - DropLookbackDays..];
    var drop := CalculateDrop(window, DropLookbackDays).value;
    assert c.currentPrice == drop.currentPrice == window[|window| - 1] as real;
    assert window[|window| - 1] == closes[|closes| - 1];
    var recent := closes[|closes| - RecentHighDays..];
    assert c.previousHigh == SeqMax(recent) as real;
    assert recent[|recent| - 1] == closes[|closes| - 1];
    GainNotNegative(c.previousHigh, c.currentPrice);
  }

  /** The risk of an admitted candidate: its drop is deeper than 20%, and
      since its volatility is below 0.30 the volatility factor adds
      nothing, which caps its score at 8. */
  lemma CandidateRisk(ticker: string, snap: Option<Snapshot>, volatility: seq<Price> -> real)
    requires Evaluate(ticker, snap, volatility).Some?
    ensures var c := Evaluate(ticker, snap, volatility).value;
      && c.dropPercent < -MinDropPercent
      && c.dropDays == DropLookbackDays
      && c.stabilityVol < 0.30
      && VolatilityPoints(c.stabilityVol) == 0
      && 0 <= c.riskScore <= 8
      && c.bankruptcyRisk == BankruptcyRisk(c.riskScore)
  {
  }

  /** Everything an admitted candidate satisfies. */
  lemma CandidateFacts(ticker: string, snap: Option<Snapshot>, volatility: seq<Price> -> real)
    requires Evaluate(ticker, snap, volatility).Some?
    ensures var c := Evaluate(ticker, snap, volatility).value;
      && c.ticker == ticker
      && c.market == MarketInfo(ticker).0 && c.currency == MarketInfo(ticker).1
      && c.broker.primary != "Check manually"
      && c.currentPrice == snap.value.closes[|snap.value.closes| - 1] as real
      && c.previousHigh >= c.currentPrice
      && c.potentialGain >= 0.0
      && c.dropPercent < -MinDropPercent
      && c.dropDays == DropLookbackDays
      && c.stabilityVol < 0.30
      && VolatilityPoints(c.stabilityVol) == 0
      && 0 <= c.riskScore <= 8
      && c.bankruptcyRisk == BankruptcyRisk(c.riskScore)
  {
    CandidateNaming(ticker, snap, volatility);
    CandidatePrices(ticker, snap, volatility);
    CandidateRisk(ticker, snap, volatility);
  }

  /** The loop of `scan_for_fallen_angels` up to the ranking: the
      admitted candidates in scanning order. */
  function Screen(tickers: seq<string>, history: string -> Option<Snapshot>,
                  volatility: seq<Price> -> real): seq<Candidate>
  {
    if tickers == [] then []
    else
      var last := tickers[|tickers| - 1];
      var init := Screen(tickers[..|tickers| - 1], history, volatility);
      match Evaluate(last, history(last), volatility)
      case None => init
      case Some(c) => init + [c]
  }

  /** Every collected record is the evaluation of a scanned ticker. */
  lemma {:induction false} ScreenSound(tickers: seq<string>, history: string -> Option<Snapshot>,
                                       volatility: seq<Price> -> real)
    ensures forall c :: c in Screen(tickers, history, volatility) ==>
      c.ticker in tickers && Evaluate(c.ticker, history(c.ticker), volatility) == Some(c)
  {
    if tickers != [] {
      var init, last := tickers[..|tickers| - 1], tickers[|tickers| - 1];
      ScreenSound(init, history, volatility);
      assert tickers == init + [last];
    }
  }

  /** Every admissible scanned ticker is collected. */
  lemma {:induction false} ScreenComplete(tickers: seq<string>, history: string -> Option<Snapshot>,
                                          volatility: seq<Price> -> real)
    ensures forall t :: t in tickers && Admissible(history(t), volatility) ==>
      && Evaluate(t, history(t), volatility).Some?
      && Evaluate(t, history(t), volatility).value in Screen(tickers, history, volatility)
  {
    if tickers != [] {
      var init, last := tickers[..|tickers| - 1], tickers[|tickers| - 1];
      ScreenComplete(init, history, volatility);
      assert tickers == init + [last];
      forall t | t in tickers && Admissible(history(t), volatility)
        ensures Evaluate(t, history(t), volatility).Some?
        ensures Evaluate(t, history(t), volatility).value in Screen(tickers, history, volatility)
      {
        EvaluateAdmits(t, history(t), volatility);
      }
    }
  }

  /** Scanning a list without repeats yields candidates with distinct
      tickers. */
  lemma {:induction false} ScreenDistinct(tickers: seq<string>, history: string -> Option<Snapshot>,
                                          volatility: seq<Price> -> real)
    requires NoDuplicates(tickers)
    ensures DistinctTickers(Screen(tickers, history, volatility))
  {
    if tickers != [] {
      var init, last := tickers[..|tickers| - 1], tickers[|tickers| - 1];
      assert NoDuplicates(init);
      ScreenDistinct(init, history, volatility);
      ScreenSound(init, history, volatility);
      assert last !in init;
      var found := Screen(init, history, volatility);
      match Evaluate(last, history(last), volatility)
      case None =>
        assert Screen(tickers, history, volatility) == found;
      case Some(c) =>
        assert Screen(tickers, history, volatility) == found + [c];
        forall i | 0 <= i < |found|
          ensures found[i].ticker != c.ticker
        {
          assert found[i] in found;
        }
    }
  }

  /** One pass of the loop body: the chain of early exits, with the risk
      score accumulated by `CalculateRiskScore`. */
  method ScreenTicker(ticker: string, snap: Option<Snapshot>, volatility: seq<Price> -> real)
    returns (r: Option<Candidate>)
    ensures r == Evaluate(ticker, snap, volatility)
  {
    if snap.None? {
      return None;
    }
    var closes, info := snap.value.closes, snap.value.info;
    if |closes| < DropLookbackDays + MinStablePeriod {
      return None;
    }
    if !(info.marketCap.Num? && info.marketCap.x >= MinMarketCap) {
      return None;
    }
    var recentPrices := closes[|closes| - DropLookbackDays..];
    var drop := CalculateDrop(recentPrices, DropLookbackDays);
    if drop.None? || drop.value.percent >= -MinDropPercent {
      return None;
    }
    r := ScreenDropped(ticker, closes, info, drop.value, volatility);
  }

  /** The checks of the loop body after the drop test. */
  method ScreenDropped(ticker: string, closes: seq<Price>, info: Info, drop: Drop,
                       volatility: seq<Price> -> real) returns (r: Option<Candidate>)
    requires |closes| >= DropLookbackDays + MinStablePeriod && info.marketCap.Num?
    requires drop.currentPrice > 0.0
    ensures r == AssessDropped(ticker, closes, info, drop, volatility)
  {
    var stablePeriodEnd := |closes| - DropLookbackDays;
    var stability := CheckStability(closes, stablePeriodEnd, MinStablePeriod, volatility);
    if !stability.stable {
      return None;
    }
    var health := FinancialHealth(info);
    if health.None? {
      return None;
    }
    var score := CalculateRiskScore(health.value, drop.percent, stability.volatility);
    if score.None? {
      return None;
    }
    r := Some(NewCandidate(ticker, closes, info, drop, stability, health.value, score.value));
  }

  /** The scanning loop: every ticker in order, admitted records
      appended. */
  method CollectCandidates(tickers: seq<string>, history: string -> Option<Snapshot>,
                           volatility: seq<Price> -> real)
    returns (candidates: seq<Candidate>)
    ensures candidates == Screen(tickers, history, volatility)
  {
    candidates := [];
    for i := 0 to |tickers|
      invariant candidates == Screen(tickers[..i], history, volatility)
    {
      var ticker := tickers[i];
      var c := ScreenTicker(ticker, history(ticker), volatility);
      assert tickers[..i + 1][..i] == tickers[..i];
      if c.Some? {
        candidates := candidates + [c.value];
      }
    }
    assert tickers[..|tickers|] == tickers;
  }

  /** What the ranked result of scanning a repeat-free list drawn from
      `universe` satisfies. */
  lemma ScanFacts(tickers: seq<string>, universe: seq<string>, history: string -> Option<Snapshot>,
                  volatility: seq<Price> -> real)
    requires NoDuplicates(tickers)
    requires forall t :: t in tickers ==> t in universe
    ensures DistinctTickers(Rank(Screen(tickers, history, volatility)))
    ensures forall c :: c in Rank(Screen(tickers, history, volatility)) ==>
      && c.ticker in universe
      && Evaluate(c.ticker, history(c.ticker), volatility) == Some(c)
      && c.riskScore <= RiskCeiling
  {
    ScreenDistinct(tickers, history, volatility);
    RankDistinct(Screen(tickers, history, volatility));
    ScreenSound(tickers, history, volatility);
  }

  /** `scan_for_fallen_angels`: scan every ticker of the universe in order,
      collect the admitted ones, then keep risk scores up to 7, sort by
      potential gain from highest to lowest and keep the first 15. */
  method ScanForFallenAngels(sp500Fetched: Option<seq<string>>, history: string -> Option<Snapshot>,
                             volatility: seq<Price> -> real)
    returns (ranked: seq<Candidate>)
    ensures ranked == Rank(Screen(Dedup(MergedLists(sp500Fetched)), history, volatility))
    ensures DistinctTickers(ranked)
    ensures forall c :: c in ranked ==>
      && c.ticker in MergedLists(sp500Fetched)
      && Evaluate(c.ticker, history(c.ticker), volatility) == Some(c)
      && c.riskScore <= RiskCeiling
  {
    var tickers := GetAllTickers(sp500Fetched);
    var candidates := CollectCandidates(tickers, history, volatility);
    ranked := Rank(candidates);
    ScanFacts(tickers, MergedLists(sp500Fetched), history, volatility);
  }
}
