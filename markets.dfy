/** Market classification by ticker suffix and the broker table keyed by
    market (fallen_angel_scanner.py, `get_market_info` and
    `get_broker_recommendation`). Markets are the display strings the
    scanner uses, so a string that is none of them reaches the
    "Check manually" fallback exactly as in the source. */
module Markets {
  import opened Wrappers
  import opened Strings

  const US: string := "🇺🇸 US"
  const WSE: string := "🇵🇱 WSE"
  const LSE: string := "🇬🇧 LSE"
  const TASE: string := "🇮🇱 TASE"
  const XETRA: string := "🇩🇪 XETRA"

  datatype Broker = Broker(primary: string, alternative: Option<string>, reason: string, emoji: string)

  /** The (market, currency) pair of a ticker, decided by the first
      matching suffix among ".WA", ".L", ".TA" and ".DE". */
  function MarketInfo(ticker: string): (r: (string, string))
    ensures EndsWith(ticker, ".WA") ==> r == (WSE, "PLN")
    ensures !EndsWith(ticker, ".WA") && EndsWith(ticker, ".L") ==> r == (LSE, "GBP")
    ensures !EndsWith(ticker, ".WA") && !EndsWith(ticker, ".L") && EndsWith(ticker, ".TA") ==> r == (TASE, "ILS")
    ensures (!EndsWith(ticker, ".WA") && !EndsWith(ticker, ".L") && !EndsWith(ticker, ".TA")
             && EndsWith(ticker, ".DE")) ==> r == (XETRA, "EUR")
    ensures r.0 == US <==>
      !EndsWith(ticker, ".WA") && !EndsWith(ticker, ".L") && !EndsWith(ticker, ".TA") && !EndsWith(ticker, ".DE")
    ensures r.0 == US ==> r.1 == "USD"
  {
    if EndsWith(ticker, ".WA") then (WSE, "PLN")
    else if EndsWith(ticker, ".L") then (LSE, "GBP")
    else if EndsWith(ticker, ".TA") then (TASE, "ILS")
    else if EndsWith(ticker, ".DE") then (XETRA, "EUR")
    else (US, "USD")
  }

  /** Known markets get a named broker; anything else is to be checked
      by hand. The ticker is not consulted. */
  function BrokerRecommendation(ticker: string, market: string): (r: Broker)
    ensures r.primary == "Check manually" <==> market !in {US, WSE, LSE, XETRA, TASE}
    ensures market == TASE <==> r.primary == "Bank Leumi"
    ensures market == US ==> r.primary == "Revolut" && r.alternative == Some("mBank eMakler")
    ensures market in {WSE, LSE, XETRA} ==> r.primary == "mBank eMakler"
    ensures market == LSE <==> r.alternative == Some("Revolut")
  {
    if market == US then
      Broker("Revolut", Some("mBank eMakler"), "Lower fees + extended hours", "📱")
    else if market == WSE then
      Broker("mBank eMakler", None, "Local market, best execution", "🏦")
    else if market == LSE then
      Broker("mBank eMakler", Some("Revolut"), "Full FTSE access, lower fees", "🏦")
    else if market == XETRA then
      Broker("mBank eMakler", None, "Full DAX access, good fees", "🏦")
    else if market == TASE then
      Broker("Bank Leumi", None, "Only broker with TASE access", "🇮🇱")
    else
      Broker("Check manually", None, "Unknown market", "❓")
  }

  /** The four suffixes exclude one another, so a ticker with one of them
      lands in that suffix's market whatever order the tests run in. */
  lemma SuffixDeterminesMarket(ticker: string)
    ensures EndsWith(ticker, ".WA") ==> MarketInfo(ticker) == (WSE, "PLN")
    ensures EndsWith(ticker, ".L") ==> MarketInfo(ticker) == (LSE, "GBP")
    ensures EndsWith(ticker, ".TA") ==> MarketInfo(ticker) == (TASE, "ILS")
    ensures EndsWith(ticker, ".DE") ==> MarketInfo(ticker) == (XETRA, "EUR")
  {
    if EndsWith(ticker, ".L") && EndsWith(ticker, ".WA") {
      SuffixOfSuffix(ticker, ".L", ".WA");
    }
  }

  /** Every market the classifier produces has a broker: composed with
      `MarketInfo`, the fallback row is never reached. */
  lemma ClassifiedTickersHaveBroker(ticker: string)
    ensures BrokerRecommendation(ticker, MarketInfo(ticker).0).primary != "Check manually"
  {
  }
}
