/** The ticker universe of the configuration file (tickers_config.py):
    the per-market lists and their merge into one scanning order without
    repeats. The S&P 500 table is fetched from the web; the fetched symbol
    column is a parameter, `None` when the fetch raised. */
module TickersConfig {
  import opened Wrappers
  import opened Strings
  import opened OrderedDedup
  import opened Markets

  const FallenAngelCandidates: seq<string> := [
    "TTD", "LULU", "CDW", "GFS", "ON", "BIIB", "ENPH", "CZR",
    "MKTX", "ZS", "RIVN", "LCID", "MRNA", "WBD", "INTC"
  ]

  const Sp500Fallback: seq<string> := [
    "AAPL", "MSFT", "GOOGL", "AMZN", "NVDA", "META", "TSLA", "BRK.B",
    "LLY", "V", "UNH", "XOM", "WMT", "JPM", "MA", "JNJ",
    "PG", "AVGO", "HD", "CVX", "MRK", "ABBV", "COST", "KO",
    "PEP", "BAC", "NFLX", "TMO", "CRM", "AMD", "MCD", "CSCO",
    "ACN", "LIN", "ADBE", "ORCL", "ABT", "WFC", "DHR", "NKE",
    "CMCSA", "TXN", "DIS", "PM", "VZ", "BMY", "INTC", "UPS",
    "NEE", "RTX"
  ]

  const Nasdaq100Tickers: seq<string> := [
    "AAPL", "MSFT", "GOOGL", "GOOG", "AMZN", "NVDA", "META", "TSLA",
    "AVGO", "ASML", "COST", "NFLX", "AMD", "ADBE", "PEP", "CSCO",
    "TMUS", "CMCSA", "TXN", "INTC", "QCOM", "INTU", "HON", "AMGN",
    "AMAT", "SBUX", "ISRG", "ADP", "ADI", "GILD", "BKNG", "VRTX",
    "PANW", "REGN", "LRCX", "MU", "MDLZ", "SNPS", "CDNS", "PYPL",
    "MRVL", "KLAC", "CRWD", "ORLY", "MAR", "FTNT", "MELI", "CSX",
    "ADSK", "ABNB", "DASH", "ROP", "WDAY", "NXPI", "CPRT", "PCAR",
    "CHTR", "AEP", "PAYX", "MNST", "ROST", "ODFL", "EA", "FAST",
    "KDP", "DXCM", "GEHC", "CTSH", "VRSK", "EXC", "CTAS", "IDXX",
    "KHC", "XEL", "CCEP", "AZN", "MCHP", "BIIB", "ANSS", "WBD",
    "DDOG", "TEAM", "MDB", "ILMN", "ALGN", "ARM", "MRNA", "RIVN",
    "LCID", "ALNY", "FER", "INSM", "MPWR", "STX", "WDC"
  ]

  const WseTickers: seq<string> :=
    WseLargeCap + WseMidCap + WseSmallCap

  const WseLargeCap: seq<string> := [
    "PKO.WA", "PZU.WA", "PKN.WA", "KGH.WA", "PEO.WA", "CDR.WA", "ALE.WA", "DNP.WA",
    "LPP.WA", "PGE.WA"
  ]

  const WseMidCap: seq<string> := [
    "JSW.WA", "CCC.WA", "CPS.WA", "OPL.WA", "MBK.WA", "KRU.WA", "BDX.WA", "KTY.WA",
    "ASB.WA", "LTS.WA"
  ]

  const WseSmallCap: seq<string> := [
    "11B.WA", "ATT.WA", "CIG.WA", "EUR.WA", "ING.WA", "KER.WA", "MIL.WA"
  ]

  const Ftse100Tickers: seq<string> :=
    FtseEnergyResources + FtseFinancials + FtseConsumer + FtseIndustrialTech + FtseOther

  const FtseEnergyResources: seq<string> := [
    "SHEL.L", "BP.L", "RIO.L", "GLEN.L", "BHP.L", "ANTO.L"
  ]

  const FtseFinancials: seq<string> := [
    "HSBA.L", "BARC.L", "LLOY.L", "NWG.L", "STAN.L", "LSEG.L", "PRU.L", "LGEN.L",
    "III.L"
  ]

  const FtseConsumer: seq<string> := [
    "AZN.L", "ULVR.L", "DGE.L", "BATS.L", "REL.L", "TSCO.L", "SBRY.L", "BRBY.L"
  ]

  const FtseIndustrialTech: seq<string> := [
    "NG.L", "SSE.L", "BA.L", "RR.L", "RKT.L", "WPP.L", "EXPN.L", "CNA.L",
    "VOD.L", "BT-A.L", "AAL.L"
  ]

  const FtseOther: seq<string> := [
    "GSK.L", "CPG.L", "IMB.L", "MNG.L", "STJ.L", "INF.L", "FERG.L", "PSN.L",
    "AUTO.L", "SGE.L", "AV.L", "ENT.L", "SPX.L", "WTB.L", "CRDA.L"
  ]

  const TaseTickers: seq<string> :=
    TaseLargeCap + TaseMidCap + TaseSmallCap

  const TaseLargeCap: seq<string> := [
    "TEVA.TA", "LUMI.TA", "POLI.TA", "ESLT.TA", "ICL.TA", "TATT.TA", "AZRG.TA", "NICE.TA"
  ]

  const TaseMidCap: seq<string> := [
    "FIBI.TA", "MZTF.TA", "TASE.TA", "DLEKG.TA", "MLSR.TA", "BEZQ.TA"
  ]

  const TaseSmallCap: seq<string> := [
    "ALHE.TA", "ELAL.TA", "PRCH.TA", "FTAL.TA", "MGRM.TA", "BIGT.TA", "ENLT.TA"
  ]

  const DaxTickers: seq<string> :=
    DaxIndustrialsAuto + DaxFinancials + DaxHealthcare + DaxIndustrialTech + DaxEnergyUtilities + DaxOther

  const DaxIndustrialsAuto: seq<string> := [
    "SAP.DE", "SIE.DE", "ALV.DE", "DTE.DE", "BAS.DE", "VOW3.DE", "BMW.DE", "MBG.DE",
    "ADS.DE", "PUM.DE"
  ]

  const DaxFinancials: seq<string> := [
    "DBK.DE", "CBK.DE", "DB1.DE"
  ]

  const DaxHealthcare: seq<string> := [
    "BAYN.DE", "MRK.DE", "FME.DE", "FRE.DE"
  ]

  const DaxIndustrialTech: seq<string> := [
    "IFX.DE", "SY1.DE", "AIR.DE", "MTX.DE", "RHM.DE", "SRT.DE", "HEI.DE", "BEI.DE"
  ]

  const DaxEnergyUtilities: seq<string> := [
    "EOAN.DE", "RWE.DE"
  ]

  const DaxOther: seq<string> := [
    "BNR.DE", "CON.DE", "DHL.DE", "HEN.DE", "HFG.DE", "MUV2.DE", "PAH3.DE", "QIA.DE",
    "SHL.DE", "VNA.DE", "ZAL.DE", "HNR1.DE"
  ]

  /** `get_sp500_tickers`: the fetched symbols, or the 50 largest US
      companies when the fetch raised. */
  function Sp500Tickers(fetched: Option<seq<string>>): (r: seq<string>)
    ensures fetched.Some? ==> r == fetched.value
    ensures fetched.None? ==> r == Sp500Fallback
  {
    fetched.GetOr(Sp500Fallback)
  }

  /** The lists merged after the priority list, in `extend` order. */
  function IndexLists(fetched: Option<seq<string>>): seq<string> {
    Sp500Tickers(fetched) + Nasdaq100Tickers + WseTickers + Ftse100Tickers + TaseTickers + DaxTickers
  }

  /** `all_tickers` after the seven `extend` calls. */
  function MergedLists(fetched: Option<seq<string>>): seq<string> {
    FallenAngelCandidates + IndexLists(fetched)
  }

  /** `get_all_tickers`: the priority list first, then every market list,
      each ticker kept at its first occurrence only. */
  method GetAllTickers(fetched: Option<seq<string>>) returns (unique: seq<string>)
    ensures unique == Dedup(MergedLists(fetched))
    ensures NoDuplicates(unique)
    ensures forall t :: t in unique <==> t in MergedLists(fetched)
    ensures forall i, j :: 0 <= i < j < |unique| ==>
      FirstIndex(MergedLists(fetched), unique[i]) < FirstIndex(MergedLists(fetched), unique[j])
    ensures |FallenAngelCandidates| <= |unique| && unique[..|FallenAngelCandidates|] == FallenAngelCandidates
  {
    var allTickers: seq<string> := [];
    allTickers := allTickers + FallenAngelCandidates;
    allTickers := allTickers + Sp500Tickers(fetched);
    allTickers := allTickers + Nasdaq100Tickers;
    allTickers := allTickers + WseTickers;
    allTickers := allTickers + Ftse100Tickers;
    allTickers := allTickers + TaseTickers;
    allTickers := allTickers + DaxTickers;
    ExtendSeven(FallenAngelCandidates, Sp500Tickers(fetched), Nasdaq100Tickers,
      WseTickers, Ftse100Tickers, TaseTickers, DaxTickers);

    unique := RemoveDuplicates(allTickers);
    FallenAngelCandidatesDistinct();
    PriorityMerge(FallenAngelCandidates, IndexLists(fetched));
  }

  /** A ticker is scanned iff it occurs in at least one source list. */
  lemma MergedListsMembers(fetched: Option<seq<string>>, t: string)
    ensures t in Dedup(MergedLists(fetched)) <==>
      t in FallenAngelCandidates || t in Sp500Tickers(fetched) || t in Nasdaq100Tickers
      || t in WseTickers || t in Ftse100Tickers || t in TaseTickers || t in DaxTickers
  {
    DedupElements(MergedLists(fetched));
  }

  /** The priority list holds no ticker twice, so it survives the merge
      unchanged as the head of the scanning order. */
  lemma FallenAngelCandidatesDistinct()
    ensures NoDuplicates(FallenAngelCandidates)
  {
  }

  /** The fallback S&P 500 list has 50 entries. */
  lemma Sp500FallbackSize()
    ensures |Sp500Fallback| == 50
  {
  }

  /** A list whose entries all end with one of the four market suffixes
      is classified, entry by entry, into that suffix's market. */
  lemma ListClassifiedBySuffix(list: seq<string>, suffix: string, market: (string, string))
    requires (suffix, market) in
      {(".WA", (WSE, "PLN")), (".L", (LSE, "GBP")), (".TA", (TASE, "ILS")), (".DE", (XETRA, "EUR"))}
    requires forall t :: t in list ==> EndsWith(t, suffix)
    ensures forall t :: t in list ==> MarketInfo(t) == market
  {
    forall t | t in list
      ensures MarketInfo(t) == market
    {
      SuffixDeterminesMarket(t);
    }
  }

  lemma WseLeadingGroupsEndWithWa()
    ensures forall t :: t in WseLargeCap + WseMidCap ==> EndsWith(t, ".WA")
  {
  }

  lemma WseSmallCapEndsWithWa()
    ensures forall t :: t in WseSmallCap ==> EndsWith(t, ".WA")
  {
  }

  /** Every entry of a market list carries the suffix that classifies it
      into that market (each list is checked group by group). */
  lemma WseTickersAreWse()
    ensures forall t :: t in WseTickers ==> EndsWith(t, ".WA") && MarketInfo(t) == (WSE, "PLN")
  {
    WseLeadingGroupsEndWithWa();
    WseSmallCapEndsWithWa();
    assert WseTickers == (WseLargeCap + WseMidCap) + WseSmallCap;
    ListClassifiedBySuffix(WseTickers, ".WA", (WSE, "PLN"));
  }

  lemma FtseLeadingGroupsEndWithL()
    ensures forall t :: t in FtseEnergyResources + FtseFinancials + FtseConsumer ==> EndsWith(t, ".L")
  {
  }

  lemma FtseTrailingGroupsEndWithL()
    ensures forall t :: t in FtseIndustrialTech + FtseOther ==> EndsWith(t, ".L")
  {
  }

  lemma Ftse100TickersAreLse()
    ensures forall t :: t in Ftse100Tickers ==> EndsWith(t, ".L") && MarketInfo(t) == (LSE, "GBP")
  {
    FtseLeadingGroupsEndWithL();
    FtseTrailingGroupsEndWithL();
    assert Ftse100Tickers
      == (FtseEnergyResources + FtseFinancials + FtseConsumer) + (FtseIndustrialTech + FtseOther);
    ListClassifiedBySuffix(Ftse100Tickers, ".L", (LSE, "GBP"));
  }

  lemma TaseLeadingGroupsEndWithTa()
    ensures forall t :: t in TaseLargeCap + TaseMidCap ==> EndsWith(t, ".TA")
  {
  }

  lemma TaseSmallCapEndsWithTa()
    ensures forall t :: t in TaseSmallCap ==> EndsWith(t, ".TA")
  {
  }

  lemma TaseTickersAreTase()
    ensures forall t :: t in TaseTickers ==> EndsWith(t, ".TA") && MarketInfo(t) == (TASE, "ILS")
  {
    TaseLeadingGroupsEndWithTa();
    TaseSmallCapEndsWithTa();
    assert TaseTickers == (TaseLargeCap + TaseMidCap) + TaseSmallCap;
    ListClassifiedBySuffix(TaseTickers, ".TA", (TASE, "ILS"));
  }

  lemma DaxLeadingGroupsEndWithDe()
    ensures forall t :: t in DaxIndustrialsAuto + DaxFinancials + DaxHealthcare ==> EndsWith(t, ".DE")
  {
  }

  lemma DaxTrailingGroupsEndWithDe()
    ensures forall t :: t in DaxIndustrialTech + DaxEnergyUtilities + DaxOther ==> EndsWith(t, ".DE")
  {
  }

  lemma DaxTickersAreXetra()
    ensures forall t :: t in DaxTickers ==> EndsWith(t, ".DE") && MarketInfo(t) == (XETRA, "EUR")
  {
    DaxLeadingGroupsEndWithDe();
    DaxTrailingGroupsEndWithDe();
    assert DaxTickers == (DaxIndustrialsAuto + DaxFinancials + DaxHealthcare)
      + (DaxIndustrialTech + DaxEnergyUtilities + DaxOther);
    ListClassifiedBySuffix(DaxTickers, ".DE", (XETRA, "EUR"));
  }
}
