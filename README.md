# Fallen-angel scanner: a verified model

This project models the deterministic core of a multi-market "fallen angel"
stock scanner in Dafny. A fallen angel is a large company whose price fell
sharply after a calm period. The model has three parts.

- **The scanner** (`fallen_angel_scanner.py`):
  - it builds its ticker universe (a priority list first, then the S&P 500,
    NASDAQ-100, Warsaw, London, Tel Aviv and Frankfurt lists, each ticker
    kept once);
  - it admits a ticker only after a chain of checks: enough history, a
    market cap of at least 2 billion, a drop of more than 20% over the last
    30 sessions, low volatility over the 90 sessions before, and readable
    fundamentals;
  - it scores bankruptcy risk on an additive point table capped at 10 and
    labels the score;
  - it classifies the market by ticker suffix and recommends a broker;
  - it ranks the candidates: risk score at most 7, stable sort by potential
    gain from highest to lowest, at most 15.
- **The ticker configuration** (`tickers_config.py`): the per-market lists
  and the same ordered, duplicate-free merge.
- **The maintenance check** (`update_tickers.py`):
  - it compares the fetched S&P 500 composition with the configured one and
    detects the 50-ticker fallback;
  - it tests the priority and NASDAQ-100 tickers through a quote lookup;
  - it builds the report section by section;
  - it returns exit code 1 exactly when something needs action.

Every network access is an input:
- the S&P 500 symbol column is an `Option<seq<string>>`, `None` when
  fetching raised;
- the price history and fundamentals of each ticker come from a function
  `history: string -> Option<Snapshot>`;
- the Wikipedia composition in the maintenance check is an
  `Option<set<string>>`;
- quote lookups are a function returning `Result<Quote>`, where `Raised`
  carries the exception's message;
- the annualised volatility of a price window is a function parameter.

Modules, one per file:

- `Wrappers`: `Option` and `Result`.
- `Strings`: the suffix test and Python's string order and sort.
- `OrderedDedup`: the `seen`-set loop and the specification it is proved against.
- `Markets`: the suffix classifier and the broker table.
- `Screening`: drop, stability window, recent high.
- `Scoring`: fundamentals, health, risk score, risk label.
- `Ranking`: the candidate record and the ranker.
- `FallenAngelScanner`: the scanner's own lists, the admission chain and the scan loop.
- `TickersConfig`: the configuration's lists and merge.
- `UpdateTickers`: the maintenance check.

Five operations are written both as the source's loop or step-by-step
accumulation and as a specification function, and the method is proved
equal to the function:
- the deduplication loop `RemoveDuplicates` and `Dedup`;
- the scan loop `CollectCandidates` and `Screen`;
- the loop body `ScreenTicker` (with `ScreenDropped` after the drop test)
  and `Evaluate` (with `AssessDropped`);
- the validity loop `CheckTickersValidity` and `Failures`;
- the accumulating `CalculateRiskScore` and `RiskScore`.

The properties are then proved about the functions.

## Model

| member | source | states |
|---|---|---|
| OrderedDedup.RemoveDuplicates | tickers_config.py:352-360 | the seen-set loop returns exactly the first-occurrence sequence `Dedup` of its input |
| OrderedDedup.DedupElements | tickers_config.py:352-358 | a value is in the output iff it is in the input |
| OrderedDedup.DedupNoDuplicates | tickers_config.py:352-358 | the output holds no value twice |
| OrderedDedup.DedupFirstOccurrenceOrder | tickers_config.py:353-358 | output order is the order of first occurrences in the input |
| OrderedDedup.DedupIdempotent | tickers_config.py:353-358 | a duplicate-free input comes out unchanged |
| OrderedDedup.DedupKeepsPrefix | tickers_config.py:341-358 | a duplicate-free list placed first is exactly the head of the output |
| OrderedDedup.PriorityMerge | tickers_config.py:339-360 | with a duplicate-free priority list first: no repeats, same members, first-occurrence order, priority list as prefix |
| Strings.SortStrings | update_tickers.py:268-269 | `sorted` on strings: the result is in Python string order and as long as the input |
| Strings.SortStringsPermutes | update_tickers.py:268-269 | the sorted list is a permutation of the input |
| Strings.SortStringsDistinct | update_tickers.py:268-269 | sorting a list without repeats gives a list without repeats |
| Markets.MarketInfo | fallen_angel_scanner.py:233-244 | `.WA`, `.L`, `.TA`, `.DE` map to WSE/PLN, LSE/GBP, TASE/ILS, XETRA/EUR in that order of tests; anything else is US/USD |
| Markets.SuffixDeterminesMarket | fallen_angel_scanner.py:233-244 | a ticker with any one of the four suffixes lands in that suffix's market whatever the test order |
| Markets.BrokerRecommendation | fallen_angel_scanner.py:178-231 | "Check manually" exactly for a market outside the five; Bank Leumi exactly for TASE; Revolut with mBank for US; mBank for WSE, LSE, XETRA; Revolut as alternative exactly for LSE |
| Markets.ClassifiedTickersHaveBroker | fallen_angel_scanner.py:178-244 | the broker of the classified market of any ticker is never "Check manually" |
| Screening.CalculateDrop | fallen_angel_scanner.py:250-259 | all zeros below the lookback length; otherwise start and current are the first and last close, days is the lookback, and percent × start = (current − start) × 100 |
| Screening.DropSign | fallen_angel_scanner.py:250-259 | the percentage is negative iff the last close is below the first, zero iff they are equal, and above −100 |
| Screening.ThirtyPercentDrop | fallen_angel_scanner.py:250-259 | 29 closes at 100 then 70 give a drop of exactly −30% over 30 days |
| Screening.StabilityWindow | fallen_angel_scanner.py:266 | the slice with Python's clamping; inside the series it is the `minStableDays` closes ending just before `stablePeriodEnd` |
| Screening.CheckStability | fallen_angel_scanner.py:261-272 | (False, 0) when the window end is below the minimum length; otherwise the window's volatility, and stable iff it is below 0.30 |
| Screening.SeqMax | fallen_angel_scanner.py:398 | `max()` is an element of the series and bounds every element |
| Scoring.FinancialHealth | fallen_angel_scanner.py:277-295 | `None` exactly when market cap is `None` or the cash of a positive market cap is `None`; debt/equity is raw/100 when truthy else 0; a missing current ratio is 1; cash/market cap only for a positive market cap, else 0 |
| Scoring.DebtPoints | fallen_angel_scanner.py:301-307 | between 0 and 3 points |
| Scoring.LiquidityPoints | fallen_angel_scanner.py:309-313 | between 0 and 2 points |
| Scoring.DropPoints | fallen_angel_scanner.py:315-321 | between 0 and 3 points |
| Scoring.VolatilityPoints | fallen_angel_scanner.py:323-327 | between 0 and 2 points |
| Scoring.RiskScore | fallen_angel_scanner.py:297-329 | the score lies in [0, 10] |
| Scoring.CalculateRiskScore | fallen_angel_scanner.py:297-329 | the accumulating method fails exactly when the current ratio is `None` and otherwise equals the point-table score |
| Scoring.RiskCapNeverBinds | fallen_angel_scanner.py:297-329 | the cap at 10 never changes the sum of the four factors |
| Scoring.RiskScoreMonotone | fallen_angel_scanner.py:301-327 | more debt, a lower current ratio, a deeper drop or more volatility never lowers the score |
| Scoring.BankruptcyRisk | fallen_angel_scanner.py:402-409 | Very Low iff score ≤ 3, Low iff 3 < score ≤ 5, Medium iff 5 < score ≤ 7, High iff score > 7 |
| Ranking.FilterRisk | fallen_angel_scanner.py:437 | the kept candidates are never more than the input |
| Ranking.FilterRiskMembers | fallen_angel_scanner.py:437 | a candidate is kept iff it is in the input and its risk score is at most 7 |
| Ranking.FilterRiskAppend | fallen_angel_scanner.py:437 | filtering a concatenation is concatenating the filtered parts, so order and repeats are kept |
| Ranking.FilterRiskSingleton | fallen_angel_scanner.py:437 | one candidate is kept exactly when its risk score is at most 7 |
| Ranking.FilterRiskWithGain | fallen_angel_scanner.py:437 | the candidates of one gain, filtered, are the filtered candidates of that gain in the same order |
| Ranking.SortByGain | fallen_angel_scanner.py:438 | the result is as long as the input and non-increasing in potential gain |
| Ranking.SortByGainPermutes | fallen_angel_scanner.py:438 | the sorted list is a permutation of the input |
| Ranking.SortByGainStable | fallen_angel_scanner.py:438 | the sort is stable: candidates with equal gain keep their input order |
| Ranking.SortByGainOfSorted | fallen_angel_scanner.py:438 | an input already in order is returned unchanged |
| Ranking.Rank | fallen_angel_scanner.py:437-440 | every ranked candidate is an input with risk ≤ 7; gains are non-increasing; at most 15; all filtered candidates unless 15 were kept |
| Ranking.RankKeepsTieOrder | fallen_angel_scanner.py:437-440 | within each gain, the ranked candidates are a prefix of the admissible ones of that gain in scanning order |
| Ranking.RankKeepsBest | fallen_angel_scanner.py:437-440 | a filtered candidate cut by truncation has a gain no higher than any kept one |
| Ranking.RankIdempotent | fallen_angel_scanner.py:437-440 | ranking a ranked list changes nothing |
| Ranking.RankDistinct | fallen_angel_scanner.py:437-440 | distinct tickers stay distinct through the ranking |
| Ranking.RankedAreNotHighRisk | fallen_angel_scanner.py:402-409 | no ranked candidate is labelled High |
| FallenAngelScanner.Sp500Tickers | fallen_angel_scanner.py:43-50 | the fetched symbols, or the seven-ticker fallback when fetching raised |
| FallenAngelScanner.FallenAngelCandidatesDistinct | fallen_angel_scanner.py:122-147 | the scanner's priority list has no repeats |
| FallenAngelScanner.GetAllTickers | fallen_angel_scanner.py:149-172 | the output is `Dedup` of the seven lists in extend order: no repeats, same members, first-occurrence order, priority list first |
| FallenAngelScanner.DropBeyondThreshold | fallen_angel_scanner.py:380-384 | over 30 closes, the drop exceeds 20% exactly when the last close is below 80% of the first |
| FallenAngelScanner.StabilityWindowBeforeDrop | fallen_angel_scanner.py:386-388 | the stability window is the 90 closes just before the 30-day drop window |
| FallenAngelScanner.Evaluate | fallen_angel_scanner.py:364-433 | the loop body for one ticker: a record only for a ticker whose history was fetched, and it names that ticker |
| FallenAngelScanner.AssessDropped | fallen_angel_scanner.py:386-430 | after the drop test, a record carries the ticker and its drop, a volatility below 0.30, and the point-table score of its own fundamentals |
| FallenAngelScanner.NewCandidate | fallen_angel_scanner.py:397-430 | the appended record names its ticker with its suffix market and currency, a recent high at least the last close, and the label of its score |
| FallenAngelScanner.NewCandidateGain | fallen_angel_scanner.py:398-399 | the potential gain times the price is the distance to the 60-close high in hundredths |
| FallenAngelScanner.EvaluateAdmits | fallen_angel_scanner.py:364-433 | a ticker yields a candidate exactly when history ≥ 120, market cap ≥ 2e9, drop beyond 20%, prior volatility < 0.30, and cash and current ratio are not `None` |
| FallenAngelScanner.CandidateFacts | fallen_angel_scanner.py:397-430 | an admitted record names its ticker, its market and broker (never "Check manually"), the last close as current price, a recent high at least the current price, a non-negative gain, a drop beyond 20% over 30 days, a volatility adding no points, a score ≤ 8, and the score's label |
| FallenAngelScanner.ScreenSound | fallen_angel_scanner.py:364-433 | every collected record is the evaluation of a scanned ticker |
| FallenAngelScanner.ScreenComplete | fallen_angel_scanner.py:364-433 | every admissible scanned ticker's record is collected |
| FallenAngelScanner.ScreenDistinct | fallen_angel_scanner.py:364-433 | scanning a repeat-free list collects records with distinct tickers |
| FallenAngelScanner.ScreenTicker | fallen_angel_scanner.py:364-433 | the loop body with its early exits yields exactly the evaluation of the ticker |
| FallenAngelScanner.ScreenDropped | fallen_angel_scanner.py:386-430 | after the drop test, the stability and health checks and the accumulating risk score yield exactly the rest of the evaluation |
| FallenAngelScanner.CollectCandidates | fallen_angel_scanner.py:360-433 | the scan loop returns exactly the admitted records of the tickers, in scanning order |
| FallenAngelScanner.ScanFacts | fallen_angel_scanner.py:347-440 | scanning a repeat-free universe ranks records with distinct tickers, each from the universe, each its ticker's evaluation, each of risk ≤ 7 |
| FallenAngelScanner.ScanForFallenAngels | fallen_angel_scanner.py:347-440 | the result is the ranking of the records collected over the merged universe; tickers are distinct, each comes from a source list, each record is that ticker's evaluation, and each risk is ≤ 7 |
| TickersConfig.Sp500Tickers | tickers_config.py:50-73 | the fetched symbols, or the 50-ticker fallback when fetching raised |
| TickersConfig.GetAllTickers | tickers_config.py:329-360 | the output is `Dedup` of the seven lists in extend order: no repeats, same members, first-occurrence order, priority list first |
| TickersConfig.MergedListsMembers | tickers_config.py:339-360 | a ticker is scanned iff it is in at least one of the seven source lists |
| TickersConfig.FallenAngelCandidatesDistinct | tickers_config.py:13-44 | the priority list has no repeats |
| TickersConfig.Sp500FallbackSize | tickers_config.py:63-73 | the fallback S&P 500 list has exactly 50 entries |
| TickersConfig.WseTickersAreWse | tickers_config.py:134-167 | every Warsaw entry ends with `.WA` and is classified WSE/PLN |
| TickersConfig.Ftse100TickersAreLse | tickers_config.py:180-227 | every London entry ends with `.L` and is classified LSE/GBP |
| TickersConfig.TaseTickersAreTase | tickers_config.py:241-268 | every Tel Aviv entry ends with `.TA` and is classified TASE/ILS |
| TickersConfig.DaxTickersAreXetra | tickers_config.py:281-323 | every Frankfurt entry ends with `.DE` and is classified XETRA/EUR |
| UpdateTickers.CompareSp500Lists | update_tickers.py:126-195 | `None` iff the fetch failed or was empty; fallback verdict below 400 distinct local tickers; otherwise additions = current − local, removals = local − current, up to date iff both are empty |
| UpdateTickers.ChangesDisjoint | update_tickers.py:161-163 | no ticker is both added and removed |
| UpdateTickers.FallbackDetected | update_tickers.py:143-156 | when the configuration fell back to its 50 tickers, the comparison reports the fallback for any non-empty fetched set |
| UpdateTickers.TestTickerValidity | update_tickers.py:87-99 | a raised lookup is invalid with its message; otherwise valid iff either price field is truthy, with reason "Active" or "No price data" |
| UpdateTickers.FailuresExact | update_tickers.py:101-120 | an entry is reported exactly for a listed ticker that fails the test, with its reason; none iff all pass; never more than the tickers |
| UpdateTickers.FailuresAppend | update_tickers.py:107-118 | failures come in input order: those of a list's first part precede those of the rest |
| UpdateTickers.CheckTickersValidity | update_tickers.py:101-120 | the loop returns exactly `Failures` of its input |
| UpdateTickers.ListOfSet | update_tickers.py:192-193 | `list(set)` holds each member of the set once |
| UpdateTickers.ChangeListing | update_tickers.py:262-280 | at most 10 changes are all listed; more are listed by total, the 5 smallest in sorted order, and the count of the rest |
| UpdateTickers.FullListing | update_tickers.py:262-265 | a heading then one entry per change, covering every change |
| UpdateTickers.ShortListing | update_tickers.py:266-270 | the total, five distinct changes in ascending order no greater than any unlisted one, then the remaining count |
| UpdateTickers.Sp500Section | update_tickers.py:246-282 | the section states the fetch failure, the fallback notice, "up to date", or the changes with both listings, exactly as the comparison decided |
| UpdateTickers.ChangeSection | update_tickers.py:260-280 | the changes verdict followed by the listing of the additions and then of the removals, with neither the all-clear line nor the fetch failure |
| UpdateTickers.InvalidSection | update_tickers.py:284-300 | the all-valid verdict for no failures; otherwise the count then every failure in order |
| UpdateTickers.ActionSection | update_tickers.py:302-324 | the section is exactly its heading, then item 1 with its verify line if the S&P list changed, item 2 with its remove and add lines if a priority ticker failed, item 3 with its remove and replace lines if a NASDAQ-100 ticker failed, in that order, then the all-clear line iff none applies |
| UpdateTickers.ActionLinesAllClear | update_tickers.py:302-324 | the section holds only heading, items, instruction lines and the all-clear line, and the all-clear line iff no action is needed |
| UpdateTickers.ActionLinesItems | update_tickers.py:302-324 | item 1 appears iff the S&P list changed, item 2 iff a priority ticker failed, item 3 iff a NASDAQ-100 ticker failed |
| UpdateTickers.GenerateUpdateReport | update_tickers.py:237-328 | the report is the banner, the S&P 500, priority-candidate, NASDAQ-100 and action sections in that order with each section's contract (the action section line for line), and the closing rule; the all-clear line iff no action is needed; the fetch failure shown iff there was one; every failure listed |
| UpdateTickers.FailuresListed | update_tickers.py:284-300 | every failure of a validation section has its own line with its reason |
| UpdateTickers.ReportVerdicts | update_tickers.py:237-328 | in a report so laid out, the all-clear line appears iff no action is needed and the fetch failure iff the comparison returned nothing |
| UpdateTickers.ReportListsFailures | update_tickers.py:284-300 | a report so laid out names every failing priority and NASDAQ-100 ticker with its reason |
| UpdateTickers.RenderGenerated | update_tickers.py:243 | the generated-at line ends with the timestamp |
| UpdateTickers.RenderEntry | update_tickers.py:264-265 | an entry line shows its ticker after the four-character `+`/`-` marker |
| UpdateTickers.Join | update_tickers.py:328 | joining a single part gives that part unchanged |
| UpdateTickers.JoinLength | update_tickers.py:328 | the joined text is as long as the parts together plus one newline between each two |
| UpdateTickers.JoinAppend | update_tickers.py:328 | joining two non-empty runs of parts is joining each with one newline between |
| UpdateTickers.ReportText | update_tickers.py:328 | the text of a one-line report is that line's text |
| UpdateTickers.ReportTextAppend | update_tickers.py:237-328 | the text of two runs of report lines is the text of each, one newline apart |
| UpdateTickers.UpdateCheck | update_tickers.py:334-375 | exit code 1 iff the comparison found changes or a priority or NASDAQ-100 ticker failed, else 0; the report carries the all-clear line iff the code is 0; the report is laid out from the comparison and the two failure lists |

## Left out

- Network access (Wikipedia tables, `requests`, `yfinance` history,
  fundamentals and quotes) is replaced by the parameters described above.
- The volatility formula of `check_stability_before_drop` is a function
  parameter. It uses `pct_change`, standard deviation and √252 on floats.
  Only the guard, the window and the 0.30 threshold are modelled.
- Floating point is modelled as exact `real` arithmetic. Closing prices are
  modelled as positive, so NaN, infinities and division by a zero close do
  not arise.
- `get_drop_reason` is not modelled, because it is a random choice.
  `Ranking.Candidate` has no `drop_reason` field.
- `generate_html_email`, `send_email`, logging, progress printing, the
  dependency check, report file writing and the `__main__` blocks are
  not modelled, because they are output plumbing.
- The report is built as a sequence of structured lines; `Render` gives
  each line's text and `ReportText` joins them with newlines. The clock is
  not modelled: the timestamp is a parameter of the rendering.
- UpdateTickers.NoteText and UpdateTickers.Render are tables of the
  report's fixed wording and carry no contract of their own. Only the
  generated-at line and the entry lines have lemmas (`RenderGenerated`,
  `RenderEntry`); the report's properties are stated on the structured
  lines.
- Ranking.SortByGain: `candidates.sort(...)` sorts the local list in
  place; the model returns the sorted list as a value. The list is local
  to the scan, so no other reference observes the update.
- `RISK_WEIGHTS` is never read by the source, so it is not modelled.
- Scoring.Info: a `longName` present as `None` is not distinguished from a
  missing one. The source would then store `None` as the company name,
  while the model stores the ticker.
- UpdateTickers.CompareSp500Lists: the `except` branch around the local
  list is not modelled. Building a set from a list of strings cannot raise.
- UpdateTickers.ListOfSet: the iteration order of `list(set)` is left
  unspecified (a nondeterministic choice). A full listing is therefore
  proved to contain every change once, not to follow any particular order.
- FallenAngelScanner.Evaluate: every exception caught by the scan loop's
  `except` is a skipped ticker. Only the exceptions the modelled code can
  raise are captured: comparing a `None` market cap or current ratio,
  dividing a `None` cash amount, and a failed history fetch.
- FallenAngelScanner.ScanForFallenAngels: the one-year history window is
  not modelled, because the dates come from the clock. `history` returns
  the closes of that window.
