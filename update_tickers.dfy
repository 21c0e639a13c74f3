/** The bi-weekly maintenance check of update_tickers.py: compare the
    fetched S&P 500 composition with the configured one, test the priority
    and NASDAQ-100 tickers through a quote oracle, build the report and
    decide the exit code. The Wikipedia fetch is the parameter `current`
    (`None` when it failed), the quote lookup is the function `quote`, and
    the configured S&P 500 list is `TickersConfig.Sp500Tickers` of the
    configuration's own fetch. */
module UpdateTickers {
  import opened Wrappers
  import opened Strings
  import opened OrderedDedup
  import opened Scoring
  import opened TickersConfig

  /** Below this many distinct symbols the configured list is taken to be
      the fallback. */
  const FallbackThreshold: nat := 400
  /** Longest change list shown in full. */
  const FullListingLimit: nat := 10
  /** Entries shown from a longer change list. */
  const ShortListingSize: nat := 5

  /** The mapping returned by `compare_sp500_lists`. */
  datatype Sp500Diff = Sp500Diff(upToDate: bool, additions: set<string>, removals: set<string>,
                                 usingFallback: bool)

  /** `compare_sp500_lists`: `None` when the fetch failed or found nothing;
      "up to date" with empty changes when the configured list is the
      fallback; otherwise the two set differences. */
  function CompareSp500Lists(current: Option<set<string>>, local: seq<string>): (r: Option<Sp500Diff>)
    ensures r.None? <==> current.None? || current.value == {}
    ensures r.Some? && |set t | t in local| < FallbackThreshold ==>
      r.value == Sp500Diff(true, {}, {}, true)
    ensures r.Some? && |set t | t in local| >= FallbackThreshold ==>
      && !r.value.usingFallback
      && (forall t :: t in r.value.additions <==> t in current.value && t !in local)
      && (forall t :: t in r.value.removals <==> t in local && t !in current.value)
      && (r.value.upToDate <==> r.value.additions == {} && r.value.removals == {})
  {
    if current.None? || current.value == {} then None
    else
      var localSet := set t | t in local;
      if |localSet| < FallbackThreshold then Some(Sp500Diff(true, {}, {}, true))
      else
        var additions := current.value - localSet;
        var removals := localSet - current.value;
        if additions == {} && removals == {} then Some(Sp500Diff(true, {}, {}, false))
        else Some(Sp500Diff(false, additions, removals, false))
  }

  /** No ticker is both added and removed. */
  lemma ChangesDisjoint(current: Option<set<string>>, local: seq<string>)
    requires CompareSp500Lists(current, local).Some?
    ensures CompareSp500Lists(current, local).value.additions
        !! CompareSp500Lists(current, local).value.removals
  {
  }

  /** A list has at most as many distinct entries as entries. */
  lemma {:induction false} DistinctAtMostLength(s: seq<string>)
    ensures |set t | t in s| <= |s|
  {
    if s != [] {
      var init := s[..|s| - 1];
      DistinctAtMostLength(init);
      assert s == init + [s[|s| - 1]];
      assert (set t | t in s) == (set t | t in init) + {s[|s| - 1]};
    }
  }

  /** When the configuration could not fetch the S&P 500 table, its
      50-entry fallback is detected, whatever the fetched composition. */
  lemma FallbackDetected(current: Option<set<string>>)
    requires current.Some? && current.value != {}
    ensures CompareSp500Lists(current, Sp500Tickers(None)) == Some(Sp500Diff(true, {}, {}, true))
  {
    Sp500FallbackSize();
    DistinctAtMostLength(Sp500Fallback);
  }

  /** The fields of a quote the validity test reads. */
  datatype Quote = Quote(regularMarketPrice: Value, currentPrice: Value)

  /** `test_ticker_validity`: `(is_valid, reason)`. */
  function TestTickerValidity(ticker: string, quote: string -> Result<Quote>): (r: (bool, string))
    ensures quote(ticker).Raised? ==> r == (false, quote(ticker).message)
    ensures quote(ticker).Ok? ==>
      (r.0 <==> Truthy(quote(ticker).value.regularMarketPrice) || Truthy(quote(ticker).value.currentPrice))
    ensures quote(ticker).Ok? ==> r.1 == (if r.0 then "Active" else "No price data")
  {
    match quote(ticker)
    case Raised(message) => (false, message)
    case Ok(q) =>
      if Truthy(q.regularMarketPrice) || Truthy(q.currentPrice) then (true, "Active")
      else (false, "No price data")
  }

  /** One entry of `invalid_tickers`. */
  datatype Invalid = Invalid(ticker: string, reason: string)

  /** The tickers of `tickers` that fail the validity test, in order. */
  function Failures(tickers: seq<string>, quote: string -> Result<Quote>): seq<Invalid> {
    if tickers == [] then []
    else
      var last := tickers[|tickers| - 1];
      var verdict := TestTickerValidity(last, quote);
      Failures(tickers[..|tickers| - 1], quote) + (if verdict.0 then [] else [Invalid(last, verdict.1)])
  }

  /** An entry is reported exactly for a listed ticker that fails the
      test, with the test's reason, and the report is empty exactly when
      every ticker passes. */
  lemma {:induction false} FailuresExact(tickers: seq<string>, quote: string -> Result<Quote>)
    ensures forall e :: e in Failures(tickers, quote) <==>
      e.ticker in tickers && TestTickerValidity(e.ticker, quote) == (false, e.reason)
    ensures Failures(tickers, quote) == [] <==> forall t :: t in tickers ==> TestTickerValidity(t, quote).0
    ensures |Failures(tickers, quote)| <= |tickers|
  {
    if tickers != [] {
      var init, last := tickers[..|tickers| - 1], tickers[|tickers| - 1];
      FailuresExact(init, quote);
      assert tickers == init + [last];
    }
  }

  /** Failures keep the order of the tested list: testing `a` and then
      `b` reports the failures of `a` before those of `b`. */
  lemma {:induction false} FailuresAppend(a: seq<string>, b: seq<string>, quote: string -> Result<Quote>)
    ensures Failures(a + b, quote) == Failures(a, quote) + Failures(b, quote)
  {
    if b == [] {
      assert a + b == a;
    } else {
      var ab, init, last := a + b, b[..|b| - 1], b[|b| - 1];
      assert ab[|ab| - 1] == last;
      assert ab[..|ab| - 1] == a + init;
      var verdict := TestTickerValidity(last, quote);
      var tail := if verdict.0 then [] else [Invalid(last, verdict.1)];
      assert Failures(ab, quote) == Failures(a + init, quote) + tail;
      assert Failures(b, quote) == Failures(init, quote) + tail;
      FailuresAppend(a, init, quote);
    }
  }

  /** `check_tickers_validity`: test each ticker in turn and collect the
      ones that fail. */
  method CheckTickersValidity(tickers: seq<string>, quote: string -> Result<Quote>)
    returns (invalid: seq<Invalid>)
    ensures invalid == Failures(tickers, quote)
  {
    invalid := [];
    for i := 0 to |tickers|
      invariant invalid == Failures(tickers[..i], quote)
    {
      var ticker := tickers[i];
      var verdict := TestTickerValidity(ticker, quote);
      assert tickers[..i + 1][..i] == tickers[..i];
      if !verdict.0 {
        invalid := invalid + [Invalid(ticker, verdict.1)];
      }
    }
    assert tickers[..|tickers|] == tickers;
  }

  datatype Change = Addition | Removal

  datatype Section = Sp500Status | FallenAngelSection | Nasdaq100 | ActionItems

  /** The one-line verdicts of the report. */
  datatype Status =
    | CouldNotFetch        // the S&P 500 comparison returned nothing
    | UsingFallback        // the configured S&P 500 list is the fallback
    | UpToDate             // the configured S&P 500 list matches
    | ChangesDetected      // additions or removals follow
    | AllCandidatesValid   // every priority ticker passed
    | AllNasdaqValid       // every NASDAQ-100 ticker passed

  /** The numbered action items. */
  datatype Item = UpdateSp500 | UpdateFallenAngels | UpdateNasdaq100

  /** The fixed explanatory lines under the fallback verdict and under the
      action items. */
  datatype Note =
    | Blank
    | WhatThisMeans | FallbackScope | UpdateScriptWorks | ConfigNeedsFix | HowToFix
    | VerifyChanges | RemoveInvalid | AddDelisted | FindReplacements

  /** One line of the report before the lines are joined; `Render` gives
      its text. */
  datatype Line =
    | Rule(newline: bool)
    | Title
    | Generated
    | Heading(section: Section)
    | Verdict(status: Status)
    | Detail(note: Note)
    | ListHeading(change: Change, total: Option<nat>)
    | Entry(change: Change, ticker: string)
    | More(count: nat)
    | InvalidSummary(failed: nat)
    | InvalidEntry(ticker: string, reason: string)
    | ActionItem(item: Item)
    | NoActionNeeded

  /** Decimal digits of `n`, as an f-string prints an `int`. */
  function NatToString(n: nat): (s: string)
    ensures |s| >= 1 && forall i :: 0 <= i < |s| ==> '0' <= s[i] <= '9'
  {
    if n < 10 then ["0123456789"[n]]
    else NatToString(n / 10) + ["0123456789"[n % 10]]
  }

  function NoteText(note: Note): string {
    match note
    case Blank => ""
    case WhatThisMeans => "**What this means:**"
    case FallbackScope => "- The scanner works fine but only scans 50 major stocks"
    case UpdateScriptWorks => "- Wikipedia fetch works in update script ✅"
    case ConfigNeedsFix => "- tickers_config.py needs the same fix"
    case HowToFix => "**To fix:** Update tickers_config.py to use requests library (already done in update_tickers.py)"
    case VerifyChanges => "   - Wikipedia auto-fetches, but you may want to verify additions/removals"
    case RemoveInvalid => "   - Remove invalid tickers listed above"
    case AddDelisted => "   - Consider adding recently delisted index stocks"
    case FindReplacements => "   - Check https://www.nasdaq.com/solutions/nasdaq-100 for replacements"
  }

  /** The text of one line; `timestamp` is the formatted current time. */
  function Render(line: Line, timestamp: string): string {
    match line
    case Rule(newline) => (if newline then "\n" else "") + seq(80, _ => '=')
    case Title => "TICKER LIST UPDATE REPORT"
    case Generated => "Generated: " + timestamp
    case Heading(section) =>
      (match section
       case Sp500Status => "\n## 📊 S&P 500 Status"
       case FallenAngelSection => "\n## 🔥 Fallen Angel Candidates"
       case Nasdaq100 => "\n## 📈 NASDAQ-100"
       case ActionItems => "\n## 🎯 ACTION ITEMS")
    case Verdict(status) =>
      (match status
       case CouldNotFetch => "❌ Could not fetch current S&P 500 list"
       case UsingFallback => "ℹ️  Using fallback list in tickers_config.py (50 tickers)"
       case UpToDate => "✅ List is up to date"
       case ChangesDetected => "⚠️  Changes detected - manual update required!"
       case AllCandidatesValid => "✅ All candidates are valid"
       case AllNasdaqValid => "✅ All tickers are valid")
    case Detail(note) => NoteText(note)
    case ListHeading(change, total) =>
      "\n### " + (if change == Addition then "Additions" else "Removals")
      + (if total.None? then ":" else " (" + NatToString(total.value) + " total):")
    case Entry(change, ticker) => (if change == Addition then "  + " else "  - ") + ticker
    case More(count) => "  ... and " + NatToString(count) + " more"
    case InvalidSummary(failed) => "❌ Found " + NatToString(failed) + " invalid tickers - REMOVE THESE:"
    case InvalidEntry(ticker, reason) => "  - " + ticker + " (" + reason + ")"
    case ActionItem(item) =>
      (match item
       case UpdateSp500 => "\n1. Update S&P 500 list:"
       case UpdateFallenAngels => "\n2. Update Fallen Angel Candidates in tickers_config.py:"
       case UpdateNasdaq100 => "\n3. Update NASDAQ-100 list in tickers_config.py:")
    case NoActionNeeded => "\n✅ No action needed - all lists are up to date!"
  }

  /** The generated-at line ends with the timestamp. */
  lemma RenderGenerated(timestamp: string)
    ensures var r := Render(Generated, timestamp);
      |r| >= |timestamp| && r[|r| - |timestamp|..] == timestamp
  {
    var prefix := "Generated: ";
    assert Render(Generated, timestamp) == prefix + timestamp;
  }

  /** An entry line shows its ticker after a four-character marker. */
  lemma RenderEntry(change: Change, ticker: string, timestamp: string)
    ensures var r := Render(Entry(change, ticker), timestamp);
      |r| == |ticker| + 4 && r[4..] == ticker
  {
    var marker := if change == Addition then "  + " else "  - ";
    assert |marker| == 4;
    assert Render(Entry(change, ticker), timestamp) == marker + ticker;
  }

  /** The total length of `parts`. */
  function LengthSum(parts: seq<string>): nat {
    if parts == [] then 0 else LengthSum(parts[..|parts| - 1]) + |parts[|parts| - 1]|
  }

  /** `"\n".join(parts)`: a single part comes back as it is. */
  function Join(parts: seq<string>): (r: string)
    ensures |parts| == 1 ==> r == parts[0]
  {
    if parts == [] then ""
    else if |parts| == 1 then parts[0]
    else Join(parts[..|parts| - 1]) + "\n" + parts[|parts| - 1]
  }

  /** The joined text is the parts plus one separator between each two. */
  lemma {:induction false} JoinLength(parts: seq<string>)
    requires parts != []
    ensures |Join(parts)| == LengthSum(parts) + |parts| - 1
    decreases |parts|
  {
    if |parts| > 1 {
      var front := parts[..|parts| - 1];
      JoinLength(front);
      assert front[..|front| - 1] == parts[..|parts| - 2];
    }
  }

  /** Joining two non-empty runs of parts is joining each and putting one
      newline between them. */
  lemma {:induction false} JoinAppend(a: seq<string>, b: seq<string>)
    requires a != [] && b != []
    ensures Join(a + b) == Join(a) + "\n" + Join(b)
    decreases |b|
  {
    var ab := a + b;
    var last := b[|b| - 1];
    assert ab[|ab| - 1] == last;
    if |b| == 1 {
      assert ab[..|ab| - 1] == a;
      assert Join(ab) == Join(a) + "\n" + last;
      assert Join(b) == last;
    } else {
      var front := b[..|b| - 1];
      assert ab[..|ab| - 1] == a + front;
      JoinAppend(a, front);
      assert Join(ab) == Join(a + front) + "\n" + last;
      assert Join(b) == Join(front) + "\n" + last;
    }
  }

  /** The text of the report: the text of each line, joined by newlines. */
  function ReportText(report: seq<Line>, timestamp: string): (r: string)
    ensures |report| == 1 ==> r == Render(report[0], timestamp)
  {
    Join(Map(LineText(timestamp), report))
  }

  /** `f` applied to each element, in order. */
  function Map<A, B>(f: A -> B, s: seq<A>): (r: seq<B>)
    ensures |r| == |s| && forall i :: 0 <= i < |s| ==> r[i] == f(s[i])
  {
    seq(|s|, i requires 0 <= i < |s| => f(s[i]))
  }

  /** Mapping over two runs maps each run. */
  lemma MapAppend<A, B>(f: A -> B, a: seq<A>, b: seq<A>)
    ensures Map(f, a + b) == Map(f, a) + Map(f, b)
  {
    var ma, mb, mab := Map(f, a), Map(f, b), Map(f, a + b);
    forall i | 0 <= i < |mab|
      ensures mab[i] == (ma + mb)[i]
    {
      if i < |a| {
        assert (a + b)[i] == a[i];
      } else {
        assert (a + b)[i] == b[i - |a|];
      }
    }
  }

  /** The renderer of the lines of a report generated at `timestamp`. */
  function LineText(timestamp: string): Line -> string {
    line => Render(line, timestamp)
  }

  /** The text of a report made of two non-empty runs of lines is the
      text of each, one newline apart. */
  lemma ReportTextAppend(a: seq<Line>, b: seq<Line>, timestamp: string)
    requires a != [] && b != []
    ensures ReportText(a + b, timestamp) == ReportText(a, timestamp) + "\n" + ReportText(b, timestamp)
  {
    MapAppend(LineText(timestamp), a, b);
    JoinAppend(Map(LineText(timestamp), a), Map(LineText(timestamp), b));
  }

  /** `main`'s `action_needed`, which also guards the closing line of the
      report: the S&P 500 comparison succeeded and found changes, or some
      tested ticker failed. */
  predicate ActionNeeded(changes: Option<Sp500Diff>, fallenAngelsInvalid: seq<Invalid>,
                         nasdaqInvalid: seq<Invalid>) {
    (changes.Some? && !changes.value.upToDate) || fallenAngelsInvalid != [] || nasdaqInvalid != []
  }

  /** The number of lines that list one change set. */
  function ListingSize(n: nat): nat {
    if n <= FullListingLimit then n + 1 else ShortListingSize + 2
  }

  /** One entry line per ticker, in order. */
  function Entries(change: Change, shown: seq<string>): (r: seq<Line>)
    ensures |r| == |shown|
    ensures forall i :: 0 <= i < |shown| ==> r[i] == Entry(change, shown[i])
  {
    if shown == [] then []
    else Entries(change, shown[..|shown| - 1]) + [Entry(change, shown[|shown| - 1])]
  }

  /** `shown` holds the `ShortListingSize` smallest members of `tickers`,
      each once, in ascending order. */
  ghost predicate SmallestInOrder(shown: seq<string>, tickers: set<string>) {
    && |shown| == ShortListingSize
    && NoDuplicates(shown)
    && SortedStrings(shown)
    && (forall t :: t in shown ==> t in tickers)
    && (forall t, x :: t in tickers && t !in shown && x in shown ==> StrLeq(x, t))
  }

  /** `lines` lists every member of `tickers` once, in the order `shown`. */
  ghost predicate FullListingOf(lines: seq<Line>, shown: seq<string>, tickers: set<string>, change: Change) {
    && lines == [ListHeading(change, None)] + Entries(change, shown)
    && NoDuplicates(shown)
    && (forall t :: t in shown <==> t in tickers)
  }

  /** `lines` gives the total, the smallest members `shown`, and the count
      of the rest. */
  ghost predicate ShortListingOf(lines: seq<Line>, shown: seq<string>, tickers: set<string>, change: Change) {
    && |tickers| >= ShortListingSize
    && lines == [ListHeading(change, Some(|tickers|))] + Entries(change, shown) + [More(|tickers| - ShortListingSize)]
    && SmallestInOrder(shown, tickers)
  }

  /** `lines` lists the change set `tickers`: a short set in full, each
      member once; a long one by its total, its five smallest members in
      ascending order, and the count of the rest. */
  ghost predicate ListsChanges(lines: seq<Line>, tickers: set<string>, change: Change) {
    && |lines| == ListingSize(|tickers|)
    && if |tickers| <= FullListingLimit then exists shown :: FullListingOf(lines, shown, tickers, change)
       else exists shown :: ShortListingOf(lines, shown, tickers, change)
  }

  /** The first `n` entries of a sorted list without repeats are its `n`
      smallest, in order. */
  lemma SortedPrefixSmallest(sorted: seq<string>, tickers: set<string>, n: nat)
    requires SortedStrings(sorted) && NoDuplicates(sorted)
    requires forall t :: t in sorted <==> t in tickers
    requires n <= |sorted|
    ensures NoDuplicates(sorted[..n]) && SortedStrings(sorted[..n])
    ensures forall t :: t in sorted[..n] ==> t in tickers
    ensures forall t, x :: t in tickers && t !in sorted[..n] && x in sorted[..n] ==> StrLeq(x, t)
  {
    forall t, x | t in tickers && t !in sorted[..n] && x in sorted[..n]
      ensures StrLeq(x, t)
    {
      var k :| 0 <= k < |sorted| && sorted[k] == t;
      var i :| 0 <= i < n && sorted[..n][i] == x;
      assert k >= n;
    }
  }

  /** `list(s)`: the members of a set in some order, each once. */
  method ListOfSet(s: set<string>) returns (items: seq<string>)
    ensures NoDuplicates(items)
    ensures forall t :: t in items <==> t in s
    ensures |items| == |s|
  {
    items := [];
    var rest := s;
    while rest != {}
      invariant NoDuplicates(items)
      invariant forall t :: t in s <==> t in items || t in rest
      invariant forall t :: t in items ==> t !in rest
      invariant |items| + |rest| == |s|
      decreases |rest|
    {
      var t :| t in rest;
      items := items + [t];
      rest := rest - {t};
    }
  }

  /** The lines listing one change set, built as the report does. */
  method ChangeListing(tickers: set<string>, change: Change) returns (lines: seq<Line>)
    ensures ListsChanges(lines, tickers, change)
    ensures forall l :: l in lines ==> l.ListHeading? || l.Entry? || l.More?
  {
    var items := ListOfSet(tickers);
    if |items| <= FullListingLimit {
      lines := FullListing(items, tickers, change);
    } else {
      lines := ShortListing(items, tickers, change);
    }
  }

  /** Every change, in the order of `items`. */
  method FullListing(items: seq<string>, tickers: set<string>, change: Change) returns (lines: seq<Line>)
    requires forall t :: t in items <==> t in tickers
    requires NoDuplicates(items)
    requires |items| == |tickers| <= FullListingLimit
    ensures ListsChanges(lines, tickers, change)
    ensures forall l :: l in lines ==> l.ListHeading? || l.Entry? || l.More?
  {
    lines := [ListHeading(change, None)];
    for i := 0 to |items|
      invariant |lines| == i + 1 && lines[0] == ListHeading(change, None)
      invariant forall k :: 0 <= k < i ==> lines[k + 1] == Entry(change, items[k])
    {
      lines := lines + [Entry(change, items[i])];
    }
    FullListingLists(lines, items, tickers, change);
  }

  lemma FullListingLists(lines: seq<Line>, items: seq<string>, tickers: set<string>, change: Change)
    requires forall t :: t in items <==> t in tickers
    requires NoDuplicates(items)
    requires |items| == |tickers| <= FullListingLimit
    requires |lines| == |items| + 1 && lines[0] == ListHeading(change, None)
    requires forall k :: 0 <= k < |items| ==> lines[k + 1] == Entry(change, items[k])
    ensures ListsChanges(lines, tickers, change)
    ensures forall l :: l in lines ==> l.ListHeading? || l.Entry? || l.More?
  {
    EntriesAfterHeading(lines, items, change);
    assert FullListingOf(lines, items, tickers, change);
  }

  /** `sorted(changes)[:5]` and the count of the rest. */
  method ShortListing(items: seq<string>, tickers: set<string>, change: Change) returns (lines: seq<Line>)
    requires forall t :: t in items <==> t in tickers
    requires NoDuplicates(items)
    requires |items| == |tickers| > FullListingLimit
    ensures ListsChanges(lines, tickers, change)
    ensures forall l :: l in lines ==> l.ListHeading? || l.Entry? || l.More?
  {
    var sorted := SortStrings(items);
    lines := [ListHeading(change, Some(|items|))];
    for i := 0 to ShortListingSize
      invariant |lines| == i + 1 && lines[0] == ListHeading(change, Some(|items|))
      invariant forall k :: 0 <= k < i ==> lines[k + 1] == Entry(change, sorted[k])
    {
      lines := lines + [Entry(change, sorted[i])];
    }
    ShortListingLists(lines, items, tickers, change);
    lines := lines + [More(|items| - ShortListingSize)];
  }

  /** A heading followed by one entry per ticker of `shown`. */
  lemma EntriesAfterHeading(lines: seq<Line>, shown: seq<string>, change: Change)
    requires |lines| == |shown| + 1
    requires forall k :: 0 <= k < |shown| ==> lines[k + 1] == Entry(change, shown[k])
    ensures lines == [lines[0]] + Entries(change, shown)
  {
  }

  lemma ShortListingLists(shown: seq<Line>, items: seq<string>, tickers: set<string>, change: Change)
    requires forall t :: t in items <==> t in tickers
    requires NoDuplicates(items)
    requires |items| == |tickers| > FullListingLimit
    requires |SortStrings(items)| >= ShortListingSize
    requires |shown| == ShortListingSize + 1 && shown[0] == ListHeading(change, Some(|items|))
    requires forall k :: 0 <= k < ShortListingSize ==> shown[k + 1] == Entry(change, SortStrings(items)[k])
    ensures ListsChanges(shown + [More(|items| - ShortListingSize)], tickers, change)
  {
    var smallest := SortStrings(items)[..ShortListingSize];
    EntriesAfterHeading(shown, smallest, change);
    SortedChangesSmallest(items, tickers);
    assert ShortListingOf(shown + [More(|items| - ShortListingSize)], smallest, tickers, change);
  }

  /** Sorting the changes puts their five smallest first. */
  lemma SortedChangesSmallest(items: seq<string>, tickers: set<string>)
    requires forall t :: t in items <==> t in tickers
    requires NoDuplicates(items)
    requires |items| > FullListingLimit
    ensures |SortStrings(items)| == |items|
    ensures SmallestInOrder(SortStrings(items)[..ShortListingSize], tickers)
  {
    var sorted := SortStrings(items);
    SortStringsDistinct(items);
    SortStringsPermutes(items);
    assert forall t :: t in sorted <==> t in multiset(items);
    SortedPrefixSmallest(sorted, tickers, ShortListingSize);
  }

  /** The explanation printed under the fallback verdict. */
  const FallbackExplanation: seq<Line> := [
    Detail(Blank), Detail(WhatThisMeans), Detail(FallbackScope), Detail(UpdateScriptWorks), Detail(ConfigNeedsFix),
    Detail(Blank), Detail(HowToFix)
  ]

  /** `lines` is the S&P 500 section for `changes`: the fetch failure,
      the fallback notice, "up to date", or the verdict followed by the
      listings of the additions and of the removals. */
  ghost predicate Sp500Reported(lines: seq<Line>, changes: Option<Sp500Diff>) {
    && |lines| >= 2 && lines[0] == Heading(Sp500Status)
    && NoActionNeeded !in lines
    && (Verdict(CouldNotFetch) in lines <==> changes.None?)
    && (changes.None? ==> lines == [Heading(Sp500Status), Verdict(CouldNotFetch)])
    && (changes.Some? && changes.value.usingFallback ==>
          lines == [Heading(Sp500Status), Verdict(UsingFallback)] + FallbackExplanation)
    && (changes.Some? && !changes.value.usingFallback && changes.value.upToDate ==>
          lines == [Heading(Sp500Status), Verdict(UpToDate)])
    && (changes.Some? && !changes.value.usingFallback && !changes.value.upToDate ==>
          ChangesListed(lines, changes.value))
  }

  /** `lines` is the S&P 500 section of a comparison with changes: the
      verdict, then the listing of the additions, then that of the
      removals. */
  ghost predicate ChangesListed(lines: seq<Line>, diff: Sp500Diff) {
    var a := ListingSize(|diff.additions|);
    && |lines| == 2 + a + ListingSize(|diff.removals|)
    && lines[1] == Verdict(ChangesDetected)
    && ListsChanges(lines[2..2 + a], diff.additions, Addition)
    && ListsChanges(lines[2 + a..], diff.removals, Removal)
  }

  /** The heading and verdict followed by the two listings list the
      changes. */
  lemma ListingsListed(added: seq<Line>, removed: seq<Line>, diff: Sp500Diff)
    requires ListsChanges(added, diff.additions, Addition)
    requires ListsChanges(removed, diff.removals, Removal)
    ensures ChangesListed([Heading(Sp500Status), Verdict(ChangesDetected)] + added + removed, diff)
  {
    var lines := [Heading(Sp500Status), Verdict(ChangesDetected)] + added + removed;
    assert lines[2..2 + |added|] == added;
    assert lines[2 + |added|..] == removed;
  }

  /** Listing lines hold neither the all-clear line nor the fetch-failure
      verdict. */
  lemma ListingLinesNoVerdict(added: seq<Line>, removed: seq<Line>)
    requires forall l :: l in added + removed ==> l.ListHeading? || l.Entry? || l.More?
    ensures var lines := [Heading(Sp500Status), Verdict(ChangesDetected)] + added + removed;
      NoActionNeeded !in lines && Verdict(CouldNotFetch) !in lines
  {
    var lines := [Heading(Sp500Status), Verdict(ChangesDetected)] + added + removed;
    assert lines == [Heading(Sp500Status), Verdict(ChangesDetected)] + (added + removed);
  }

  /** The S&P 500 section when the comparison found changes: the verdict
      and the listings of the additions and of the removals. */
  method ChangeSection(diff: Sp500Diff) returns (lines: seq<Line>)
    ensures |lines| >= 2 && lines[0] == Heading(Sp500Status)
    ensures NoActionNeeded !in lines && Verdict(CouldNotFetch) !in lines
    ensures ChangesListed(lines, diff)
  {
    lines := [Heading(Sp500Status), Verdict(ChangesDetected)];
    var added := ChangeListing(diff.additions, Addition);
    var removed := ChangeListing(diff.removals, Removal);
    lines := lines + added + removed;
    ListingsListed(added, removed, diff);
    ListingLinesNoVerdict(added, removed);
  }

  /** The S&P 500 section, built as the report does. */
  method Sp500Section(changes: Option<Sp500Diff>) returns (lines: seq<Line>)
    ensures Sp500Reported(lines, changes)
  {
    lines := [Heading(Sp500Status)];
    if changes.Some? {
      var diff := changes.value;
      if diff.usingFallback {
        lines := lines + [Verdict(UsingFallback)] + FallbackExplanation;
      } else if diff.upToDate {
        lines := lines + [Verdict(UpToDate)];
      } else {
        lines := ChangeSection(diff);
      }
    } else {
      lines := lines + [Verdict(CouldNotFetch)];
    }
  }

  /** `lines` is a validation section for the failures `invalid`: the
      all-valid verdict, or the count followed by every failing ticker with
      its reason, in order. */
  ghost predicate FailuresReported(lines: seq<Line>, section: Section, invalid: seq<Invalid>, allValid: Status) {
    && (forall l :: l in lines ==> l == Heading(section) || l == Verdict(allValid) || l.InvalidSummary? || l.InvalidEntry?)
    && (invalid == [] ==> lines == [Heading(section), Verdict(allValid)])
    && (invalid != [] ==>
          && |lines| == |invalid| + 2
          && lines[..2] == [Heading(section), InvalidSummary(|invalid|)]
          && forall i :: 0 <= i < |invalid| ==> lines[i + 2] == InvalidEntry(invalid[i].ticker, invalid[i].reason))
  }

  /** A validation section, built as the report does. */
  method InvalidSection(section: Section, invalid: seq<Invalid>, allValid: Status) returns (lines: seq<Line>)
    ensures FailuresReported(lines, section, invalid, allValid)
  {
    lines := [Heading(section)];
    if invalid != [] {
      lines := lines + [InvalidSummary(|invalid|)];
      for i := 0 to |invalid|
        invariant |lines| == i + 2
        invariant lines[..2] == [Heading(section), InvalidSummary(|invalid|)]
        invariant forall l :: l in lines ==> l == Heading(section) || l.InvalidSummary? || l.InvalidEntry?
        invariant forall k :: 0 <= k < i ==> lines[k + 2] == InvalidEntry(invalid[k].ticker, invalid[k].reason)
      {
        lines := lines + [InvalidEntry(invalid[i].ticker, invalid[i].reason)];
      }
    } else {
      lines := lines + [Verdict(allValid)];
    }
  }

  /** The action-items section: items 1, 2 and 3 in that order, each
      with its instructions and present exactly when its reason to act
      holds, then the all-clear line exactly when none does. */
  function ActionLines(changes: Option<Sp500Diff>, fallenAngelsInvalid: seq<Invalid>,
                       nasdaqInvalid: seq<Invalid>): seq<Line> {
    [Heading(ActionItems)]
    + (if changes.Some? && !changes.value.upToDate then [ActionItem(UpdateSp500), Detail(VerifyChanges)] else [])
    + (if fallenAngelsInvalid != [] then [ActionItem(UpdateFallenAngels), Detail(RemoveInvalid), Detail(AddDelisted)] else [])
    + (if nasdaqInvalid != [] then [ActionItem(UpdateNasdaq100), Detail(RemoveInvalid), Detail(FindReplacements)] else [])
    + (if !ActionNeeded(changes, fallenAngelsInvalid, nasdaqInvalid) then [NoActionNeeded] else [])
  }

  /** The action-items section has only item, instruction and all-clear
      lines after its heading, and the all-clear line exactly when no
      action is needed. */
  lemma ActionLinesAllClear(changes: Option<Sp500Diff>, fallenAngelsInvalid: seq<Invalid>,
                            nasdaqInvalid: seq<Invalid>)
    ensures var lines := ActionLines(changes, fallenAngelsInvalid, nasdaqInvalid);
      && (forall l :: l in lines ==> l.Heading? || l.ActionItem? || l.Detail? || l.NoActionNeeded?)
      && (NoActionNeeded in lines <==> !ActionNeeded(changes, fallenAngelsInvalid, nasdaqInvalid))
  {
  }

  /** Each action item is in the section exactly when its reason to act
      holds. */
  lemma ActionLinesItems(changes: Option<Sp500Diff>, fallenAngelsInvalid: seq<Invalid>,
                         nasdaqInvalid: seq<Invalid>)
    ensures var lines := ActionLines(changes, fallenAngelsInvalid, nasdaqInvalid);
      && (ActionItem(UpdateSp500) in lines <==> changes.Some? && !changes.value.upToDate)
      && (ActionItem(UpdateFallenAngels) in lines <==> fallenAngelsInvalid != [])
      && (ActionItem(UpdateNasdaq100) in lines <==> nasdaqInvalid != [])
  {
  }

  /** `lines` is the action-items section, with the facts its membership
      gives. */
  ghost predicate ActionsReported(lines: seq<Line>, changes: Option<Sp500Diff>, fallenAngelsInvalid: seq<Invalid>,
                                  nasdaqInvalid: seq<Invalid>) {
    && lines == ActionLines(changes, fallenAngelsInvalid, nasdaqInvalid)
    && (forall l :: l in lines ==> l.Heading? || l.ActionItem? || l.Detail? || l.NoActionNeeded?)
    && (NoActionNeeded in lines <==> !ActionNeeded(changes, fallenAngelsInvalid, nasdaqInvalid))
    && (ActionItem(UpdateSp500) in lines <==> changes.Some? && !changes.value.upToDate)
    && (ActionItem(UpdateFallenAngels) in lines <==> fallenAngelsInvalid != [])
    && (ActionItem(UpdateNasdaq100) in lines <==> nasdaqInvalid != [])
  }

  /** The action items, built as the report does. */
  method ActionSection(changes: Option<Sp500Diff>, fallenAngelsInvalid: seq<Invalid>,
                       nasdaqInvalid: seq<Invalid>) returns (lines: seq<Line>)
    ensures ActionsReported(lines, changes, fallenAngelsInvalid, nasdaqInvalid)
  {
    lines := [Heading(ActionItems)];
    var actionNeeded := false;
    ghost var sp500, fallenAngels, nasdaq, allClear: seq<Line> := [], [], [], [];

    if changes.Some? && !changes.value.upToDate {
      sp500 := [ActionItem(UpdateSp500), Detail(VerifyChanges)];
      lines := lines + [ActionItem(UpdateSp500), Detail(VerifyChanges)];
      actionNeeded := true;
    }
    assert lines == [Heading(ActionItems)] + sp500;

    if fallenAngelsInvalid != [] {
      fallenAngels := [ActionItem(UpdateFallenAngels), Detail(RemoveInvalid), Detail(AddDelisted)];
      lines := lines + [ActionItem(UpdateFallenAngels), Detail(RemoveInvalid), Detail(AddDelisted)];
      actionNeeded := true;
    }
    assert lines == [Heading(ActionItems)] + sp500 + fallenAngels;

    if nasdaqInvalid != [] {
      nasdaq := [ActionItem(UpdateNasdaq100), Detail(RemoveInvalid), Detail(FindReplacements)];
      lines := lines + [ActionItem(UpdateNasdaq100), Detail(RemoveInvalid), Detail(FindReplacements)];
      actionNeeded := true;
    }
    assert lines == [Heading(ActionItems)] + sp500 + fallenAngels + nasdaq;

    if !actionNeeded {
      allClear := [NoActionNeeded];
      lines := lines + [NoActionNeeded];
    }
    assert lines == [Heading(ActionItems)] + sp500 + fallenAngels + nasdaq + allClear;
    ActionLinesAllClear(changes, fallenAngelsInvalid, nasdaqInvalid);
    ActionLinesItems(changes, fallenAngelsInvalid, nasdaqInvalid);
  }

  /** The layout of the whole report: the banner, then the S&P 500, the
      priority-candidate, the NASDAQ-100 and the action-item sections in
      that order, then the closing rule. */
  ghost predicate ReportLayout(report: seq<Line>, sp500: seq<Line>, fallenAngels: seq<Line>, nasdaq: seq<Line>,
                               actions: seq<Line>, changes: Option<Sp500Diff>, fallenAngelsInvalid: seq<Invalid>,
                               nasdaqInvalid: seq<Invalid>) {
    && report == [Rule(true), Title, Generated, Rule(false)] + sp500 + fallenAngels + nasdaq + actions + [Rule(true)]
    && Sp500Reported(sp500, changes)
    && FailuresReported(fallenAngels, FallenAngelSection, fallenAngelsInvalid, AllCandidatesValid)
    && FailuresReported(nasdaq, Nasdaq100, nasdaqInvalid, AllNasdaqValid)
    && ActionsReported(actions, changes, fallenAngelsInvalid, nasdaqInvalid)
  }

  /** `generate_update_report`, as its list of lines before joining. */
  method GenerateUpdateReport(changes: Option<Sp500Diff>, fallenAngelsInvalid: seq<Invalid>,
                              nasdaqInvalid: seq<Invalid>) returns (report: seq<Line>)
    ensures exists sp500, fallenAngels, nasdaq, actions ::
      ReportLayout(report, sp500, fallenAngels, nasdaq, actions, changes, fallenAngelsInvalid, nasdaqInvalid)
    ensures NoActionNeeded in report <==> !ActionNeeded(changes, fallenAngelsInvalid, nasdaqInvalid)
    ensures Verdict(CouldNotFetch) in report <==> changes.None?
    ensures forall e :: e in fallenAngelsInvalid ==> InvalidEntry(e.ticker, e.reason) in report
    ensures forall e :: e in nasdaqInvalid ==> InvalidEntry(e.ticker, e.reason) in report
  {
    report := [Rule(true), Title, Generated, Rule(false)];

    var sp500 := Sp500Section(changes);
    var fallenAngels := InvalidSection(FallenAngelSection, fallenAngelsInvalid, AllCandidatesValid);
    var nasdaq := InvalidSection(Nasdaq100, nasdaqInvalid, AllNasdaqValid);
    var actions := ActionSection(changes, fallenAngelsInvalid, nasdaqInvalid);

    report := report + sp500 + fallenAngels + nasdaq + actions + [Rule(true)];
    assert ReportLayout(report, sp500, fallenAngels, nasdaq, actions, changes, fallenAngelsInvalid, nasdaqInvalid);
    ReportVerdicts(report, sp500, fallenAngels, nasdaq, actions, changes, fallenAngelsInvalid, nasdaqInvalid);
    ReportListsFailures(report, sp500, fallenAngels, nasdaq, actions, changes, fallenAngelsInvalid, nasdaqInvalid);
  }

  /** Every failure of a validation section has its own line in it. */
  lemma FailuresListed(lines: seq<Line>, section: Section, invalid: seq<Invalid>, allValid: Status)
    requires FailuresReported(lines, section, invalid, allValid)
    ensures forall e :: e in invalid ==> InvalidEntry(e.ticker, e.reason) in lines
  {
    forall e | e in invalid ensures InvalidEntry(e.ticker, e.reason) in lines {
      var i :| 0 <= i < |invalid| && invalid[i] == e;
      assert lines[i + 2] == InvalidEntry(e.ticker, e.reason);
    }
  }

  /** Laid out this way, the report holds the all-clear line exactly when
      no action is needed, and the fetch-failure verdict exactly when the
      comparison returned nothing. */
  lemma ReportVerdicts(report: seq<Line>, sp500: seq<Line>, fallenAngels: seq<Line>, nasdaq: seq<Line>,
                       actions: seq<Line>, changes: Option<Sp500Diff>, fallenAngelsInvalid: seq<Invalid>,
                       nasdaqInvalid: seq<Invalid>)
    requires ReportLayout(report, sp500, fallenAngels, nasdaq, actions, changes, fallenAngelsInvalid, nasdaqInvalid)
    ensures NoActionNeeded in report <==> !ActionNeeded(changes, fallenAngelsInvalid, nasdaqInvalid)
    ensures Verdict(CouldNotFetch) in report <==> changes.None?
  {
    assert NoActionNeeded !in fallenAngels + nasdaq;
    assert Verdict(CouldNotFetch) !in fallenAngels + nasdaq + actions;
  }

  /** Laid out this way, the report names every failing priority and
      NASDAQ-100 ticker with its reason. */
  lemma ReportListsFailures(report: seq<Line>, sp500: seq<Line>, fallenAngels: seq<Line>, nasdaq: seq<Line>,
                            actions: seq<Line>, changes: Option<Sp500Diff>, fallenAngelsInvalid: seq<Invalid>,
                            nasdaqInvalid: seq<Invalid>)
    requires ReportLayout(report, sp500, fallenAngels, nasdaq, actions, changes, fallenAngelsInvalid, nasdaqInvalid)
    ensures forall e :: e in fallenAngelsInvalid ==> InvalidEntry(e.ticker, e.reason) in report
    ensures forall e :: e in nasdaqInvalid ==> InvalidEntry(e.ticker, e.reason) in report
  {
    FailuresListed(fallenAngels, FallenAngelSection, fallenAngelsInvalid, AllCandidatesValid);
    FailuresListed(nasdaq, Nasdaq100, nasdaqInvalid, AllNasdaqValid);
  }

  /** `main`: compare, validate, report, and return the exit code. The
      report ends with the all-clear line exactly when the exit code is
      0, and the exit code is 1 exactly when the comparison found changes
      or a priority or NASDAQ-100 ticker failed its test. */
  method UpdateCheck(current: Option<set<string>>, configFetched: Option<seq<string>>,
                     quote: string -> Result<Quote>)
    returns (report: seq<Line>, exitCode: int)
    ensures var changes := CompareSp500Lists(current, Sp500Tickers(configFetched));
      exitCode == (if ActionNeeded(changes, Failures(FallenAngelCandidates, quote),
                                   Failures(Nasdaq100Tickers, quote)) then 1 else 0)
    ensures exitCode == 1 <==>
      || (current.Some? && current.value != {} && |set t | t in Sp500Tickers(configFetched)| >= FallbackThreshold
          && ((exists t :: t in current.value && t !in Sp500Tickers(configFetched))
              || (exists t :: t in Sp500Tickers(configFetched) && t !in current.value)))
      || (exists t :: t in FallenAngelCandidates && !TestTickerValidity(t, quote).0)
      || (exists t :: t in Nasdaq100Tickers && !TestTickerValidity(t, quote).0)
    ensures NoActionNeeded in report <==> exitCode == 0
    ensures exists sp500, fallenAngels, nasdaq, actions ::
      ReportLayout(report, sp500, fallenAngels, nasdaq, actions, CompareSp500Lists(current, Sp500Tickers(configFetched)),
                   Failures(FallenAngelCandidates, quote), Failures(Nasdaq100Tickers, quote))
  {
    var sp500Changes := CompareSp500Lists(current, Sp500Tickers(configFetched));
    var fallenAngelsInvalid := CheckTickersValidity(FallenAngelCandidates, quote);
    var nasdaqInvalid := CheckTickersValidity(Nasdaq100Tickers, quote);
    report := GenerateUpdateReport(sp500Changes, fallenAngelsInvalid, nasdaqInvalid);
    var actionNeeded :=
      (sp500Changes.Some? && !sp500Changes.value.upToDate) || fallenAngelsInvalid != [] || nasdaqInvalid != [];
    exitCode := if actionNeeded then 1 else 0;
    FailuresExact(FallenAngelCandidates, quote);
    FailuresExact(Nasdaq100Tickers, quote);
  }
}
