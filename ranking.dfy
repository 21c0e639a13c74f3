/** The candidate record and the final ranking of
    `scan_for_fallen_angels`: keep risk scores up to 7, sort by potential
    gain from highest to lowest with Python's stable sort, keep the first
    15. */
module Ranking {
  import opened Markets
  import opened Scoring

  const MaxCandidates: nat := 15
  const RiskCeiling: int := 7

  datatype CashPosition = Strong | Moderate

  /** One entry of `candidates`. The randomly chosen `drop_reason` is not
      part of the model. */
  datatype Candidate = Candidate(
    ticker: string,
    company: string,
    market: string,
    currency: string,
    currentPrice: real,
    dropPercent: real,
    dropDays: int,
    previousHigh: real,
    potentialGain: real,
    marketCap: real,
    riskScore: int,
    bankruptcyRisk: RiskLabel,
    debtToEquity: real,
    currentRatio: real,
    cashPosition: CashPosition,
    stabilityVol: real,
    broker: Broker)

  /** `[c for c in candidates if c['risk_score'] <= 7]`. */
  function FilterRisk(cs: seq<Candidate>): (r: seq<Candidate>)
    ensures |r| <= |cs|
  {
    if cs == [] then []
    else
      var rest := FilterRisk(cs[1..]);
      if cs[0].riskScore <= RiskCeiling then [cs[0]] + rest else rest
  }

  /** The survivors are exactly the candidates with a score of at most 7. */
  lemma {:induction false} FilterRiskMembers(cs: seq<Candidate>)
    ensures forall c :: c in FilterRisk(cs) <==> c in cs && c.riskScore <= RiskCeiling
  {
    if cs != [] {
      FilterRiskMembers(cs[1..]);
      assert cs == [cs[0]] + cs[1..];
    }
  }

  /** The comprehension keeps the survivors in their order: filtering a
      concatenation filters each part. */
  lemma {:induction false} FilterRiskAppend(a: seq<Candidate>, b: seq<Candidate>)
    ensures FilterRisk(a + b) == FilterRisk(a) + FilterRisk(b)
  {
    if a == [] {
      assert a + b == b;
    } else {
      assert (a + b)[0] == a[0];
      assert (a + b)[1..] == a[1..] + b;
      FilterRiskAppend(a[1..], b);
      var fa, fb, tail := FilterRisk(a), FilterRisk(b), FilterRisk(a[1..]);
      if a[0].riskScore <= RiskCeiling {
        assert fa == [a[0]] + tail;
        assert FilterRisk(a + b) == [a[0]] + (tail + fb);
      } else {
        assert fa == tail;
        assert FilterRisk(a + b) == tail + fb;
      }
    }
  }

  /** One candidate survives the filter exactly when its score is at most
      7. */
  lemma FilterRiskSingleton(c: Candidate)
    ensures FilterRisk([c]) == if c.riskScore <= RiskCeiling then [c] else []
  {
    assert [c][1..] == [];
  }

  ghost predicate SortedByGain(s: seq<Candidate>) {
    forall i, j :: 0 <= i < j < |s| ==> s[i].potentialGain >= s[j].potentialGain
  }

  /** The candidates whose potential gain is exactly `g`, in order. */
  function WithGain(s: seq<Candidate>, g: real): seq<Candidate> {
    if s == [] then []
    else (if s[0].potentialGain == g then [s[0]] else []) + WithGain(s[1..], g)
  }

  /** How many leading elements of `t` have a gain of at least `g`. */
  function InsertPosition(t: seq<Candidate>, g: real): (p: nat)
    ensures p <= |t|
    ensures forall i :: 0 <= i < p ==> t[i].potentialGain >= g
    ensures p < |t| ==> t[p].potentialGain < g
  {
    if t == [] || t[0].potentialGain < g then 0
    else 1 + InsertPosition(t[1..], g)
  }

  /** Places `c` after the leading elements whose gain is at least its
      own. */
  function InsertByGain(t: seq<Candidate>, c: Candidate): (r: seq<Candidate>)
    ensures |r| == |t| + 1
  {
    var p := InsertPosition(t, c.potentialGain);
    t[..p] + [c] + t[p..]
  }

  /** Insertion adds `c` and loses nothing. */
  lemma InsertByGainPermutes(t: seq<Candidate>, c: Candidate)
    ensures multiset(InsertByGain(t, c)) == multiset(t) + multiset{c}
  {
    var p := InsertPosition(t, c.potentialGain);
    assert t == t[..p] + t[p..];
  }

  lemma InsertByGainSorted(t: seq<Candidate>, c: Candidate)
    requires SortedByGain(t)
    ensures SortedByGain(InsertByGain(t, c))
  {
    var p := InsertPosition(t, c.potentialGain);
    var r := InsertByGain(t, c);
    forall i, j | 0 <= i < j < |r| ensures r[i].potentialGain >= r[j].potentialGain {
      if j < p || p < i {
        var i', j' := if i < p then i else i - 1, if j < p then j else j - 1;
        assert r[i] == t[i'] && r[j] == t[j'];
      } else if i == p {
        assert r[j] == t[j - 1] && t[p].potentialGain >= t[j - 1].potentialGain;
      } else {
        assert r[i] == t[i];
      }
    }
  }

  /** `sort(key=potential_gain, reverse=True)`: insertion in input order,
      which keeps equal gains in their original order. */
  function SortByGain(s: seq<Candidate>): (r: seq<Candidate>)
    ensures |r| == |s|
    ensures SortedByGain(r)
  {
    if s == [] then []
    else
      var init, last := s[..|s| - 1], s[|s| - 1];
      InsertByGainSorted(SortByGain(init), last);
      InsertByGain(SortByGain(init), last)
  }

  /** The sort is a permutation of its input. */
  lemma {:induction false} SortByGainPermutes(s: seq<Candidate>)
    ensures multiset(SortByGain(s)) == multiset(s)
  {
    if s != [] {
      var init, last := s[..|s| - 1], s[|s| - 1];
      SortByGainPermutes(init);
      InsertByGainPermutes(SortByGain(init), last);
      assert s == init + [last];
    }
  }

  lemma {:induction false} WithGainAppend(s: seq<Candidate>, u: seq<Candidate>, g: real)
    ensures WithGain(s + u, g) == WithGain(s, g) + WithGain(u, g)
  {
    if s != [] {
      assert (s + u)[0] == s[0];
      assert (s + u)[1..] == s[1..] + u;
      WithGainAppend(s[1..], u, g);
    } else {
      assert s + u == u;
    }
  }

  lemma {:induction false} WithGainBelow(t: seq<Candidate>, g: real)
    requires forall i :: 0 <= i < |t| ==> t[i].potentialGain < g
    ensures WithGain(t, g) == []
  {
    if t != [] {
      WithGainBelow(t[1..], g);
    }
  }

  /** In a sorted list, nothing from the insertion point on has gain
      `g`. */
  lemma AfterInsertPositionNone(t: seq<Candidate>, g: real)
    requires SortedByGain(t)
    ensures WithGain(t[InsertPosition(t, g)..], g) == []
  {
    var p := InsertPosition(t, g);
    var hi := t[p..];
    forall i | 0 <= i < |hi| ensures hi[i].potentialGain < g {
      assert hi[i] == t[p + i];
      if i > 0 { assert t[p].potentialGain >= t[p + i].potentialGain; }
    }
    WithGainBelow(hi, g);
  }

  /** The groups of the inserted list, read off its three pieces. */
  lemma InsertByGainPieces(t: seq<Candidate>, c: Candidate, g: real)
    ensures WithGain(InsertByGain(t, c), g) ==
      WithGain(t[..InsertPosition(t, c.potentialGain)], g) +
      (WithGain([c], g) + WithGain(t[InsertPosition(t, c.potentialGain)..], g))
  {
    var p := InsertPosition(t, c.potentialGain);
    var lo, hi := t[..p], t[p..];
    assert InsertByGain(t, c) == lo + ([c] + hi);
    WithGainAppend(lo, [c] + hi, g);
    WithGainAppend([c], hi, g);
  }

  /** The groups of a list, read off a prefix and the rest. */
  lemma WithGainSplit(s: seq<Candidate>, n: nat, g: real)
    requires n <= |s|
    ensures WithGain(s, g) == WithGain(s[..n], g) + WithGain(s[n..], g)
  {
    assert s == s[..n] + s[n..];
    WithGainAppend(s[..n], s[n..], g);
  }

  lemma InsertByGainStable(t: seq<Candidate>, c: Candidate, g: real)
    requires SortedByGain(t)
    ensures WithGain(InsertByGain(t, c), g) == WithGain(t, g) + WithGain([c], g)
  {
    InsertByGainPieces(t, c, g);
    var p := InsertPosition(t, c.potentialGain);
    WithGainSplit(t, p, g);
    var low, one, high := WithGain(t[..p], g), WithGain([c], g), WithGain(t[p..], g);
    if c.potentialGain == g {
      AfterInsertPositionNone(t, g);
      assert low + (one + high) == (low + high) + one;
    } else {
      assert [c][1..] == [];
      assert one == [];
      assert low + (one + high) == (low + high) + one;
    }
  }

  /** Stability: for every gain, the candidates with that gain come out
      in the order they went in. */
  lemma {:induction false} SortByGainStable(s: seq<Candidate>, g: real)
    ensures WithGain(SortByGain(s), g) == WithGain(s, g)
  {
    if s != [] {
      var init, last := s[..|s| - 1], s[|s| - 1];
      SortByGainStable(init, g);
      InsertByGainStable(SortByGain(init), last, g);
      assert s == init + [last];
      WithGainAppend(init, [last], g);
    }
  }

  /** A prefix keeps a prefix of every group of equal gains. */
  lemma {:induction false} WithGainPrefix(s: seq<Candidate>, n: nat, g: real)
    requires n <= |s|
    ensures WithGain(s[..n], g) <= WithGain(s, g)
  {
    WithGainSplit(s, n, g);
  }

  /** An input already in order comes out of the sort unchanged. */
  lemma {:induction false} SortByGainOfSorted(s: seq<Candidate>)
    requires SortedByGain(s)
    ensures SortByGain(s) == s
  {
    if s != [] {
      var init, last := s[..|s| - 1], s[|s| - 1];
      SortByGainOfSorted(init);
      InsertAtEnd(init, last);
      assert s == init + [last];
    }
  }

  lemma InsertAtEnd(t: seq<Candidate>, c: Candidate)
    requires forall i :: 0 <= i < |t| ==> t[i].potentialGain >= c.potentialGain
    ensures InsertByGain(t, c) == t + [c]
  {
    var p := InsertPosition(t, c.potentialGain);
    assert p == |t|;
    assert t[..p] == t && t[p..] == [];
  }

  /** The ranked list: filtered, sorted, truncated to 15. */
  function Rank(cs: seq<Candidate>): (r: seq<Candidate>)
    ensures forall c :: c in r ==> c in cs && c.riskScore <= RiskCeiling
    ensures SortedByGain(r)
    ensures |r| <= MaxCandidates
    ensures |r| == |FilterRisk(cs)| || |r| == MaxCandidates
  {
    var sorted := SortByGain(FilterRisk(cs));
    SortByGainPermutes(FilterRisk(cs));
    FilterRiskMembers(cs);
    assert forall c :: c in sorted ==> c in multiset(FilterRisk(cs));
    if |sorted| <= MaxCandidates then sorted else sorted[..MaxCandidates]
  }

  /** Keeping low risks and keeping one gain can be done in either
      order. */
  lemma {:induction false} FilterRiskWithGain(cs: seq<Candidate>, g: real)
    ensures WithGain(FilterRisk(cs), g) == FilterRisk(WithGain(cs, g))
  {
    if cs != [] {
      var c, rest := cs[0], cs[1..];
      FilterRiskWithGain(rest, g);
      var kept := if c.riskScore <= RiskCeiling then [c] else [];
      var same := if c.potentialGain == g then [c] else [];
      assert FilterRisk(cs) == kept + FilterRisk(rest);
      assert WithGain(cs, g) == same + WithGain(rest, g);
      WithGainAppend(kept, FilterRisk(rest), g);
      FilterRiskAppend(same, WithGain(rest, g));
      FilterRiskSingleton(c);
      assert [c][1..] == [];
      assert WithGain(kept, g) == FilterRisk(same);
    }
  }

  /** Ties keep discovery order: within every gain, the ranked candidates
      are the first ones of that gain among the admissible input, which
      are the candidates of that gain with risk at most 7, in scanning
      order. */
  lemma RankKeepsTieOrder(cs: seq<Candidate>, g: real)
    ensures WithGain(Rank(cs), g) <= WithGain(FilterRisk(cs), g)
    ensures WithGain(Rank(cs), g) <= FilterRisk(WithGain(cs, g))
  {
    var sorted := SortByGain(FilterRisk(cs));
    SortByGainStable(FilterRisk(cs), g);
    var n := if |sorted| <= MaxCandidates then |sorted| else MaxCandidates;
    assert Rank(cs) == sorted[..n];
    WithGainPrefix(sorted, n, g);
    FilterRiskWithGain(cs, g);
  }

  /** Truncation only cuts candidates whose gain is not above any kept
      one. */
  lemma RankKeepsBest(cs: seq<Candidate>)
    ensures forall c, x :: c in FilterRisk(cs) && c !in Rank(cs) && x in Rank(cs) ==>
      x.potentialGain >= c.potentialGain
  {
    var filtered := FilterRisk(cs);
    var sorted := SortByGain(filtered);
    var n := if |sorted| <= MaxCandidates then |sorted| else MaxCandidates;
    var r := Rank(cs);
    assert r == sorted[..n];
    forall c, x | c in filtered && c !in r && x in r
      ensures x.potentialGain >= c.potentialGain
    {
      SortByGainPermutes(filtered);
      assert c in multiset(filtered);
      assert c in multiset(sorted);
      var j :| 0 <= j < |sorted| && sorted[j] == c;
      var i :| 0 <= i < n && r[i] == x;
      assert j >= n;
      assert sorted[i] == x;
    }
  }

  /** Ranking a ranked list changes nothing. */
  lemma RankIdempotent(cs: seq<Candidate>)
    ensures Rank(Rank(cs)) == Rank(cs)
  {
    var r := Rank(cs);
    FilterRiskKeepsAdmissible(r);
    SortByGainOfSorted(r);
  }

  lemma {:induction false} FilterRiskKeepsAdmissible(cs: seq<Candidate>)
    requires forall i :: 0 <= i < |cs| ==> cs[i].riskScore <= RiskCeiling
    ensures FilterRisk(cs) == cs
  {
    if cs != [] {
      FilterRiskKeepsAdmissible(cs[1..]);
      assert cs == [cs[0]] + cs[1..];
    }
  }

  /** No ticker occurs twice. */
  predicate DistinctTickers(s: seq<Candidate>) {
    forall i, j :: 0 <= i < j < |s| ==> s[i].ticker != s[j].ticker
  }

  lemma {:induction false} FilterRiskDistinct(cs: seq<Candidate>)
    requires DistinctTickers(cs)
    ensures DistinctTickers(FilterRisk(cs))
  {
    if cs != [] {
      FilterRiskDistinct(cs[1..]);
      FilterRiskMembers(cs[1..]);
      assert forall c :: c in cs[1..] ==> c.ticker != cs[0].ticker;
    }
  }

  lemma InsertByGainDistinct(t: seq<Candidate>, c: Candidate)
    requires DistinctTickers(t)
    requires forall x :: x in t ==> x.ticker != c.ticker
    ensures DistinctTickers(InsertByGain(t, c))
  {
    var p := InsertPosition(t, c.potentialGain);
    var r := InsertByGain(t, c);
    assert |r| == |t| + 1;
    forall i, j | 0 <= i < j < |r| ensures r[i].ticker != r[j].ticker {
      if i == p {
        assert r[j] == t[j - 1] && r[j] in t;
      } else if j == p {
        assert r[i] == t[i] && r[i] in t;
      } else {
        var i', j' := if i < p then i else i - 1, if j < p then j else j - 1;
        assert r[i] == t[i'] && r[j] == t[j'];
      }
    }
  }

  lemma {:induction false} SortByGainDistinct(s: seq<Candidate>)
    requires DistinctTickers(s)
    ensures DistinctTickers(SortByGain(s))
  {
    if s != [] {
      var init, last := s[..|s| - 1], s[|s| - 1];
      SortByGainDistinct(init);
      SortByGainPermutes(init);
      assert forall x :: x in SortByGain(init) ==> x in multiset(init);
      InsertByGainDistinct(SortByGain(init), last);
    }
  }

  /** A list whose tickers are all different ranks to one whose tickers
      are all different. */
  lemma RankDistinct(cs: seq<Candidate>)
    requires DistinctTickers(cs)
    ensures DistinctTickers(Rank(cs))
  {
    FilterRiskDistinct(cs);
    SortByGainDistinct(FilterRisk(cs));
  }

  /** Every ranked candidate is labelled below "High". */
  lemma RankedAreNotHighRisk(cs: seq<Candidate>)
    requires forall c :: c in cs ==> c.bankruptcyRisk == BankruptcyRisk(c.riskScore)
    ensures forall c :: c in Rank(cs) ==> c.bankruptcyRisk != High
  {
  }
}
