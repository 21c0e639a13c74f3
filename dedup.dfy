/** Order-preserving removal of duplicates, as done by `get_all_tickers`
    in both the scanner and the ticker configuration: a `seen` set and an
    output list, keeping the first occurrence of every element. */
module OrderedDedup {

  predicate NoDuplicates<T(==)>(s: seq<T>) {
    forall i, j :: 0 <= i < j < |s| ==> s[i] != s[j]
  }

  /** The specification of the loop: the first occurrences of `s`, in
      the order they occur. Defined from the back, one step per element
      the loop visits. */
  function Dedup<T(==)>(s: seq<T>): seq<T> {
    if s == [] then []
    else if s[|s| - 1] in s[..|s| - 1] then Dedup(s[..|s| - 1])
    else Dedup(s[..|s| - 1]) + [s[|s| - 1]]
  }

  /** The position of the first occurrence of `x` in `s`. */
  function FirstIndex<T(==)>(s: seq<T>, x: T): (r: nat)
    requires x in s
    ensures r < |s| && s[r] == x
    ensures forall k :: 0 <= k < r ==> s[k] != x
  {
    if s[0] == x then 0 else 1 + FirstIndex(s[1..], x)
  }

  lemma FirstIndexOfPrefix<T>(p: seq<T>, q: seq<T>, x: T)
    requires x in p
    ensures FirstIndex(p + q, x) == FirstIndex(p, x)
  {
    var i, j := FirstIndex(p + q, x), FirstIndex(p, x);
    assert (p + q)[j] == x;
  }

  /** The loop drops nothing but repeats and adds nothing new. */
  lemma {:induction false} DedupElements<T>(s: seq<T>)
    ensures forall x :: x in Dedup(s) <==> x in s
  {
    if s != [] {
      DedupElements(s[..|s| - 1]);
      assert s == s[..|s| - 1] + [s[|s| - 1]];
    }
  }

  /** The output holds every element at most once. */
  lemma {:induction false} DedupNoDuplicates<T>(s: seq<T>)
    ensures NoDuplicates(Dedup(s))
  {
    if s != [] {
      DedupNoDuplicates(s[..|s| - 1]);
      DedupElements(s[..|s| - 1]);
    }
  }

  /** Elements come out in the order of their first occurrences. */
  lemma {:induction false} DedupFirstOccurrenceOrder<T>(s: seq<T>)
    ensures forall x :: x in Dedup(s) ==> x in s
    ensures forall i, j :: 0 <= i < j < |Dedup(s)| ==>
      FirstIndex(s, Dedup(s)[i]) < FirstIndex(s, Dedup(s)[j])
  {
    DedupElements(s);
    if s != [] {
      var init, last := s[..|s| - 1], s[|s| - 1];
      assert s == init + [last];
      DedupFirstOccurrenceOrder(init);
      DedupElements(init);
      var d, r := Dedup(init), Dedup(s);
      forall i, j | 0 <= i < j < |r| ensures FirstIndex(s, r[i]) < FirstIndex(s, r[j]) {
        if last in init {
          assert r == d;
          FirstIndexOfPrefix(init, [last], r[i]);
          FirstIndexOfPrefix(init, [last], r[j]);
        } else {
          assert r == d + [last];
          assert r[i] == d[i] && d[i] in init;
          FirstIndexOfPrefix(init, [last], r[i]);
          if j < |d| {
            assert r[j] == d[j] && d[j] in init;
            FirstIndexOfPrefix(init, [last], r[j]);
          } else {
            assert FirstIndex(s, last) == |init|;
          }
        }
      }
    }
  }

  /** On a list without repeats the loop changes nothing. */
  lemma {:induction false} DedupIdempotent<T>(s: seq<T>)
    requires NoDuplicates(s)
    ensures Dedup(s) == s
  {
    if s != [] {
      var init := s[..|s| - 1];
      assert NoDuplicates(init);
      DedupIdempotent(init);
      assert s[|s| - 1] !in init;
      assert s == init + [s[|s| - 1]];
    }
  }

  /** A repeat-free list placed first comes out unchanged at the head. */
  lemma {:induction false} DedupKeepsPrefix<T>(p: seq<T>, q: seq<T>)
    requires NoDuplicates(p)
    ensures |p| <= |Dedup(p + q)| && Dedup(p + q)[..|p|] == p
  {
    if q == [] {
      assert p + q == p;
      DedupIdempotent(p);
    } else {
      var q' := q[..|q| - 1];
      assert (p + q)[..|p + q| - 1] == p + q';
      DedupKeepsPrefix(p, q');
    }
  }

  /** Everything the merge promises about a repeat-free priority list `p`
      followed by the rest `q`, gathered in one statement. */
  lemma PriorityMerge<T>(p: seq<T>, q: seq<T>)
    requires NoDuplicates(p)
    ensures NoDuplicates(Dedup(p + q))
    ensures forall x :: x in Dedup(p + q) <==> x in p + q
    ensures forall i, j :: 0 <= i < j < |Dedup(p + q)| ==>
      FirstIndex(p + q, Dedup(p + q)[i]) < FirstIndex(p + q, Dedup(p + q)[j])
    ensures |p| <= |Dedup(p + q)| && Dedup(p + q)[..|p|] == p
  {
    DedupNoDuplicates(p + q);
    DedupElements(p + q);
    DedupFirstOccurrenceOrder(p + q);
    DedupKeepsPrefix(p, q);
  }

  /** Seven successive extensions of an empty list. */
  lemma ExtendSeven<T>(a: seq<T>, b: seq<T>, c: seq<T>, d: seq<T>, e: seq<T>, f: seq<T>, g: seq<T>)
    ensures [] + a + b + c + d + e + f + g == a + (b + c + d + e + f + g)
  {
  }

  /** The `seen` / `unique_tickers` loop. */
  method RemoveDuplicates<T(==)>(all: seq<T>) returns (unique: seq<T>)
    ensures unique == Dedup(all)
  {
    var seen: set<T> := {};
    unique := [];
    for i := 0 to |all|
      invariant unique == Dedup(all[..i])
      invariant forall x :: x in seen <==> x in all[..i]
    {
      var ticker := all[i];
      assert all[..i + 1][..i] == all[..i];
      if ticker !in seen {
        seen := seen + {ticker};
        unique := unique + [ticker];
      }
    }
    assert all[..|all|] == all;
  }
}
