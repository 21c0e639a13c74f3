/** Operations on tickers as character strings: the suffix test used to
    classify markets and Python's ordering of `str` values. */
module Strings {
  import opened OrderedDedup

  /** `s.endswith(suffix)`. */
  predicate EndsWith(s: string, suffix: string) {
    |suffix| <= |s| && s[|s| - |suffix|..] == suffix
  }

  /** Two suffixes of one string: the shorter is a suffix of the longer. */
  lemma SuffixOfSuffix(s: string, a: string, b: string)
    requires EndsWith(s, a) && EndsWith(s, b) && |a| <= |b|
    ensures EndsWith(b, a)
  {
    assert b[|b| - |a|..] == s[|s| - |b|..][|b| - |a|..];
  }

  /** Python's `a <= b` on strings: code points compared left to right,
      and a proper prefix sorts before the longer string. */
  predicate StrLeq(a: string, b: string)
    decreases |a|
  {
    if a == [] then true
    else if b == [] then false
    else if a[0] != b[0] then a[0] < b[0]
    else StrLeq(a[1..], b[1..])
  }

  lemma {:induction false} StrLeqTotal(a: string, b: string)
    ensures StrLeq(a, b) || StrLeq(b, a)
    decreases |a|
  {
    if a != [] && b != [] && a[0] == b[0] {
      StrLeqTotal(a[1..], b[1..]);
    }
  }

  lemma {:induction false} StrLeqAntisymmetric(a: string, b: string)
    requires StrLeq(a, b) && StrLeq(b, a)
    ensures a == b
    decreases |a|
  {
    if a != [] {
      StrLeqAntisymmetric(a[1..], b[1..]);
      assert a == [a[0]] + a[1..] && b == [b[0]] + b[1..];
    }
  }

  lemma {:induction false} StrLeqTransitive(a: string, b: string, c: string)
    requires StrLeq(a, b) && StrLeq(b, c)
    ensures StrLeq(a, c)
    decreases |a|
  {
    if a != [] && b != [] && c != [] && a[0] == b[0] && b[0] == c[0] {
      StrLeqTransitive(a[1..], b[1..], c[1..]);
    }
  }

  /** Ascending in Python's string order. */
  ghost predicate SortedStrings(s: seq<string>) {
    forall i, j {:trigger StrLeq(s[i], s[j])} :: 0 <= i < j < |s| ==> StrLeq(s[i], s[j])
  }

  /** The position of the first element of `s` that `x` does not
      exceed. */
  function InsertPos(x: string, s: seq<string>): (p: nat)
    ensures p <= |s|
    ensures forall i :: 0 <= i < p ==> !StrLeq(x, s[i])
    ensures p < |s| ==> StrLeq(x, s[p])
  {
    if s == [] || StrLeq(x, s[0]) then 0 else 1 + InsertPos(x, s[1..])
  }

  /** Places `x` before the first element it does not exceed. */
  function InsertString(x: string, s: seq<string>): (r: seq<string>)
    ensures |r| == |s| + 1
  {
    var p := InsertPos(x, s);
    s[..p] + [x] + s[p..]
  }

  lemma InsertStringSorted(x: string, s: seq<string>)
    requires SortedStrings(s)
    ensures SortedStrings(InsertString(x, s))
  {
    var p := InsertPos(x, s);
    var r := InsertString(x, s);
    forall i, j | 0 <= i < j < |r| ensures StrLeq(r[i], r[j]) {
      if j < p || p < i {
        var i', j' := if i < p then i else i - 1, if j < p then j else j - 1;
        assert r[i] == s[i'] && r[j] == s[j'];
        assert StrLeq(s[i'], s[j']);
      } else if i == p {
        assert r[j] == s[j - 1];
        if j - 1 > p {
          assert StrLeq(s[p], s[j - 1]);
          StrLeqTransitive(x, s[p], s[j - 1]);
        }
      } else {
        assert r[i] == s[i] && !StrLeq(x, s[i]);
        StrLeqTotal(x, s[i]);
      }
    }
  }

  /** Insertion adds `x` and loses nothing. */
  lemma InsertStringPermutes(x: string, s: seq<string>)
    ensures multiset(InsertString(x, s)) == multiset(s) + multiset{x}
  {
    var p := InsertPos(x, s);
    assert s == s[..p] + s[p..];
  }

  /** `sorted(s)` on a list of strings. */
  function SortStrings(s: seq<string>): (r: seq<string>)
    ensures |r| == |s|
    ensures SortedStrings(r)
  {
    if s == [] then []
    else
      InsertStringSorted(s[|s| - 1], SortStrings(s[..|s| - 1]));
      InsertString(s[|s| - 1], SortStrings(s[..|s| - 1]))
  }

  /** The sort is a permutation of its input. */
  lemma {:induction false} SortStringsPermutes(s: seq<string>)
    ensures multiset(SortStrings(s)) == multiset(s)
  {
    if s != [] {
      var init, last := s[..|s| - 1], s[|s| - 1];
      SortStringsPermutes(init);
      InsertStringPermutes(last, SortStrings(init));
      assert s == init + [last];
    }
  }

  lemma InsertStringDistinct(x: string, s: seq<string>)
    requires NoDuplicates(s) && x !in s
    ensures NoDuplicates(InsertString(x, s))
  {
    var p := InsertPos(x, s);
    var r := InsertString(x, s);
    forall i, j | 0 <= i < j < |r| ensures r[i] != r[j] {
      if i == p {
        assert r[j] == s[j - 1] && r[j] in s;
      } else if j == p {
        assert r[i] == s[i] && r[i] in s;
      } else {
        var i', j' := if i < p then i else i - 1, if j < p then j else j - 1;
        assert r[i] == s[i'] && r[j] == s[j'];
      }
    }
  }

  /** Sorting a list without repeats gives a list without repeats. */
  lemma {:induction false} SortStringsDistinct(s: seq<string>)
    requires NoDuplicates(s)
    ensures NoDuplicates(SortStrings(s))
  {
    if s != [] {
      var init, last := s[..|s| - 1], s[|s| - 1];
      SortStringsDistinct(init);
      SortStringsPermutes(init);
      assert last !in init;
      assert last !in multiset(SortStrings(init));
      InsertStringDistinct(last, SortStrings(init));
    }
  }
}
