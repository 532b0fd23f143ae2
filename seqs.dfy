/** Array helpers of JavaScript as functions on sequences: `filter`, `.at(0)`. */
module Seqs {
  import opened Wrappers

  /** `s.filter(p)`. */
  function Filter<T>(p: T -> bool, s: seq<T>): (r: seq<T>)
    ensures |r| <= |s|
  {
    if s == [] then []
    else (if p(s[0]) then [s[0]] else []) + Filter(p, s[1..])
  }

  /** `s.at(0)`. */
  function Head<T>(s: seq<T>): (r: Option<T>)
    ensures r.Some? <==> |s| > 0
    ensures r.Some? ==> r.value == s[0]
  {
    if s == [] then None else Some(s[0])
  }

  /** `k` is the position of the first element of `s` that satisfies `p`. */
  ghost predicate IsFirstMatch<T>(p: T -> bool, s: seq<T>, k: int) {
    0 <= k < |s| && p(s[k]) && forall j :: 0 <= j < k ==> !p(s[j])
  }

  /** `r` is `s` with some elements left out, the rest in their order. */
  ghost predicate IsSubsequence<T>(r: seq<T>, s: seq<T>)
    decreases |s|
  {
    if r == [] then true
    else if s == [] then false
    else (r[0] == s[0] && IsSubsequence(r[1..], s[1..])) || IsSubsequence(r, s[1..])
  }

  /** What a filter keeps: exactly the elements that satisfy the predicate. */
  lemma {:induction false} FilterMembers<T>(p: T -> bool, s: seq<T>)
    ensures forall x :: x in Filter(p, s) <==> x in s && p(x)
  {
    if s != [] {
      FilterMembers(p, s[1..]);
      assert s == [s[0]] + s[1..];
    }
  }

  /** A filter keeps the original order. */
  lemma {:induction false} FilterIsSubsequence<T>(p: T -> bool, s: seq<T>)
    ensures IsSubsequence(Filter(p, s), s)
  {
    if s != [] {
      FilterIsSubsequence(p, s[1..]);
      if p(s[0]) {
        assert Filter(p, s)[1..] == Filter(p, s[1..]);
      } else {
        assert Filter(p, s) == Filter(p, s[1..]);
        SubsequenceOfTail(Filter(p, s), s);
      }
    }
  }

  lemma {:induction false} SubsequenceOfTail<T>(r: seq<T>, s: seq<T>)
    requires s != [] && IsSubsequence(r, s[1..])
    ensures IsSubsequence(r, s)
  {
  }

  /** The first element of a filter is the first element that satisfies the
      predicate, and the filter is empty exactly when none does. */
  lemma {:induction false} HeadOfFilter<T>(p: T -> bool, s: seq<T>, k: int)
    requires IsFirstMatch(p, s, k)
    ensures Head(Filter(p, s)) == Some(s[k])
  {
    if k > 0 {
      HeadOfFilter(p, s[1..], k - 1);
    }
  }

  lemma {:induction false} HeadOfFilterNone<T>(p: T -> bool, s: seq<T>)
    ensures Head(Filter(p, s)).None? <==> forall j :: 0 <= j < |s| ==> !p(s[j])
  {
    FilterMembers(p, s);
    if Head(Filter(p, s)).None? {
      forall j | 0 <= j < |s| ensures !p(s[j]) {
        assert s[j] in s;
      }
    } else {
      assert Filter(p, s)[0] in Filter(p, s);
    }
  }

  /** Conversely, a result of `.at(0)` on a filter sits at the first match. */
  lemma {:induction false} HeadOfFilterIsFirst<T>(p: T -> bool, s: seq<T>)
    requires Head(Filter(p, s)).Some?
    ensures exists k :: IsFirstMatch(p, s, k) && s[k] == Head(Filter(p, s)).value
  {
    if p(s[0]) {
      assert IsFirstMatch(p, s, 0);
    } else {
      assert Filter(p, s) == Filter(p, s[1..]);
      HeadOfFilterIsFirst(p, s[1..]);
      var k :| IsFirstMatch(p, s[1..], k) && s[1..][k] == Head(Filter(p, s[1..])).value;
      assert IsFirstMatch(p, s, k + 1);
    }
  }

  /** Filtering a sequence with one more element at its end. */
  lemma {:induction false} FilterSnoc<T>(p: T -> bool, s: seq<T>, x: T)
    ensures Filter(p, s + [x]) == Filter(p, s) + (if p(x) then [x] else [])
  {
    if s == [] {
      assert [] + [x] == [x];
      assert Filter(p, [x]) == (if p(x) then [x] else []) + Filter(p, []);
    } else {
      var t := s + [x];
      assert t[0] == s[0];
      assert t[1..] == s[1..] + [x];
      FilterSnoc(p, s[1..], x);
      var h: seq<T> := if p(s[0]) then [s[0]] else [];
      calc {
        Filter(p, t);
        h + Filter(p, t[1..]);
        h + (Filter(p, s[1..]) + (if p(x) then [x] else []));
        (h + Filter(p, s[1..])) + (if p(x) then [x] else []);
        Filter(p, s) + (if p(x) then [x] else []);
      }
    }
  }

  /** Filtering twice keeps what filtering once keeps. */
  lemma {:induction false} FilterIdempotent<T>(p: T -> bool, s: seq<T>)
    ensures Filter(p, Filter(p, s)) == Filter(p, s)
  {
    if s != [] {
      var f := Filter(p, s);
      FilterIdempotent(p, s[1..]);
      if p(s[0]) {
        assert f == [s[0]] + Filter(p, s[1..]);
        assert f[0] == s[0] && f[1..] == Filter(p, s[1..]);
        assert Filter(p, f) == [s[0]] + Filter(p, f[1..]);
      } else {
        assert f == Filter(p, s[1..]);
      }
    }
  }

  /** Proof helper: a prefix one element longer. */
  lemma PrefixSnoc<T>(s: seq<T>, i: nat)
    requires i < |s|
    ensures s[..i + 1] == s[..i] + [s[i]]
  {
  }

  /** Proof helper: regrouping a history that grew in two steps. */
  lemma AppendAssoc<T>(a: seq<T>, b: seq<T>, c: seq<T>)
    ensures a + b + c == a + (b + c)
  {
  }

  /** Proof helper: regrouping a history that grew in three steps. */
  lemma AppendRegroup<T>(a: seq<T>, b: seq<T>, c: seq<T>, d: seq<T>)
    ensures a + b + c + d == a + (b + c + d)
  {
  }
}
