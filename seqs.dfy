/**
 * The array operations the modelled code uses on lists: `filter`, `map` that
 * rewrites the elements matching a test, `find`, and duplicate-freedom of a
 * list of identifiers.
 */
module Seqs {
  import opened Common

  /** `r` can be obtained from `s` by deleting elements, keeping the order. */
  predicate IsSubsequence<T(==)>(r: seq<T>, s: seq<T>)
    decreases |s|
  {
    if r == [] then true
    else if s == [] then false
    else if r[0] == s[0] then IsSubsequence(r[1..], s[1..])
    else IsSubsequence(r, s[1..])
  }

  /** `s.filter(p)`. */
  function Filter<T(==)>(s: seq<T>, p: T -> bool): (r: seq<T>)
    ensures |r| <= |s|
    ensures forall i :: 0 <= i < |r| ==> p(r[i]) && r[i] in s
    ensures forall i :: 0 <= i < |s| && p(s[i]) ==> s[i] in r
    ensures multiset(r) <= multiset(s)
    ensures forall i :: 0 <= i < |s| ==> multiset(r)[s[i]] == if p(s[i]) then multiset(s)[s[i]] else 0
    ensures IsSubsequence(r, s)
    decreases |s|
  {
    if s == [] then []
    else
      var rest := Filter(s[1..], p);
      var r := if p(s[0]) then [s[0]] + rest else rest;
      FilterMembers(s, p, rest, r);
      FilterOrder(s, p, rest, r);
      FilterCounts(s, p, rest, r);
      r
  }

  /** The multiplicities of one filtering step, from those of the filtered tail. */
  lemma FilterCounts<T>(s: seq<T>, p: T -> bool, rest: seq<T>, r: seq<T>)
    requires s != [] && r == (if p(s[0]) then [s[0]] + rest else rest)
    requires multiset(rest) <= multiset(s[1..])
    requires forall i :: 0 <= i < |s[1..]| ==> multiset(rest)[s[1..][i]] == if p(s[1..][i]) then multiset(s[1..])[s[1..][i]] else 0
    ensures forall i :: 0 <= i < |s| ==> multiset(r)[s[i]] == if p(s[i]) then multiset(s)[s[i]] else 0
  {
    var t := s[1..];
    assert s == [s[0]] + t;
    assert multiset(s) == multiset([s[0]]) + multiset(t);
    if p(s[0]) {
      assert multiset(r) == multiset([s[0]]) + multiset(rest);
    }
    forall i | 0 <= i < |s| ensures multiset(r)[s[i]] == if p(s[i]) then multiset(s)[s[i]] else 0 {
      var x := s[i];
      if x in t {
        var j :| 0 <= j < |t| && t[j] == x;
        assert multiset(rest)[x] == if p(x) then multiset(t)[x] else 0;
      } else {
        assert multiset(t)[x] == 0;
        assert multiset(rest)[x] == 0;
      }
    }
  }

  /** The members of one filtering step, from those of the filtered tail. */
  lemma FilterMembers<T>(s: seq<T>, p: T -> bool, rest: seq<T>, r: seq<T>)
    requires s != [] && r == (if p(s[0]) then [s[0]] + rest else rest)
    requires forall i :: 0 <= i < |rest| ==> p(rest[i]) && rest[i] in s[1..]
    requires forall i :: 0 <= i < |s[1..]| && p(s[1..][i]) ==> s[1..][i] in rest
    ensures forall i :: 0 <= i < |r| ==> p(r[i]) && r[i] in s
    ensures forall i :: 0 <= i < |s| && p(s[i]) ==> s[i] in r
  {
    forall i | 0 <= i < |s| && p(s[i]) ensures s[i] in r {
      if i > 0 {
        assert s[i] == s[1..][i - 1];
      }
    }
  }

  /** The length, multiset and order of one filtering step, from those of the filtered tail. */
  lemma FilterOrder<T>(s: seq<T>, p: T -> bool, rest: seq<T>, r: seq<T>)
    requires s != [] && r == (if p(s[0]) then [s[0]] + rest else rest)
    requires |rest| <= |s[1..]| && multiset(rest) <= multiset(s[1..]) && IsSubsequence(rest, s[1..])
    ensures |r| <= |s| && multiset(r) <= multiset(s) && IsSubsequence(r, s)
  {
    assert s == [s[0]] + s[1..];
    if p(s[0]) {
      assert r[1..] == rest;
    } else {
      SubsequenceOfTail(rest, s);
    }
  }

  lemma SubsequenceOfTail<T>(r: seq<T>, s: seq<T>)
    requires s != [] && IsSubsequence(r, s[1..])
    ensures IsSubsequence(r, s)
    decreases |s|, 0
  {
    if r != [] && r[0] == s[0] {
      SubsequenceDropHead(r, s[1..]);
    }
  }

  /** Dropping the head of a subsequence keeps it a subsequence. */
  lemma SubsequenceDropHead<T>(r: seq<T>, s: seq<T>)
    requires r != [] && IsSubsequence(r, s)
    ensures IsSubsequence(r[1..], s)
    decreases |s|, 1
  {
    if r[0] != s[0] {
      SubsequenceDropHead(r, s[1..]);
      SubsequenceOfTail(r[1..], s);
    } else if r[1..] != [] {
      SubsequenceOfTail(r[1..], s);
    }
  }

  /** Filtering with a test every element passes keeps the whole list. */
  lemma {:induction false} FilterKeepsAll<T>(s: seq<T>, p: T -> bool)
    requires forall i :: 0 <= i < |s| ==> p(s[i])
    ensures Filter(s, p) == s
    decreases |s|
  {
    if s != [] {
      FilterKeepsAll(s[1..], p);
    }
  }

  /** The filter keeps the whole list exactly when every element passes the test. */
  lemma {:induction false} FilterKeepsAllIff<T>(s: seq<T>, p: T -> bool)
    ensures |Filter(s, p)| == |s| <==> forall i :: 0 <= i < |s| ==> p(s[i])
    decreases |s|
  {
    if s != [] {
      var tail := s[1..];
      FilterKeepsAllIff(tail, p);
      assert Filter(s, p) == if p(s[0]) then [s[0]] + Filter(tail, p) else Filter(tail, p);
      if forall i :: 0 <= i < |tail| ==> p(tail[i]) {
        if p(s[0]) {
          forall i | 0 <= i < |s| ensures p(s[i]) {
            if i > 0 { assert s[i] == tail[i - 1]; }
          }
        }
      } else {
        var j :| 0 <= j < |tail| && !p(tail[j]);
        assert !p(s[j + 1]);
      }
    }
  }

  /** Filtering a concatenation filters each part. */
  lemma {:induction false} FilterAppend<T>(a: seq<T>, b: seq<T>, p: T -> bool)
    ensures Filter(a + b, p) == Filter(a, p) + Filter(b, p)
    decreases |a|
  {
    if a != [] {
      var ab := a + b;
      assert ab != [] && ab[0] == a[0] && ab[1..] == a[1..] + b;
      FilterAppend(a[1..], b, p);
      var fa, fb := Filter(a[1..], p), Filter(b, p);
      if p(a[0]) {
        assert Filter(ab, p) == [a[0]] + (fa + fb);
        assert Filter(a, p) == [a[0]] + fa;
      } else {
        assert Filter(ab, p) == fa + fb;
      }
    } else {
      assert a + b == b;
    }
  }

  /** The test "differs from `x`". */
  function NotEq<T(==)>(x: T): T -> bool {
    y => y != x
  }

  /** The list with every element `x` removed. */
  function Without<T(==)>(s: seq<T>, x: T): (r: seq<T>)
    ensures x !in r
    ensures forall i :: 0 <= i < |r| ==> r[i] in s
    ensures forall i :: 0 <= i < |s| && s[i] != x ==> s[i] in r
    ensures forall i :: 0 <= i < |s| ==> multiset(r)[s[i]] == if s[i] == x then 0 else multiset(s)[s[i]]
    ensures IsSubsequence(r, s)
    ensures x !in s ==> r == s
    ensures NoDup(s) ==> NoDup(r)
  {
    var r := Filter(s, NotEq(x));
    if x !in s then
      FilterKeepsAll(s, NotEq(x));
      r
    else if NoDup(s) then
      FilterNoDup(s, NotEq(x));
      r
    else r
  }

  /** The test "is not one of `xs`". */
  function NotIn<T(==)>(xs: seq<T>): T -> bool {
    y => y !in xs
  }

  /** Removing one more element after removing those of `xs` removes those of `xs + [x]`. */
  lemma {:induction false} WithoutAfterFilter<T>(s: seq<T>, xs: seq<T>, x: T)
    ensures Without(Filter(s, NotIn(xs)), x) == Filter(s, NotIn(xs + [x]))
    decreases |s|
  {
    if s != [] {
      WithoutAfterFilter(s[1..], xs, x);
      var h := s[0];
      assert h in xs + [x] <==> h in xs || h == x;
      var f := Filter(s[1..], NotIn(xs));
      if h !in xs {
        assert Filter(s, NotIn(xs)) == [h] + f;
        assert ([h] + f)[1..] == f;
      }
    }
  }

  /** Removing `xs[i]` after `xs[..i]` removes `xs[..i + 1]`. */
  lemma WithoutNext<T>(s: seq<T>, xs: seq<T>, i: nat)
    requires i < |xs|
    ensures Without(Filter(s, NotIn(xs[..i])), xs[i]) == Filter(s, NotIn(xs[..i + 1]))
  {
    var pre, next := xs[..i], xs[..i + 1];
    assert next == pre + [xs[i]];
    WithoutAfterFilter(s, pre, xs[i]);
  }

  /** None of the removed elements is left. */
  lemma FilterNotInExcludes<T>(s: seq<T>, xs: seq<T>)
    ensures forall k :: 0 <= k < |xs| ==> xs[k] !in Filter(s, NotIn(xs))
  {
  }

  /** Removing the elements of no list keeps the list. */
  lemma FilterNotInNothing<T>(s: seq<T>)
    ensures Filter(s, NotIn([])) == s
  {
    FilterKeepsAll(s, NotIn([]));
  }

  /** Removing an element that was appended to a list without it gives the list back. */
  lemma WithoutAppended<T>(s: seq<T>, x: T)
    requires x !in s
    ensures Without(s + [x], x) == s
  {
    FilterAppend(s, [x], NotEq(x));
    FilterKeepsAll(s, NotEq(x));
    assert Filter([x], NotEq(x)) == [] by {
      assert [x][1..] == [];
    }
  }

  /** `s.map(e => p(e) ? f(e) : e)`. */
  function MapWhere<T>(s: seq<T>, p: T -> bool, f: T -> T): (r: seq<T>)
    ensures |r| == |s|
    ensures forall i :: 0 <= i < |s| && p(s[i]) ==> r[i] == f(s[i])
    ensures forall i :: 0 <= i < |s| && !p(s[i]) ==> r[i] == s[i]
  {
    seq(|s|, i requires 0 <= i < |s| => if p(s[i]) then f(s[i]) else s[i])
  }

  /** `s.find(p)`: the first element passing the test, if any. */
  function Find<T(==)>(s: seq<T>, p: T -> bool): (r: Option<T>)
    ensures r.None? <==> forall i :: 0 <= i < |s| ==> !p(s[i])
    ensures r.Some? ==> exists k :: 0 <= k < |s| && s[k] == r.value && p(s[k])
                         && forall j :: 0 <= j < k ==> !p(s[j])
    decreases |s|
  {
    if s == [] then None
    else if p(s[0]) then Some(s[0])
    else
      var r := Find(s[1..], p);
      if r.Some? then
        var k :| 0 <= k < |s| - 1 && s[1..][k] == r.value && p(s[1..][k])
                 && forall j :: 0 <= j < k ==> !p(s[1..][j]);
        assert forall j :: 0 <= j < k + 1 ==> !p(s[j]) by {
          forall j | 0 <= j < k + 1 ensures !p(s[j]) {
            if j > 0 { assert s[j] == s[1..][j - 1]; }
          }
        }
        r
      else
        assert forall i :: 0 <= i < |s| ==> !p(s[i]) by {
          forall i | 0 <= i < |s| ensures !p(s[i]) {
            if i > 0 { assert s[i] == s[1..][i - 1]; }
          }
        }
        r
  }

  predicate NoDup<T(==)>(s: seq<T>) {
    forall i, j :: 0 <= i < j < |s| ==> s[i] != s[j]
  }

  lemma NoDupTail<T>(s: seq<T>)
    requires s != [] && NoDup(s)
    ensures NoDup(s[1..]) && s[0] !in s[1..]
  {
    forall k | 0 <= k < |s| - 1 ensures s[1..][k] != s[0] {
      assert s[1..][k] == s[k + 1];
    }
  }

  lemma NoDupCons<T>(x: T, t: seq<T>)
    requires NoDup(t) && x !in t
    ensures NoDup([x] + t)
  {
    var r := [x] + t;
    forall i, j | 0 <= i < j < |r| ensures r[i] != r[j] {
      assert r[j] == t[j - 1];
      if i > 0 { assert r[i] == t[i - 1]; }
    }
  }

  lemma NoDupSnoc<T>(s: seq<T>, x: T)
    requires NoDup(s) && x !in s
    ensures NoDup(s + [x])
  {
    var r := s + [x];
    forall i, j | 0 <= i < j < |r| ensures r[i] != r[j] {
      assert r[i] == s[i];
      if j < |s| { assert r[j] == s[j]; }
    }
  }

  /** `Array.from(new Set(s))`: the first occurrence of each element, in order. */
  function Dedup<T(==)>(s: seq<T>): (r: seq<T>)
    ensures NoDup(r)
    ensures forall i :: 0 <= i < |s| ==> s[i] in r
    ensures forall i :: 0 <= i < |r| ==> r[i] in s
    ensures forall i, j :: 0 <= i < j < |r| ==> SeenBefore(s, r[i], r[j])
    ensures NoDup(s) ==> r == s
    decreases |s|
  {
    if s == [] then []
    else
      var n := |s| - 1;
      var d := Dedup(s[..n]);
      var r := if s[n] in d then d else d + [s[n]];
      DedupStep(s, d, r);
      DedupOrder(s, d, r);
      r
  }

  /** `a` occurs in `s` before the first occurrence of `b`. */
  predicate SeenBefore<T(==)>(s: seq<T>, a: T, b: T) {
    exists k :: 0 <= k < |s| && s[k] == a && b !in s[..k]
  }

  /** The order of one step of `Dedup`, from the order of the deduplicated prefix. */
  lemma DedupOrder<T>(s: seq<T>, d: seq<T>, r: seq<T>)
    requires s != [] && r == (if s[|s| - 1] in d then d else d + [s[|s| - 1]])
    requires var t := s[..|s| - 1];
      (forall i :: 0 <= i < |d| ==> d[i] in t) && (forall i :: 0 <= i < |t| ==> t[i] in d)
      && forall i, j :: 0 <= i < j < |d| ==> SeenBefore(t, d[i], d[j])
    ensures forall i, j :: 0 <= i < j < |r| ==> SeenBefore(s, r[i], r[j])
  {
    var n := |s| - 1;
    var t := s[..n];
    forall i, j | 0 <= i < j < |r| ensures SeenBefore(s, r[i], r[j]) {
      if j < |d| {
        SeenBeforeInLonger(s, t, d[i], d[j]);
      } else {
        SeenBeforeNew(s, t, d[i], s[n]);
      }
    }
  }

  lemma SeenBeforeInLonger<T>(s: seq<T>, t: seq<T>, a: T, b: T)
    requires |t| <= |s| && t == s[..|t|] && SeenBefore(t, a, b)
    ensures SeenBefore(s, a, b)
  {
    var k :| 0 <= k < |t| && t[k] == a && b !in t[..k];
    assert s[..k] == t[..k];
  }

  lemma SeenBeforeNew<T>(s: seq<T>, t: seq<T>, a: T, b: T)
    requires |t| <= |s| && t == s[..|t|] && a in t && b !in t
    ensures SeenBefore(s, a, b)
  {
    var k :| 0 <= k < |t| && t[k] == a;
    assert s[..k] == t[..k];
    assert s[..k] <= t;
  }

  /** One step of `Dedup`: the last element is kept exactly when it is new. */
  lemma DedupStep<T>(s: seq<T>, d: seq<T>, r: seq<T>)
    requires s != [] && r == (if s[|s| - 1] in d then d else d + [s[|s| - 1]])
    requires var t := s[..|s| - 1];
      NoDup(d) && (forall i :: 0 <= i < |t| ==> t[i] in d) && (forall i :: 0 <= i < |d| ==> d[i] in t)
      && (NoDup(t) ==> d == t)
    ensures NoDup(r)
    ensures forall i :: 0 <= i < |s| ==> s[i] in r
    ensures forall i :: 0 <= i < |r| ==> r[i] in s
    ensures NoDup(s) ==> r == s
  {
    var n := |s| - 1;
    var t := s[..n];
    assert s == t + [s[n]];
    assert forall i :: 0 <= i < |s| ==> s[i] in r by {
      forall i | 0 <= i < |s| ensures s[i] in r {
        if i < n { assert s[i] == t[i]; }
      }
    }
    if s[n] !in d {
      NoDupSnoc(d, s[n]);
      assert NoDup(s) ==> NoDup(t) by {
        if NoDup(s) {
          forall i, j | 0 <= i < j < |t| ensures t[i] != t[j] {
            assert t[i] == s[i] && t[j] == s[j];
          }
        }
      }
    }
  }

  /** A filtered list of distinct elements has distinct elements. */
  lemma {:induction false} FilterNoDup<T>(s: seq<T>, p: T -> bool)
    requires NoDup(s)
    ensures NoDup(Filter(s, p))
    decreases |s|
  {
    if s != [] {
      NoDupTail(s);
      FilterNoDup(s[1..], p);
      if p(s[0]) {
        NoDupCons(s[0], Filter(s[1..], p));
      }
    }
  }
}
