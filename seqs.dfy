/** Sequence operations that the handlers build their list updates from, with their defining properties. */
module Seqs {

  import opened Wrappers

  /** No element occurs twice. */
  predicate NoDups<T(==)>(s: seq<T>) {
    forall i, j :: 0 <= i < j < |s| ==> s[i] != s[j]
  }

  /** `a` is `b` with some elements left out, the rest kept in order. */
  predicate IsSubseq<T(==)>(a: seq<T>, b: seq<T>) {
    if a == [] then true
    else if b == [] then false
    else if a[0] == b[0] then IsSubseq(a[1..], b[1..])
    else IsSubseq(a, b[1..])
  }

  /** A subsequence of `b` is also one of `b` with an element put in front. */
  lemma {:induction false} IsSubseqCons<T>(x: T, a: seq<T>, b: seq<T>)
    requires IsSubseq(a, b)
    ensures IsSubseq(a, [x] + b)
    decreases |b|, 1
  {
    assert ([x] + b)[1..] == b;
    if a != [] && a[0] == x {
      IsSubseqTail(a, b);
    }
  }

  /** Dropping the first element of a subsequence keeps it a subsequence. */
  lemma {:induction false} IsSubseqTail<T>(a: seq<T>, b: seq<T>)
    requires a != [] && IsSubseq(a, b)
    ensures IsSubseq(a[1..], b)
    decreases |b|, 0
  {
    assert b != [];
    assert b == [b[0]] + b[1..];
    if a[0] == b[0] {
      IsSubseqCons(b[0], a[1..], b[1..]);
    } else {
      IsSubseqTail(a, b[1..]);
      IsSubseqCons(b[0], a[1..], b[1..]);
    }
  }

  /** `s.filter(y => y !== x)`: every occurrence of `x` removed, the others kept in order. */
  function Without<T(==,!new)>(s: seq<T>, x: T): (r: seq<T>)
    ensures |r| <= |s|
    ensures x !in r
    ensures forall y :: y in r <==> y in s && y != x
    ensures x !in s ==> r == s
    ensures x in s ==> |r| < |s|
    ensures forall y :: y != x ==> multiset(r)[y] == multiset(s)[y]
  {
    if s == [] then []
    else
      assert s == [s[0]] + s[1..];
      if s[0] == x then Without(s[1..], x)
      else [s[0]] + Without(s[1..], x)
  }

  lemma {:induction false} WithoutIsSubseq<T(!new)>(s: seq<T>, x: T)
    ensures IsSubseq(Without(s, x), s)
  {
    if s != [] {
      WithoutIsSubseq(s[1..], x);
      var w := Without(s[1..], x);
      if s[0] == x && w != [] {
        assert w[0] in w;
      }
    }
  }

  /** Removing from a sequence with one more element at the end. */
  lemma {:induction false} WithoutSnoc<T(!new)>(s: seq<T>, y: T, x: T)
    ensures Without(s + [y], x) == Without(s, x) + (if y == x then [] else [y])
  {
    if s == [] {
      assert s + [y] == [y];
    } else {
      assert (s + [y])[1..] == s[1..] + [y];
      WithoutSnoc(s[1..], y, x);
    }
  }

  /** Removing an element that was just appended. */
  lemma WithoutAppended<T(!new)>(s: seq<T>, x: T)
    ensures Without(s + [x], x) == Without(s, x)
  {
    WithoutSnoc(s, x, x);
  }

  /** The first `n` elements, or all of them: `s.slice(0, n)`. */
  function Prefix<T>(s: seq<T>, n: nat): (r: seq<T>)
    ensures |r| == Min(|s|, n)
    ensures r == s[..|r|]
  {
    if |s| <= n then s else s[..n]
  }

  /** A prefix is a subsequence. */
  lemma {:induction false} PrefixIsSubseq<T>(s: seq<T>, n: nat)
    requires n <= |s|
    ensures IsSubseq(s[..n], s)
  {
    if n > 0 {
      assert s[..n][1..] == s[1..][..n - 1];
      PrefixIsSubseq(s[1..], n - 1);
    }
  }

  /** Subsequences compose. */
  lemma {:induction false} IsSubseqTrans<T>(a: seq<T>, b: seq<T>, c: seq<T>)
    requires IsSubseq(a, b) && IsSubseq(b, c)
    ensures IsSubseq(a, c)
    decreases |c|
  {
    if a != [] {
      assert b != [] && c != [];
      if b[0] == c[0] {
        if a[0] == b[0] {
          IsSubseqTrans(a[1..], b[1..], c[1..]);
        } else {
          IsSubseqTrans(a, b[1..], c[1..]);
        }
      } else {
        IsSubseqTrans(a, b, c[1..]);
        IsSubseqTail(a, c[1..]);
      }
    }
  }

  /** Position of the first occurrence of `x`. */
  function FirstIndex<T(==)>(s: seq<T>, x: T): (k: nat)
    requires x in s
    ensures k < |s| && s[k] == x && x !in s[..k]
  {
    if s[0] == x then 0
    else
      assert s[1..][..FirstIndex(s[1..], x)] == s[1..1 + FirstIndex(s[1..], x)];
      1 + FirstIndex(s[1..], x)
  }

  lemma FirstIndexUnique<T>(s: seq<T>, x: T, k: nat)
    requires k < |s| && s[k] == x && x !in s[..k]
    ensures FirstIndex(s, x) == k
  {
  }

  /**
   * `Array.from(new Set(s))`: the distinct elements in the order in which a JavaScript `Set`
   * receives them, that is, each element when it is first seen.
   */
  function Distinct<T(==,!new)>(s: seq<T>): (r: seq<T>)
    ensures NoDups(r)
    ensures forall y :: y in r <==> y in s
    ensures |r| <= |s|
  {
    if s == [] then []
    else
      var init, last := s[..|s| - 1], s[|s| - 1];
      assert s == init + [last];
      var p := Distinct(init);
      if last in init then p else p + [last]
  }

  /** The set order is first-occurrence order: earlier in the result means first seen earlier in `s`. */
  lemma {:induction false} DistinctFirstOccurrence<T(!new)>(s: seq<T>)
    ensures forall i, j :: 0 <= i < j < |Distinct(s)| ==>
      FirstIndex(s, Distinct(s)[i]) < FirstIndex(s, Distinct(s)[j])
  {
    if s != [] {
      var init, last := s[..|s| - 1], s[|s| - 1];
      assert s == init + [last];
      DistinctFirstOccurrence(init);
      var p := Distinct(init);
      forall y | y in init
        ensures FirstIndex(s, y) == FirstIndex(init, y)
      {
        var k := FirstIndex(init, y);
        assert s[..k] == init[..k];
        FirstIndexUnique(s, y, k);
      }
      if last !in init {
        assert s[..|s| - 1] == init;
        FirstIndexUnique(s, last, |s| - 1);
        var r := p + [last];
        forall i, j | 0 <= i < j < |r|
          ensures FirstIndex(s, r[i]) < FirstIndex(s, r[j])
        {
          assert r[i] == p[i] && p[i] in init;
          if j < |p| {
            assert r[j] == p[j] && p[j] in init;
          }
        }
      } else {
        forall i, j | 0 <= i < j < |p|
          ensures FirstIndex(s, p[i]) < FirstIndex(s, p[j])
        {
          assert p[i] in init && p[j] in init;
          assert FirstIndex(init, p[i]) < FirstIndex(init, p[j]);
        }
      }
    }
  }

  /** `s.findIndex(p)`, or `findOne` over a collection in its natural order: the first position satisfying `p`. */
  function FirstWhere<T>(s: seq<T>, p: T -> bool): (r: Option<nat>)
    ensures r.Some? ==> r.value < |s| && p(s[r.value]) && forall j :: 0 <= j < r.value ==> !p(s[j])
    ensures r.None? ==> forall j :: 0 <= j < |s| ==> !p(s[j])
  {
    if s == [] then None
    else if p(s[0]) then Some(0)
    else
      match FirstWhere(s[1..], p)
      case None => None
      case Some(k) => Some(k + 1)
  }

  /** `s.filter(p)`: each passing element as often as it occurs in `s`, and nothing else. */
  function Filter<T(!new)>(s: seq<T>, p: T -> bool): (r: seq<T>)
    ensures |r| <= |s|
    ensures forall y :: y in r <==> y in s && p(y)
    ensures forall y :: multiset(r)[y] == if p(y) then multiset(s)[y] else 0
  {
    if s == [] then []
    else
      assert s == [s[0]] + s[1..];
      assert multiset(s) == multiset{s[0]} + multiset(s[1..]);
      if p(s[0]) then
        assert multiset([s[0]] + Filter(s[1..], p)) == multiset{s[0]} + multiset(Filter(s[1..], p));
        [s[0]] + Filter(s[1..], p)
      else Filter(s[1..], p)
  }

  lemma {:induction false} FilterIsSubseq<T(!new)>(s: seq<T>, p: T -> bool)
    ensures IsSubseq(Filter(s, p), s)
  {
    if s != [] {
      FilterIsSubseq(s[1..], p);
      var f := Filter(s[1..], p);
      if !p(s[0]) && f != [] {
        assert f[0] in f;
      }
    }
  }
}
