/**
 * Sequence helpers the components share: sums (`reduce`), `filter`,
 * order-preserving sublists, and the list of distinct values in
 * first-seen order that insertion-ordered JavaScript maps produce.
 */
module Seqs {

  /** `s.reduce((sum, x) => sum + f(x), 0)`. */
  function SumBy<T>(s: seq<T>, f: T -> int): int
  {
    if |s| == 0 then 0 else f(s[0]) + SumBy(s[1..], f)
  }

  lemma {:induction false} SumByAppend<T>(a: seq<T>, b: seq<T>, f: T -> int)
    ensures SumBy(a + b, f) == SumBy(a, f) + SumBy(b, f)
  {
    if |a| > 0 {
      assert (a + b)[1..] == a[1..] + b;
      SumByAppend(a[1..], b, f);
    } else {
      assert a + b == b;
    }
  }

  lemma SumBySnoc<T>(p: seq<T>, y: T, f: T -> int)
    ensures SumBy(p + [y], f) == SumBy(p, f) + f(y)
  {
    SumByAppend(p, [y], f);
    assert [y][1..] == [];
  }

  /** Removing the element at `i` leaves the rest of the multiset. */
  lemma RemoveAtMultiset<T>(b: seq<T>, i: nat)
    requires i < |b|
    ensures multiset(b[..i] + b[i + 1..]) == multiset(b) - multiset{b[i]}
  {
    assert b == b[..i] + [b[i]] + b[i + 1..];
  }

  lemma {:induction false} SumByRemoveAt<T>(b: seq<T>, i: nat, f: T -> int)
    requires i < |b|
    ensures SumBy(b, f) == f(b[i]) + SumBy(b[..i] + b[i + 1..], f)
  {
    assert b == b[..i] + ([b[i]] + b[i + 1..]);
    assert ([b[i]] + b[i + 1..])[1..] == b[i + 1..];
    SumByAppend(b[..i], [b[i]] + b[i + 1..], f);
    SumByAppend(b[..i], b[i + 1..], f);
  }

  /** A sum does not depend on the order of its terms. */
  lemma {:induction false} SumByPermutation<T>(a: seq<T>, b: seq<T>, f: T -> int)
    requires multiset(a) == multiset(b)
    ensures SumBy(a, f) == SumBy(b, f)
    decreases |a|
  {
    if |a| == 0 {
      assert |b| == |multiset(b)| == 0;
    } else {
      var x := a[0];
      assert x in multiset(b);
      var i :| 0 <= i < |b| && b[i] == x;
      SumByRemoveAt(b, i, f);
      RemoveAtMultiset(b, i);
      RemoveAtMultiset(a, 0);
      assert a[..0] + a[1..] == a[1..];
      SumByPermutation(a[1..], b[..i] + b[i + 1..], f);
    }
  }

  /** `s.filter(p)`. */
  function Filter<T>(s: seq<T>, p: T -> bool): seq<T>
  {
    if |s| == 0 then [] else (if p(s[0]) then [s[0]] else []) + Filter(s[1..], p)
  }

  /** `a` is `b` with some elements dropped and the rest kept in order. */
  predicate IsSublist<T(==)>(a: seq<T>, b: seq<T>)
    decreases |b|
  {
    if |a| == 0 then true
    else if |b| == 0 then false
    else if a[0] == b[0] then IsSublist(a[1..], b[1..])
    else IsSublist(a, b[1..])
  }

  lemma {:induction false} SublistRefl<T>(s: seq<T>)
    ensures IsSublist(s, s)
  {
    if |s| > 0 {
      SublistRefl(s[1..]);
    }
  }

  lemma {:induction false} SublistOfTail<T>(a: seq<T>, b: seq<T>)
    requires |b| > 0 && IsSublist(a, b[1..])
    ensures IsSublist(a, b)
    decreases |b|, 1
  {
    if |a| > 0 && a[0] == b[0] {
      SublistDropHead(a, b[1..]);
    }
  }

  lemma {:induction false} SublistDropHead<T>(a: seq<T>, c: seq<T>)
    requires |a| > 0 && IsSublist(a, c)
    ensures IsSublist(a[1..], c)
    decreases |c|, 2
  {
    if a[0] == c[0] {
      SublistOfTail(a[1..], c);
    } else {
      SublistDropHead(a, c[1..]);
      SublistOfTail(a[1..], c);
    }
  }

  /**
   * The filter keeps exactly the elements satisfying `p`, each as often as it
   * occurs, in their original order.
   */
  lemma {:induction false} FilterSpec<T>(s: seq<T>, p: T -> bool)
    ensures forall x :: x in Filter(s, p) <==> x in s && p(x)
    ensures forall x :: multiset(Filter(s, p))[x] == if p(x) then multiset(s)[x] else 0
    ensures IsSublist(Filter(s, p), s)
    ensures |Filter(s, p)| <= |s|
  {
    if |s| > 0 {
      FilterSpec(s[1..], p);
      assert s == [s[0]] + s[1..];
      var r := Filter(s, p);
      if p(s[0]) {
        assert r == [s[0]] + Filter(s[1..], p);
        assert r[1..] == Filter(s[1..], p);
      } else {
        assert r == Filter(s[1..], p);
        SublistOfTail(r, s);
      }
    }
  }

  /** 1 where `p` holds, 0 elsewhere. */
  function Indicator<T>(p: T -> bool): T -> int {
    x => if p(x) then 1 else 0
  }

  /** The length of a filter is a sum of 0/1 indicators. */
  lemma {:induction false} FilterLengthIsSum<T>(s: seq<T>, p: T -> bool)
    ensures |Filter(s, p)| == SumBy(s, Indicator(p))
  {
    if |s| > 0 {
      FilterLengthIsSum(s[1..], p);
    }
  }

  /** The filter of a concatenation is the concatenation of the filters. */
  lemma {:induction false} FilterAppend<T>(a: seq<T>, b: seq<T>, p: T -> bool)
    ensures Filter(a + b, p) == Filter(a, p) + Filter(b, p)
  {
    if |a| == 0 {
      assert a + b == b;
    } else {
      var x := (if p(a[0]) then [a[0]] else []);
      assert (a + b)[0] == a[0];
      assert (a + b)[1..] == a[1..] + b;
      assert Filter(a + b, p) == x + Filter(a[1..] + b, p);
      FilterAppend(a[1..], b, p);
      assert Filter(a, p) == x + Filter(a[1..], p);
    }
  }

  /** Position of the first occurrence of `x` in `s`. */
  function FirstIndex<T(==)>(s: seq<T>, x: T): (i: nat)
    requires x in s
    ensures i < |s| && s[i] == x
    ensures forall j :: 0 <= j < i ==> s[j] != x
  {
    if s[0] == x then 0 else 1 + FirstIndex(s[1..], x)
  }

  lemma {:induction false} FirstIndexSnoc<T>(s: seq<T>, y: T, x: T)
    requires x in s + [y]
    ensures x in s ==> FirstIndex(s + [y], x) == FirstIndex(s, x)
    ensures x !in s ==> FirstIndex(s + [y], x) == |s|
  {
    var i := FirstIndex(s + [y], x);
    if x in s {
      var k := FirstIndex(s, x);
      assert (s + [y])[k] == x;
      assert i <= k;
      assert s[i] == x;
    } else {
      assert i == |s|;
    }
  }

  predicate NoDuplicates<T(==)>(s: seq<T>) {
    forall i, j :: 0 <= i < j < |s| ==> s[i] != s[j]
  }

  /** The distinct values of `s`, each once, in the order they first occur. */
  function Distinct<T(==)>(s: seq<T>): seq<T>
  {
    if |s| == 0 then []
    else
      var d := Distinct(s[..|s| - 1]);
      if s[|s| - 1] in d then d else d + [s[|s| - 1]]
  }

  /** `d` lists every value of `s` once, and nothing else, by first occurrence. */
  ghost predicate FirstSeenOrder<T>(s: seq<T>, d: seq<T>) {
    && NoDuplicates(d)
    && (forall i :: 0 <= i < |d| ==> d[i] in s)
    && (forall i :: 0 <= i < |s| ==> s[i] in d)
    && (forall i, j :: 0 <= i < j < |d| ==> FirstIndex(s, d[i]) < FirstIndex(s, d[j]))
  }

  lemma FirstSeenOrderSnoc<T>(p: seq<T>, y: T)
    requires FirstSeenOrder(p, Distinct(p))
    ensures FirstSeenOrder(p + [y], Distinct(p + [y]))
  {
    DistinctSnoc(p, y);
    FirstSeenOrderExtend(p, Distinct(p), y);
  }

  lemma FirstSeenOrderExtend<T>(p: seq<T>, d: seq<T>, y: T)
    requires FirstSeenOrder(p, d)
    ensures FirstSeenOrder(p + [y], if y in d then d else d + [y])
  {
    var s := p + [y];
    var e := if y in d then d else d + [y];
    forall i | 0 <= i < |d|
      ensures d[i] in s && FirstIndex(s, d[i]) == FirstIndex(p, d[i]) < |p|
    {
      FirstIndexSnoc(p, y, d[i]);
    }
    forall i | 0 <= i < |s|
      ensures s[i] in e
    {
      if i < |p| {
        assert s[i] == p[i];
      }
    }
    if y !in d {
      FirstIndexSnoc(p, y, y);
      forall i, j | 0 <= i < j < |e|
        ensures FirstIndex(s, e[i]) < FirstIndex(s, e[j])
      {
        assert e[i] == d[i];
      }
    }
  }

  /** `Distinct` lists every value once, only values of `s`, by first occurrence. */
  lemma {:induction false} DistinctSpec<T>(s: seq<T>)
    ensures FirstSeenOrder(s, Distinct(s))
  {
    if |s| > 0 {
      var p := s[..|s| - 1];
      var y := s[|s| - 1];
      DistinctSpec(p);
      FirstSeenOrderSnoc(p, y);
      assert s == p + [y];
    }
  }

  lemma DistinctMembers<T>(s: seq<T>)
    ensures forall x :: x in Distinct(s) <==> x in s
  {
    DistinctSpec(s);
  }

  lemma {:induction false} DistinctSnoc<T>(s: seq<T>, y: T)
    ensures Distinct(s + [y]) == if y in Distinct(s) then Distinct(s) else Distinct(s) + [y]
  {
    assert (s + [y])[..|s + [y]| - 1] == s;
  }
}
