/** `Counter(xs).most_common(n)`: a Counter keeps its keys in first-seen order, and
    `most_common` sorts the (key, count) pairs by count, largest first, with a stable sort
    (ties stay in first-seen order), then keeps the first n pairs. The pipeline counts
    tokens and domains, so the values counted here are strings. */
module Ranking {
  import Seqs

  /** Number of occurrences of x in xs. */
  function Count(xs: seq<string>, x: string): nat
    decreases |xs|
  {
    if xs == [] then 0
    else Count(xs[..|xs| - 1], x) + (if xs[|xs| - 1] == x then 1 else 0)
  }

  /** The distinct values of xs in the order they are first seen: the keys of
      `Counter(xs)`, which adds a key when it meets it for the first time. */
  function Distinct(xs: seq<string>): (d: seq<string>)
    ensures forall x :: x in d <==> x in xs
    ensures forall i, j :: 0 <= i < j < |d| ==> d[i] != d[j]
    decreases |xs|
  {
    if xs == [] then []
    else
      var init := Distinct(xs[..|xs| - 1]);
      var last := xs[|xs| - 1];
      assert forall x :: x in xs <==> x in xs[..|xs| - 1] || x == last by {
        assert xs == xs[..|xs| - 1] + [last];
      }
      if last in init then init else init + [last]
  }

  /** Position of the first occurrence of x in xs. */
  function FirstIndex(xs: seq<string>, x: string): (k: nat)
    requires x in xs
    ensures k < |xs| && xs[k] == x
    ensures forall m :: 0 <= m < k ==> xs[m] != x
    decreases |xs|
  {
    if xs[0] == x then 0 else 1 + FirstIndex(xs[1..], x)
  }

  /** `Counter(xs).items()`: each distinct value with its count, first-seen order. */
  function Tally(xs: seq<string>): seq<(string, nat)>
  {
    var d := Distinct(xs);
    seq(|d|, i requires 0 <= i < |d| => (d[i], Count(xs, d[i])))
  }

  /** Insert p in front of the first pair whose count is not larger than p's: placed there,
      p stays ahead of every pair with the same count that came after it. */
  function Insert(p: (string, nat), s: seq<(string, nat)>): (r: seq<(string, nat)>)
    ensures multiset(r) == multiset(s) + multiset{p}
    decreases |s|
  {
    if s == [] || s[0].1 <= p.1 then [p] + s
    else
      assert s == [s[0]] + s[1..];
      [s[0]] + Insert(p, s[1..])
  }

  /** Stable sort by count, largest first (insertion sort). */
  function SortByCount(ps: seq<(string, nat)>): (r: seq<(string, nat)>)
    ensures multiset(r) == multiset(ps)
    decreases |ps|
  {
    if ps == [] then []
    else
      assert ps == [ps[0]] + ps[1..];
      Insert(ps[0], SortByCount(ps[1..]))
  }

  /** `Counter(xs).most_common(n)` */
  function MostCommon(xs: seq<string>, n: nat): seq<(string, nat)>
  {
    var s := SortByCount(Tally(xs));
    s[..Seqs.Min(n, |s|)]
  }

  function Keys(ps: seq<(string, nat)>): seq<string>
  {
    seq(|ps|, i requires 0 <= i < |ps| => ps[i].0)
  }

  /** The order most_common lists pairs in: larger count first; equal counts in the order
      their values are first seen in xs. */
  predicate Before(xs: seq<string>, p: (string, nat), q: (string, nat))
  {
    p.0 in xs && q.0 in xs &&
    (p.1 > q.1 || (p.1 == q.1 && FirstIndex(xs, p.0) < FirstIndex(xs, q.0)))
  }

  predicate RankedBy(xs: seq<string>, s: seq<(string, nat)>)
  {
    forall i, j :: 0 <= i < j < |s| ==> Before(xs, s[i], s[j])
  }

  lemma FirstIndexUnique(xs: seq<string>, x: string, k: nat)
    requires k < |xs| && xs[k] == x
    requires forall m :: 0 <= m < k ==> xs[m] != x
    ensures FirstIndex(xs, x) == k
  {
  }

  /** Every value of xs is counted at least once. */
  lemma {:induction false} CountPositive(xs: seq<string>, x: string)
    requires x in xs
    ensures Count(xs, x) >= 1
    decreases |xs|
  {
    var init := xs[..|xs| - 1];
    if xs[|xs| - 1] != x {
      assert xs == init + [xs[|xs| - 1]];
      CountPositive(init, x);
    }
  }

  /** The keys of the Counter are in strictly increasing first-seen position. */
  lemma {:induction false} DistinctFirstSeen(xs: seq<string>)
    ensures forall i, j :: 0 <= i < j < |Distinct(xs)| ==>
      FirstIndex(xs, Distinct(xs)[i]) < FirstIndex(xs, Distinct(xs)[j])
    decreases |xs|
  {
    if xs != [] {
      var init := xs[..|xs| - 1];
      var last := xs[|xs| - 1];
      var d0 := Distinct(init);
      DistinctFirstSeen(init);
      assert xs == init + [last];
      forall x | x in init
        ensures FirstIndex(xs, x) == FirstIndex(init, x)
      {
        FirstIndexUnique(xs, x, FirstIndex(init, x));
      }
      if last !in d0 {
        FirstIndexUnique(xs, last, |init|);
        assert Distinct(xs) == d0 + [last];
      }
    }
  }

  /** Insertion keeps a ranked sequence ranked when p's value was first seen before every
      value already in it. */
  lemma {:induction false} InsertRanked(xs: seq<string>, p: (string, nat), s: seq<(string, nat)>)
    requires RankedBy(xs, s) && p.0 in xs
    requires forall i :: 0 <= i < |s| ==>
      s[i].0 in xs && FirstIndex(xs, p.0) < FirstIndex(xs, s[i].0)
    ensures RankedBy(xs, Insert(p, s))
    decreases |s|
  {
    if s == [] || s[0].1 <= p.1 {
      forall j | 0 <= j < |s|
        ensures Before(xs, p, s[j])
      {
        if j > 0 { assert Before(xs, s[0], s[j]); }
      }
      RankedCons(xs, p, s);
    } else {
      var tail := Insert(p, s[1..]);
      InsertRanked(xs, p, s[1..]);
      forall j | 0 <= j < |tail|
        ensures Before(xs, s[0], tail[j])
      {
        assert tail[j] in multiset(tail);
        if tail[j] != p {
          assert tail[j] in multiset(s[1..]);
          var m :| 1 <= m < |s| && s[m] == tail[j];
        }
      }
      RankedCons(xs, s[0], tail);
    }
  }

  /** A ranked list stays ranked under a head that comes before every pair in it. */
  lemma RankedCons(xs: seq<string>, h: (string, nat), t: seq<(string, nat)>)
    requires RankedBy(xs, t)
    requires forall j :: 0 <= j < |t| ==> Before(xs, h, t[j])
    ensures RankedBy(xs, [h] + t)
  {
    var r := [h] + t;
    forall i, j | 0 <= i < j < |r|
      ensures Before(xs, r[i], r[j])
    {
      assert r[j] == t[j - 1];
      if i > 0 { assert r[i] == t[i - 1]; }
    }
  }

  /** Sorting pairs given in first-seen order ranks them. */
  lemma {:induction false} SortRanked(xs: seq<string>, ps: seq<(string, nat)>)
    requires forall i :: 0 <= i < |ps| ==> ps[i].0 in xs
    requires forall i, j :: 0 <= i < j < |ps| ==> FirstIndex(xs, ps[i].0) < FirstIndex(xs, ps[j].0)
    ensures RankedBy(xs, SortByCount(ps))
    decreases |ps|
  {
    if ps != [] {
      var rest := SortByCount(ps[1..]);
      SortRanked(xs, ps[1..]);
      forall i | 0 <= i < |rest|
        ensures rest[i].0 in xs && FirstIndex(xs, ps[0].0) < FirstIndex(xs, rest[i].0)
      {
        var m := PermutedIndex(rest, ps[1..], i);
        assert rest[i] == ps[m + 1];
      }
      InsertRanked(xs, ps[0], rest);
    }
  }

  /** An element of a sequence stands somewhere in every permutation of it. */
  lemma PermutedIndex<T>(a: seq<T>, b: seq<T>, i: nat) returns (m: nat)
    requires multiset(a) == multiset(b) && i < |a|
    ensures m < |b| && b[m] == a[i]
  {
    assert a[i] in multiset(b);
    m :| m < |b| && b[m] == a[i];
  }

  /** The fully sorted Counter: every distinct value exactly once with its count, ranked. */
  lemma SortedTally(xs: seq<string>)
    ensures |SortByCount(Tally(xs))| == |Distinct(xs)|
    ensures RankedBy(xs, SortByCount(Tally(xs)))
    ensures forall i :: 0 <= i < |SortByCount(Tally(xs))| ==>
      SortByCount(Tally(xs))[i].0 in xs &&
      SortByCount(Tally(xs))[i].1 == Count(xs, SortByCount(Tally(xs))[i].0)
    ensures forall x :: x in xs ==>
      exists q :: 0 <= q < |SortByCount(Tally(xs))| && SortByCount(Tally(xs))[q] == (x, Count(xs, x))
  {
    var d := Distinct(xs);
    var t := Tally(xs);
    var full := SortByCount(t);
    DistinctFirstSeen(xs);
    SortRanked(xs, t);
    assert |full| == |t| by { assert |multiset(full)| == |multiset(t)|; }
    forall i | 0 <= i < |full|
      ensures full[i].0 in xs && full[i].1 == Count(xs, full[i].0)
    {
      var m := PermutedIndex(full, t, i);
    }
    forall x | x in xs
      ensures exists q :: 0 <= q < |full| && full[q] == (x, Count(xs, x))
    {
      var k :| 0 <= k < |d| && d[k] == x;
      assert t[k] == (x, Count(xs, x));
      var q := PermutedIndex(t, full, k);
    }
  }

  /** What `most_common(n)` returns: min(n, number of distinct values) pairs, each a value
      of xs with its exact count; ranked by count with ties in first-seen order; and every
      value left out ranks after every value returned. */
  lemma MostCommonSpec(xs: seq<string>, n: nat)
    ensures |MostCommon(xs, n)| == Seqs.Min(n, |Distinct(xs)|)
    ensures forall i :: 0 <= i < |MostCommon(xs, n)| ==>
      MostCommon(xs, n)[i].0 in xs &&
      MostCommon(xs, n)[i].1 == Count(xs, MostCommon(xs, n)[i].0) &&
      MostCommon(xs, n)[i].1 >= 1
    ensures RankedBy(xs, MostCommon(xs, n))
    ensures forall i, j :: 0 <= i < j < |MostCommon(xs, n)| ==>
      MostCommon(xs, n)[i].1 >= MostCommon(xs, n)[j].1 &&
      MostCommon(xs, n)[i].0 != MostCommon(xs, n)[j].0
    ensures forall x :: x in xs && x !in Keys(MostCommon(xs, n)) ==>
      |MostCommon(xs, n)| == n &&
      forall i :: 0 <= i < |MostCommon(xs, n)| ==> Before(xs, MostCommon(xs, n)[i], (x, Count(xs, x)))
  {
    SortedTally(xs);
    TopOfRanked(xs, SortByCount(Tally(xs)), n);
  }

  /** The first n pairs of a complete ranking of xs's values. */
  lemma TopOfRanked(xs: seq<string>, full: seq<(string, nat)>, n: nat)
    requires RankedBy(xs, full)
    requires forall i :: 0 <= i < |full| ==> full[i].0 in xs && full[i].1 == Count(xs, full[i].0)
    requires forall x :: x in xs ==> exists q :: 0 <= q < |full| && full[q] == (x, Count(xs, x))
    ensures var r := full[..Seqs.Min(n, |full|)];
      (forall i :: 0 <= i < |r| ==> r[i].0 in xs && r[i].1 == Count(xs, r[i].0) && r[i].1 >= 1) &&
      RankedBy(xs, r) &&
      (forall i, j :: 0 <= i < j < |r| ==> r[i].1 >= r[j].1 && r[i].0 != r[j].0) &&
      (forall x :: x in xs && x !in Keys(r) ==>
        |r| == n && forall i :: 0 <= i < |r| ==> Before(xs, r[i], (x, Count(xs, x))))
  {
    var r := full[..Seqs.Min(n, |full|)];
    forall i | 0 <= i < |r|
      ensures r[i].1 >= 1
    {
      CountPositive(xs, r[i].0);
    }
    forall i, j | 0 <= i < j < |r|
      ensures Before(xs, r[i], r[j]) && r[i].1 >= r[j].1 && r[i].0 != r[j].0
    {
      assert Before(xs, full[i], full[j]);
    }
    forall x | x in xs && x !in Keys(r)
      ensures |r| == n && forall i :: 0 <= i < |r| ==> Before(xs, r[i], (x, Count(xs, x)))
    {
      forall i | 0 <= i < |r|
        ensures r[i].0 != x
      {
        assert Keys(r)[i] == r[i].0;
      }
      var q :| 0 <= q < |full| && full[q] == (x, Count(xs, x));
      assert q >= |r|;
      forall i | 0 <= i < |r|
        ensures Before(xs, r[i], (x, Count(xs, x)))
      {
        assert Before(xs, full[i], full[q]);
      }
    }
  }

  /** Values of the first part of the input win ties against values that only occur
      later: `Counter(a + b)` meets them first. */
  lemma EarlierPartWinsTies(a: seq<string>, b: seq<string>, u: string, v: string)
    requires u in a && v in b && v !in a
    ensures Count(a + b, u) == Count(a + b, v) ==>
            Before(a + b, (u, Count(a + b, u)), (v, Count(a + b, v)))
  {
    var ab := a + b;
    var ku := FirstIndex(a, u);
    FirstIndexUnique(ab, u, ku);
    assert forall m :: 0 <= m < |a| ==> ab[m] == a[m];
  }

  /** A list already ordered by count, largest first, comes back unchanged from the sort. */
  lemma {:induction false} SortOfOrdered(ps: seq<(string, nat)>)
    requires forall i, j :: 0 <= i < j < |ps| ==> ps[i].1 >= ps[j].1
    ensures SortByCount(ps) == ps
    decreases |ps|
  {
    if ps != [] {
      SortOfOrdered(ps[1..]);
      assert ps == [ps[0]] + ps[1..];
    }
  }

  /** Re-sorting the output of `most_common(n)` changes nothing. */
  lemma MostCommonIdempotent(xs: seq<string>, n: nat)
    ensures SortByCount(MostCommon(xs, n)) == MostCommon(xs, n)
  {
    MostCommonSpec(xs, n);
    SortOfOrdered(MostCommon(xs, n));
  }

  /** Position of x among the keys of ps. */
  function KeyIndex(ps: seq<(string, nat)>, x: string): (k: nat)
    requires x in Keys(ps)
    ensures k < |ps| && ps[k].0 == x
    decreases |ps|
  {
    if ps[0].0 == x then 0
    else
      assert Keys(ps) == [ps[0].0] + Keys(ps[1..]);
      1 + KeyIndex(ps[1..], x)
  }

  /** When a value of the first part and a value found only in the second part have the
      same count and the second is listed by `most_common(n)`, the first is listed too, and
      ahead of it. */
  lemma EarlierPartListedFirst(a: seq<string>, b: seq<string>, u: string, v: string, n: nat)
    requires u in a && v in b && v !in a
    requires Count(a + b, u) == Count(a + b, v)
    requires v in Keys(MostCommon(a + b, n))
    ensures u in Keys(MostCommon(a + b, n))
    ensures KeyIndex(MostCommon(a + b, n), u) < KeyIndex(MostCommon(a + b, n), v)
  {
    var ab := a + b;
    var r := MostCommon(ab, n);
    MostCommonSpec(ab, n);
    EarlierPartWinsTies(a, b, u, v);
    var jv := KeyIndex(r, v);
    assert r[jv] == (v, Count(ab, v));
    assert u in ab;
    if u !in Keys(r) {
      assert false;
    }
    var ju := KeyIndex(r, u);
    assert r[ju] == (u, Count(ab, u));
    if jv < ju {
      assert false;
    }
  }
}
