/**
 * `sorted(d.items(), key=lambda x: -x[1])` on a counting dict: the items in
 * non-increasing order of count. Python's sort is stable, so items with equal
 * counts keep the dict's (first-insertion) order.
 */
module Ranking {

  /** A `(key, count)` item of a counting dict. */
  type Item = (string, nat)

  ghost predicate NonIncreasing(s: seq<Item>)
  {
    forall i, j :: 0 <= i < j < |s| ==> s[i].1 >= s[j].1
  }

  /** The items whose count is `c`, in their order: the run of ties at `c`. */
  function WithCount(s: seq<Item>, c: nat): seq<Item>
  {
    if s == [] then []
    else (if s[0].1 == c then [s[0]] else []) + WithCount(s[1..], c)
  }

  /** The counts added up. */
  function Sum(s: seq<Item>): nat
  {
    if s == [] then 0 else s[0].1 + Sum(s[1..])
  }

  lemma PrependNonIncreasing(a: Item, t: seq<Item>)
    requires NonIncreasing(t)
    requires forall y :: y in t ==> y.1 <= a.1
    ensures NonIncreasing([a] + t)
  {
    var s := [a] + t;
    forall i, j | 0 <= i < j < |s|
      ensures s[i].1 >= s[j].1
    {
      assert s[j] == t[j - 1];
      if i > 0 {
        assert s[i] == t[i - 1];
      }
    }
  }

  lemma TailNonIncreasing(t: seq<Item>)
    requires NonIncreasing(t) && t != []
    ensures NonIncreasing(t[1..])
  {
    forall i, j | 0 <= i < j < |t[1..]|
      ensures t[1..][i].1 >= t[1..][j].1
    {
      assert t[1..][i] == t[i + 1] && t[1..][j] == t[j + 1];
    }
  }

  /** In a non-increasing sequence, nothing outranks the head. */
  lemma BelowHead(t: seq<Item>, c: nat)
    requires NonIncreasing(t) && (t != [] ==> t[0].1 <= c)
    ensures forall y :: y in t ==> y.1 <= c
  {
    forall y | y in t
      ensures y.1 <= c
    {
      var j :| 0 <= j < |t| && t[j] == y;
      assert t[0].1 >= t[j].1;
    }
  }

  /** The tail of a non-increasing sequence, plus an item ranked below its head, stays below the head. */
  lemma TailBelowHead(t: seq<Item>, x: Item, rest: seq<Item>)
    requires NonIncreasing(t) && t != [] && x.1 < t[0].1
    requires multiset(rest) == multiset(t[1..]) + multiset{x}
    ensures forall y :: y in rest ==> y.1 <= t[0].1
  {
    forall y | y in rest
      ensures y.1 <= t[0].1
    {
      assert y in multiset(rest);
      if y != x {
        assert y in multiset(t[1..]);
        var j :| 0 <= j < |t[1..]| && t[1..][j] == y;
        assert t[j + 1] == y;
      }
    }
  }

  /** Places `x` in front of the first item whose count does not exceed its own. */
  function Insert(x: Item, t: seq<Item>): (r: seq<Item>)
    requires NonIncreasing(t)
    ensures NonIncreasing(r)
    ensures multiset(r) == multiset(t) + multiset{x}
  {
    if t == [] || t[0].1 <= x.1 then
      BelowHead(t, x.1);
      PrependNonIncreasing(x, t);
      [x] + t
    else
      TailNonIncreasing(t);
      var rest := Insert(x, t[1..]);
      TailBelowHead(t, x, rest);
      PrependNonIncreasing(t[0], rest);
      assert t == [t[0]] + t[1..];
      [t[0]] + rest
  }

  /**
   * The stable descending sort: each item in turn is placed in front of the
   * later items it does not rank below, so ties keep their input order.
   */
  function SortByCountDesc(s: seq<Item>): (r: seq<Item>)
    ensures NonIncreasing(r)
    ensures multiset(r) == multiset(s)
    ensures |r| == |s|
  {
    if s == [] then []
    else
      var r := Insert(s[0], SortByCountDesc(s[1..]));
      assert s == [s[0]] + s[1..];
      assert |r| == |multiset(r)|;
      r
  }

  lemma WithCountCons(a: Item, s: seq<Item>, c: nat)
    ensures WithCount([a] + s, c) == (if a.1 == c then [a] else []) + WithCount(s, c)
  {
    assert ([a] + s)[1..] == s;
  }

  /** Inserting an item only adds it to its own run of ties, at the front. */
  lemma {:induction false} InsertWithCount(x: Item, t: seq<Item>, c: nat)
    requires NonIncreasing(t)
    ensures WithCount(Insert(x, t), c) == (if x.1 == c then [x] else []) + WithCount(t, c)
  {
    if t == [] || t[0].1 <= x.1 {
      WithCountCons(x, t, c);
    } else {
      TailNonIncreasing(t);
      var r := Insert(x, t[1..]);
      assert Insert(x, t) == [t[0]] + r;
      WithCountCons(t[0], r, c);
      assert t == [t[0]] + t[1..];
      WithCountCons(t[0], t[1..], c);
      InsertWithCount(x, t[1..], c);
      if t[0].1 == c {
        assert x.1 != c;
      }
    }
  }

  /** Stability: sorting leaves every run of ties in its input order. */
  lemma {:induction false} SortIsStable(s: seq<Item>, c: nat)
    ensures WithCount(SortByCountDesc(s), c) == WithCount(s, c)
  {
    if s != [] {
      SortIsStable(s[1..], c);
      InsertWithCount(s[0], SortByCountDesc(s[1..]), c);
    }
  }

  lemma {:induction false} InsertSum(x: Item, t: seq<Item>)
    requires NonIncreasing(t)
    ensures Sum(Insert(x, t)) == x.1 + Sum(t)
  {
    if t == [] || t[0].1 <= x.1 {
      assert ([x] + t)[1..] == t;
    } else {
      TailNonIncreasing(t);
      var r := Insert(x, t[1..]);
      assert ([t[0]] + r)[1..] == r;
      InsertSum(x, t[1..]);
    }
  }

  /** Sorting keeps the total of the counts. */
  lemma {:induction false} SortKeepsSum(s: seq<Item>)
    ensures Sum(SortByCountDesc(s)) == Sum(s)
  {
    if s != [] {
      SortKeepsSum(s[1..]);
      InsertSum(s[0], SortByCountDesc(s[1..]));
    }
  }
}
