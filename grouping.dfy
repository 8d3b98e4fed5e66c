/**
 * The `defaultdict(list)` grouping loops of the file generators and the
 * tallies of `_calculate_stats`: resolvers bucketed by a code (country,
 * continent or organisation), records with an empty code left out, buckets
 * then visited in ascending code order (`sorted(by_country.items())`).
 */
module Grouping {
  import opened Records
  import opened Strings

  /** The grouping key, with the extra filter some of the loops apply. */
  datatype Dimension =
    | Country      // `if r.country_code`
    | CountryV4    // `if r.version == 4 and r.country_code`
    | CountryV6    // `if r.version == 6 and r.country_code`
    | Continent    // `if r.continent_code`
    | Organization // `if r.organization`

  function KeyOf(d: Dimension, r: Resolver): string
  {
    match d
    case Country | CountryV4 | CountryV6 => r.countryCode
    case Continent => r.continentCode
    case Organization => r.organization
  }

  predicate Admits(d: Dimension, r: Resolver)
  {
    match d
    case CountryV4 => r.version == 4
    case CountryV6 => r.version == 6
    case _ => true
  }

  /** The loop's guard: the record passes the filter and its code is truthy (non-empty). */
  predicate Grouped(d: Dimension, r: Resolver)
  {
    Admits(d, r) && KeyOf(d, r) != ""
  }

  /** The resolvers whose code is `k`, in input order. */
  function Bucket(rs: seq<Resolver>, d: Dimension, k: string): (b: seq<Resolver>)
    ensures |b| <= |rs|
  {
    if rs == [] then []
    else
      var last := rs[|rs| - 1];
      Bucket(rs[..|rs| - 1], d, k) + (if Grouped(d, last) && KeyOf(d, last) == k then [last] else [])
  }

  /** A bucket holds exactly the grouped resolvers with its code. */
  lemma {:induction false} BucketMembers(rs: seq<Resolver>, d: Dimension, k: string, r: Resolver)
    ensures r in Bucket(rs, d, k) <==> r in rs && Grouped(d, r) && KeyOf(d, r) == k
  {
    if rs != [] {
      var init := rs[..|rs| - 1];
      BucketMembers(init, d, k, r);
      assert rs == init + [rs[|rs| - 1]];
    }
  }

  /** `rs[j]` is grouped under `k` and no later resolver is. */
  ghost predicate LastWithCode(rs: seq<Resolver>, d: Dimension, k: string, j: int)
  {
    && 0 <= j < |rs| && Grouped(d, rs[j]) && KeyOf(d, rs[j]) == k
    && forall m :: j < m < |rs| ==> !(Grouped(d, rs[m]) && KeyOf(d, rs[m]) == k)
  }

  /** The last member of a bucket is the last grouped resolver with that code. */
  lemma {:induction false} BucketLast(rs: seq<Resolver>, d: Dimension, k: string)
    requires Bucket(rs, d, k) != []
    ensures var b := Bucket(rs, d, k);
      exists j :: LastWithCode(rs, d, k, j) && rs[j] == b[|b| - 1]
  {
    var init := rs[..|rs| - 1];
    var last := rs[|rs| - 1];
    var b := Bucket(rs, d, k);
    if Grouped(d, last) && KeyOf(d, last) == k {
      assert b == Bucket(init, d, k) + [last];
      assert b[|b| - 1] == last;
      assert LastWithCode(rs, d, k, |rs| - 1);
    } else {
      assert b == Bucket(init, d, k);
      BucketLast(init, d, k);
      var j :| LastWithCode(init, d, k, j) && init[j] == b[|b| - 1];
      assert rs[j] == init[j];
      assert LastWithCode(rs, d, k, j) by {
        forall m | j < m < |rs|
          ensures !(Grouped(d, rs[m]) && KeyOf(d, rs[m]) == k)
        {
          if m < |init| {
            assert rs[m] == init[m];
          }
        }
      }
    }
  }

  /** The grouped resolvers, in input order. */
  function Selected(rs: seq<Resolver>, d: Dimension): (s: seq<Resolver>)
    ensures |s| <= |rs|
  {
    if rs == [] then []
    else
      var last := rs[|rs| - 1];
      Selected(rs[..|rs| - 1], d) + (if Grouped(d, last) then [last] else [])
  }

  /**
   * The codes in first-insertion order: the key order of the defaultdict.
   * Each code appears once and has a non-empty bucket, and every grouped
   * resolver's code is among them.
   */
  function Keys(rs: seq<Resolver>, d: Dimension): (keys: seq<string>)
    ensures Distinct(keys)
    ensures forall k :: k in keys ==> k != "" && Bucket(rs, d, k) != []
    ensures forall i :: 0 <= i < |rs| && Grouped(d, rs[i]) ==> KeyOf(d, rs[i]) in keys
  {
    if rs == [] then []
    else
      var init := rs[..|rs| - 1];
      var last := rs[|rs| - 1];
      var keys := Keys(init, d);
      var k := KeyOf(d, last);
      var r := if Grouped(d, last) && k !in keys then keys + [k] else keys;
      assert forall i :: 0 <= i < |init| ==> init[i] == rs[i];
      r
  }

  /** There are no more codes than resolvers. */
  lemma {:induction false} KeysBound(rs: seq<Resolver>, d: Dimension)
    ensures |Keys(rs, d)| <= |Selected(rs, d)| <= |rs|
  {
    if rs != [] {
      KeysBound(rs[..|rs| - 1], d);
    }
  }

  /** Every grouped resolver's code is a key. */
  lemma KeyOfGrouped(rs: seq<Resolver>, d: Dimension, r: Resolver)
    requires r in rs && Grouped(d, r)
    ensures KeyOf(d, r) in Keys(rs, d)
  {
    var j :| 0 <= j < |rs| && rs[j] == r;
  }

  /** A code is a key exactly when its bucket is non-empty. */
  lemma KeysAreNonEmptyBuckets(rs: seq<Resolver>, d: Dimension, k: string)
    ensures k in Keys(rs, d) <==> k != "" && Bucket(rs, d, k) != []
  {
    if k != "" && Bucket(rs, d, k) != [] {
      var r := Bucket(rs, d, k)[0];
      BucketMembers(rs, d, k, r);
      var i :| 0 <= i < |rs| && rs[i] == r;
    }
  }

  /** `order` and `groups` are the defaultdict built from `rs`: its key order and its lists. */
  ghost predicate IsGrouping(rs: seq<Resolver>, d: Dimension, order: seq<string>, groups: map<string, seq<Resolver>>)
  {
    && order == Keys(rs, d)
    && (forall k :: k in groups <==> k in order)
    && BucketsHeld(rs, d, groups)
  }

  /** The list half of IsGrouping: every key holds its bucket. */
  ghost predicate BucketsHeld(rs: seq<Resolver>, d: Dimension, groups: map<string, seq<Resolver>>)
  {
    forall k :: k in groups ==> groups[k] == Bucket(rs, d, k)
  }

  /** Appending one resolver grows the bucket of its own code, at the end, and no other. */
  lemma BucketSnoc(rs: seq<Resolver>, d: Dimension, r: Resolver, c: string)
    ensures Bucket(rs + [r], d, c) == Bucket(rs, d, c) + (if Grouped(d, r) && KeyOf(d, r) == c then [r] else [])
  {
    assert (rs + [r])[..|rs|] == rs;
  }

  /** Appending one resolver adds its code to the key order when the code is new. */
  lemma KeysSnoc(rs: seq<Resolver>, d: Dimension, r: Resolver)
    ensures Keys(rs + [r], d) == if Grouped(d, r) && KeyOf(d, r) !in Keys(rs, d) then Keys(rs, d) + [KeyOf(d, r)] else Keys(rs, d)
  {
    assert (rs + [r])[..|rs|] == rs;
  }

  /** The lists of one more grouped resolver: it is appended to the list of its code. */
  lemma BucketsStep(rs: seq<Resolver>, d: Dimension, groups: map<string, seq<Resolver>>, r: Resolver)
    requires BucketsHeld(rs, d, groups) && Grouped(d, r)
    requires KeyOf(d, r) !in groups ==> Bucket(rs, d, KeyOf(d, r)) == []
    ensures var k := KeyOf(d, r);
      BucketsHeld(rs + [r], d, groups[k := (if k in groups then groups[k] else []) + [r]])
  {
    var k := KeyOf(d, r);
    var groups' := groups[k := (if k in groups then groups[k] else []) + [r]];
    forall c | c in groups'
      ensures groups'[c] == Bucket(rs + [r], d, c)
    {
      BucketSnoc(rs, d, r, c);
    }
  }

  /** A resolver outside the guard leaves the grouping as it is. */
  lemma GroupSkipped(rs: seq<Resolver>, d: Dimension, order: seq<string>, groups: map<string, seq<Resolver>>, r: Resolver)
    requires IsGrouping(rs, d, order, groups) && !Grouped(d, r)
    ensures IsGrouping(rs + [r], d, order, groups)
  {
    KeysSnoc(rs, d, r);
    assert BucketsHeld(rs + [r], d, groups) by {
      forall c | c in groups
        ensures groups[c] == Bucket(rs + [r], d, c)
      {
        BucketSnoc(rs, d, r, c);
      }
    }
  }

  /** A code seen for the first time: appended to the key order, with a list of its own. */
  lemma GroupAdded(rs: seq<Resolver>, d: Dimension, order: seq<string>, groups: map<string, seq<Resolver>>, r: Resolver)
    requires IsGrouping(rs, d, order, groups) && Grouped(d, r) && KeyOf(d, r) !in groups
    ensures IsGrouping(rs + [r], d, order + [KeyOf(d, r)], groups[KeyOf(d, r) := [r]])
  {
    var k := KeyOf(d, r);
    assert k !in order;
    KeysSnoc(rs, d, r);
    assert Keys(rs + [r], d) == order + [k];
    KeysAreNonEmptyBuckets(rs, d, k);
    BucketsStep(rs, d, groups, r);
    assert [] + [r] == [r];
    assert forall c :: c in groups[k := [r]] <==> c in order + [k];
  }

  /** A known code: the resolver is appended to its list. */
  lemma GroupAppended(rs: seq<Resolver>, d: Dimension, order: seq<string>, groups: map<string, seq<Resolver>>, r: Resolver)
    requires IsGrouping(rs, d, order, groups) && Grouped(d, r) && KeyOf(d, r) in groups
    ensures IsGrouping(rs + [r], d, order, groups[KeyOf(d, r) := groups[KeyOf(d, r)] + [r]])
  {
    KeysSnoc(rs, d, r);
    BucketsStep(rs, d, groups, r);
  }

  /**
   * The grouping loop: for each resolver passing the guard, append it to the
   * list of its code, creating the list on first sight of the code.
   */
  method GroupBy(rs: seq<Resolver>, d: Dimension) returns (order: seq<string>, groups: map<string, seq<Resolver>>)
    ensures order == Keys(rs, d)
    ensures forall k :: k in groups <==> k in order
    ensures forall k :: k in groups ==> groups[k] == Bucket(rs, d, k)
  {
    order, groups := [], map[];
    for i := 0 to |rs|
      invariant IsGrouping(rs[..i], d, order, groups)
    {
      var r := rs[i];
      assert rs[..i + 1] == rs[..i] + [r];
      if Admits(d, r) && KeyOf(d, r) != "" {
        var k := KeyOf(d, r);
        if k !in groups {
          GroupAdded(rs[..i], d, order, groups, r);
          order := order + [k];
          groups := groups[k := [r]];
        } else {
          GroupAppended(rs[..i], d, order, groups, r);
          groups := groups[k := groups[k] + [r]];
        }
      } else {
        GroupSkipped(rs[..i], d, order, groups, r);
      }
    }
    assert rs[..|rs|] == rs;
  }

  // ---------------------------------------------------------------------------
  // sorted(by_code.items())
  // ---------------------------------------------------------------------------

  /** The (code, bucket) pairs for the given codes, in the given order. */
  function GroupsOver(rs: seq<Resolver>, d: Dimension, codes: seq<string>): (parts: seq<(string, seq<Resolver>)>)
    ensures |parts| == |codes|
    ensures forall i :: 0 <= i < |codes| ==> parts[i] == (codes[i], Bucket(rs, d, codes[i]))
  {
    if codes == [] then []
    else GroupsOver(rs, d, codes[..|codes| - 1]) + [(codes[|codes| - 1], Bucket(rs, d, codes[|codes| - 1]))]
  }

  /** The buckets of a dimension in ascending code order. */
  function Groups(rs: seq<Resolver>, d: Dimension): seq<(string, seq<Resolver>)>
  {
    GroupsOver(rs, d, SortedSet(Keys(rs, d)))
  }

  /**
   * Builds the grouping, then visits it as `for code, group in
   * sorted(by_code.items())` does.
   */
  method Partition(rs: seq<Resolver>, d: Dimension) returns (parts: seq<(string, seq<Resolver>)>)
    ensures parts == Groups(rs, d)
  {
    var order, groups := GroupBy(rs, d);
    var codes := SortedSet(order);
    parts := [];
    for i := 0 to |codes|
      invariant parts == GroupsOver(rs, d, codes[..i])
    {
      assert codes[..i + 1][..i] == codes[..i];
      parts := parts + [(codes[i], groups[codes[i]])];
    }
    assert codes[..|codes|] == codes;
  }

  /**
   * The shape of a partition: codes strictly ascending; each bucket non-empty
   * and holding exactly the grouped resolvers with its code, in input order;
   * every grouped resolver's code present.
   */
  lemma GroupsShape(rs: seq<Resolver>, d: Dimension)
    ensures var parts := Groups(rs, d);
      && StrictlyIncreasing(seq(|parts|, i requires 0 <= i < |parts| => parts[i].0))
      && (forall i :: 0 <= i < |parts| ==>
            parts[i].0 != "" && parts[i].1 == Bucket(rs, d, parts[i].0) && parts[i].1 != [])
      && (forall r :: r in rs && Grouped(d, r) ==>
            exists i :: 0 <= i < |parts| && parts[i].0 == KeyOf(d, r))
  {
    var codes := SortedSet(Keys(rs, d));
    var parts := Groups(rs, d);
    assert seq(|parts|, i requires 0 <= i < |parts| => parts[i].0) == codes;
    forall r | r in rs && Grouped(d, r)
      ensures exists i :: 0 <= i < |parts| && parts[i].0 == KeyOf(d, r)
    {
      var j :| 0 <= j < |rs| && rs[j] == r;
      var i :| 0 <= i < |codes| && codes[i] == KeyOf(d, r);
      assert parts[i].0 == KeyOf(d, r);
    }
  }

  // ---------------------------------------------------------------------------
  // Conservation: the buckets together hold every grouped resolver once.
  // ---------------------------------------------------------------------------

  /** The number of grouped resolvers whose code lies in `codes`. */
  function CountIn(rs: seq<Resolver>, d: Dimension, codes: set<string>): nat
  {
    if rs == [] then 0
    else
      var last := rs[|rs| - 1];
      CountIn(rs[..|rs| - 1], d, codes) + (if Grouped(d, last) && KeyOf(d, last) in codes then 1 else 0)
  }

  /** The total number of resolvers in a list of buckets. */
  function Total(parts: seq<(string, seq<Resolver>)>): nat
  {
    if parts == [] then 0 else Total(parts[..|parts| - 1]) + |parts[|parts| - 1].1|
  }

  lemma {:induction false} CountInNoCodes(rs: seq<Resolver>, d: Dimension)
    ensures CountIn(rs, d, {}) == 0
  {
    if rs != [] {
      CountInNoCodes(rs[..|rs| - 1], d);
    }
  }

  lemma {:induction false} CountInAddCode(rs: seq<Resolver>, d: Dimension, codes: set<string>, k: string)
    requires k !in codes
    ensures CountIn(rs, d, codes + {k}) == CountIn(rs, d, codes) + |Bucket(rs, d, k)|
  {
    if rs != [] {
      CountInAddCode(rs[..|rs| - 1], d, codes, k);
    }
  }

  lemma {:induction false} CountInAllCodes(rs: seq<Resolver>, d: Dimension, codes: set<string>)
    requires forall i :: 0 <= i < |rs| && Grouped(d, rs[i]) ==> KeyOf(d, rs[i]) in codes
    ensures CountIn(rs, d, codes) == |Selected(rs, d)|
  {
    if rs != [] {
      var init := rs[..|rs| - 1];
      assert forall i :: 0 <= i < |init| ==> init[i] == rs[i];
      CountInAllCodes(init, d, codes);
    }
  }

  /** The codes of a sequence as a set. */
  function CodeSet(codes: seq<string>): set<string>
  {
    set k | k in codes
  }

  lemma TotalSnoc(parts: seq<(string, seq<Resolver>)>, p: (string, seq<Resolver>))
    ensures Total(parts + [p]) == Total(parts) + |p.1|
  {
    assert (parts + [p])[..|parts|] == parts;
  }

  /** The elements of the last position are not among the earlier ones. */
  lemma LastNotInInit(codes: seq<string>)
    requires Distinct(codes) && codes != []
    ensures codes[|codes| - 1] !in codes[..|codes| - 1]
    ensures Distinct(codes[..|codes| - 1])
    ensures CodeSet(codes) == CodeSet(codes[..|codes| - 1]) + {codes[|codes| - 1]}
  {
    var init := codes[..|codes| - 1];
    forall j | 0 <= j < |init|
      ensures init[j] != codes[|codes| - 1]
    {
      assert init[j] == codes[j];
    }
    assert codes == init + [codes[|codes| - 1]];
  }

  lemma {:induction false} TotalOverCodes(rs: seq<Resolver>, d: Dimension, codes: seq<string>)
    requires Distinct(codes)
    ensures Total(GroupsOver(rs, d, codes)) == CountIn(rs, d, CodeSet(codes))
  {
    if codes != [] {
      var init := codes[..|codes| - 1];
      var last := codes[|codes| - 1];
      LastNotInInit(codes);
      TotalSnoc(GroupsOver(rs, d, init), (last, Bucket(rs, d, last)));
      TotalOverCodes(rs, d, init);
      CountInAddCode(rs, d, CodeSet(init), last);
    } else {
      assert CodeSet(codes) == {};
      CountInNoCodes(rs, d);
    }
  }

  /**
   * The buckets together hold exactly as many resolvers as pass the guard:
   * no grouped resolver is lost or counted twice, and none outside the guard
   * is counted. That number is at most the number of resolvers.
   */
  lemma GroupsConserve(rs: seq<Resolver>, d: Dimension)
    ensures Total(Groups(rs, d)) == |Selected(rs, d)| <= |rs|
  {
    var keys := Keys(rs, d);
    var codes := SortedSet(keys);
    IncreasingIsDistinct(codes);
    TotalOverCodes(rs, d, codes);
    assert CodeSet(codes) == CodeSet(keys);
    CountInAllCodes(rs, d, CodeSet(keys));
  }
}
