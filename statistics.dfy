/**
 * `_calculate_stats`: totals, feature counts, the per-continent tallies in
 * code order, the countries ranked by number of resolvers and the twenty
 * largest organisations.
 */
module Statistics {
  import opened Wrappers
  import opened Records
  import opened Strings
  import opened Grouping
  import opened Ranking

  const UPDATE_FREQUENCY: string := "twice daily"
  const DATA_SOURCE: string := "https://dnsdirectory.com"
  /** How many organisations `top_organizations` keeps. */
  const TOP_ORGANIZATIONS: nat := 20

  /** A `{"name": ..., "count": ...}` entry. */
  datatype Tally = Tally(name: string, count: nat)

  datatype Totals = Totals(
    servers: nat,
    serversIpv4: nat,
    serversIpv6: nat,
    countries: nat,
    continents: nat,
    organizations: nat
  )

  datatype Feature =
    | Online | Trusted | DnssecAware | DnssecValidating
    | AdBlocking | MalwareBlocking | AdultBlocking | Anycast | HighUptime30d

  datatype Features = Features(
    online: nat,
    trusted: nat,
    dnssecAware: nat,
    dnssecValidating: nat,
    adBlocking: nat,
    malwareBlocking: nat,
    adultBlocking: nat,
    anycast: nat,
    highUptime30d: nat
  )

  /** The statistics document; each dict is the sequence of its entries in key order. */
  datatype Stats = Stats(
    lastUpdated: string,
    updateFrequency: string,
    dataSource: string,
    totals: Totals,
    byFeature: Features,
    byContinent: seq<(string, Tally)>,
    byCountry: seq<(string, Tally)>,
    topOrganizations: seq<Tally>
  )

  // ---------------------------------------------------------------------------
  // Counting comprehensions
  // ---------------------------------------------------------------------------

  /**
   * The filter of each `by_feature` comprehension. Every resolver counts as
   * online: only online servers are kept by the fetch.
   */
  predicate Has(r: Resolver, f: Feature, threshold: real)
  {
    match f
    case Online => true
    case Trusted => r.trusted
    case DnssecAware => r.dnssecAware
    case DnssecValidating => r.dnssecValidating
    case AdBlocking => r.adBlocking
    case MalwareBlocking => r.malwareBlocking
    case AdultBlocking => r.adultBlocking
    case Anycast => r.anycast
    case HighUptime30d => r.uptime30d >= threshold
  }

  /** `len([r for r in resolvers if <f>])` */
  function CountWith(rs: seq<Resolver>, f: Feature, threshold: real): (n: nat)
    ensures n <= |rs|
  {
    if rs == [] then 0
    else CountWith(rs[..|rs| - 1], f, threshold) + (if Has(rs[|rs| - 1], f, threshold) then 1 else 0)
  }

  /** `len([r for r in resolvers if r.version == v])` */
  function CountVersion(rs: seq<Resolver>, v: int): (n: nat)
    ensures n <= |rs|
  {
    if rs == [] then 0
    else CountVersion(rs[..|rs| - 1], v) + (if rs[|rs| - 1].version == v then 1 else 0)
  }

  function FeaturesOf(rs: seq<Resolver>, threshold: real): Features
  {
    Features(
      CountWith(rs, Online, threshold),
      CountWith(rs, Trusted, threshold),
      CountWith(rs, DnssecAware, threshold),
      CountWith(rs, DnssecValidating, threshold),
      CountWith(rs, AdBlocking, threshold),
      CountWith(rs, MalwareBlocking, threshold),
      CountWith(rs, AdultBlocking, threshold),
      CountWith(rs, Anycast, threshold),
      CountWith(rs, HighUptime30d, threshold))
  }

  // ---------------------------------------------------------------------------
  // The tallies as dict items
  // ---------------------------------------------------------------------------

  /** `counts.items()` of a counting defaultdict whose keys are `codes`. */
  function Counts(rs: seq<Resolver>, d: Dimension, codes: seq<string>): (items: seq<Item>)
    ensures |items| == |codes|
  {
    seq(|codes|, i requires 0 <= i < |codes| => (codes[i], |Bucket(rs, d, codes[i])|))
  }

  /**
   * `next((r for r in resolvers if r.country_code == code), None)`: the first
   * resolver with the code, if any.
   */
  function FirstWithCode(rs: seq<Resolver>, code: string): Option<Resolver>
  {
    if rs == [] then None
    else if rs[0].countryCode == code then Some(rs[0])
    else FirstWithCode(rs[1..], code)
  }

  /** `rs[j]` is the first resolver whose country code is `code`. */
  ghost predicate FirstAt(rs: seq<Resolver>, code: string, j: int)
  {
    0 <= j < |rs| && rs[j].countryCode == code && forall m :: 0 <= m < j ==> rs[m].countryCode != code
  }

  /** `next` finds a resolver exactly when one has the code, and then the first one. */
  lemma {:induction false} FirstWithCodeFinds(rs: seq<Resolver>, code: string)
    ensures FirstWithCode(rs, code).None? <==> forall i :: 0 <= i < |rs| ==> rs[i].countryCode != code
    ensures FirstWithCode(rs, code).Some? ==> exists j :: FirstAt(rs, code, j) && rs[j] == FirstWithCode(rs, code).value
  {
    if rs != [] && rs[0].countryCode != code {
      var tail := rs[1..];
      FirstWithCodeFinds(tail, code);
      assert forall i :: 0 < i < |rs| ==> rs[i] == tail[i - 1];
      if FirstWithCode(tail, code).Some? {
        var j :| FirstAt(tail, code, j) && tail[j] == FirstWithCode(tail, code).value;
        assert FirstAt(rs, code, j + 1);
      }
    } else if rs != [] {
      assert FirstAt(rs, code, 0);
    }
  }

  /** The `top_countries` loop: an entry per ranked code that has a first resolver. */
  function CountryEntries(rs: seq<Resolver>, ranked: seq<Item>): seq<(string, Tally)>
  {
    if ranked == [] then []
    else
      var prev := CountryEntries(rs, ranked[..|ranked| - 1]);
      var item := ranked[|ranked| - 1];
      match FirstWithCode(rs, item.0)
      case None => prev
      case Some(r) => prev + [(item.0, Tally(r.country, item.1))]
  }

  /** A continent's entry: the name written by its last resolver, and its count. */
  function ContinentEntry(rs: seq<Resolver>, code: string): (string, Tally)
  {
    var b := Bucket(rs, Continent, code);
    (code, Tally(if b == [] then "" else b[|b| - 1].continent, |b|))
  }

  function ContinentEntries(rs: seq<Resolver>, codes: seq<string>): (entries: seq<(string, Tally)>)
    ensures |entries| == |codes|
  {
    seq(|codes|, i requires 0 <= i < |codes| => ContinentEntry(rs, codes[i]))
  }

  /** `[{"name": name, "count": count} for name, count in items]` */
  function OrganizationEntries(items: seq<Item>): (top: seq<Tally>)
    ensures |top| == |items|
  {
    seq(|items|, i requires 0 <= i < |items| => Tally(items[i].0, items[i].1))
  }

  /** `items[:n]` */
  function Take(items: seq<Item>, n: nat): seq<Item>
  {
    items[..if n < |items| then n else |items|]
  }

  /** `sorted(countries.items(), key=lambda x: -x[1])` */
  function RankedCountries(rs: seq<Resolver>): seq<Item>
  {
    SortByCountDesc(Counts(rs, Country, Keys(rs, Country)))
  }

  /** `sorted(organizations.items(), key=lambda x: -x[1])` */
  function RankedOrganizations(rs: seq<Resolver>): seq<Item>
  {
    SortByCountDesc(Counts(rs, Organization, Keys(rs, Organization)))
  }

  /** `totals`: servers, IPv4 and IPv6 servers, and the sizes of the three tallies. */
  function TotalsOf(rs: seq<Resolver>): Totals
  {
    Totals(|rs|, CountVersion(rs, 4), CountVersion(rs, 6),
           |Keys(rs, Country)|, |Keys(rs, Continent)|, |Keys(rs, Organization)|)
  }

  /** `by_continent`: the continent entries in ascending code order. */
  function ByContinentOf(rs: seq<Resolver>): seq<(string, Tally)>
  {
    ContinentEntries(rs, SortedSet(Keys(rs, Continent)))
  }

  /** `by_country`: the `top_countries` dict. */
  function ByCountryOf(rs: seq<Resolver>): seq<(string, Tally)>
  {
    CountryEntries(rs, RankedCountries(rs))
  }

  /** `top_organizations` */
  function TopOrganizationsOf(rs: seq<Resolver>): seq<Tally>
  {
    OrganizationEntries(Take(RankedOrganizations(rs), TOP_ORGANIZATIONS))
  }

  /** What `_calculate_stats` returns for the resolvers, the uptime threshold and the run's timestamp. */
  function StatsOf(rs: seq<Resolver>, threshold: real, timestamp: string): Stats
  {
    Stats(timestamp, UPDATE_FREQUENCY, DATA_SOURCE, TotalsOf(rs), FeaturesOf(rs, threshold),
          ByContinentOf(rs), ByCountryOf(rs), TopOrganizationsOf(rs))
  }

  // ---------------------------------------------------------------------------
  // The single pass over the resolvers
  // ---------------------------------------------------------------------------

  /** A counting defaultdict after a prefix `rs`: its key order and its counts. */
  ghost predicate Counted(rs: seq<Resolver>, d: Dimension, order: seq<string>, counts: map<string, nat>)
  {
    && order == Keys(rs, d)
    && (forall k :: k in counts <==> k in order)
    && CountsHeld(rs, d, counts)
  }

  /** The count half of Counted: every key counts its bucket. */
  ghost predicate CountsHeld(rs: seq<Resolver>, d: Dimension, counts: map<string, nat>)
  {
    forall k :: k in counts ==> counts[k] == |Bucket(rs, d, k)|
  }

  /** The continents defaultdict after a prefix `rs`: its key order and its entries. */
  ghost predicate ContinentsTallied(rs: seq<Resolver>, order: seq<string>, continents: map<string, Tally>)
  {
    && order == Keys(rs, Continent)
    && (forall k :: k in continents <==> k in order)
    && EntriesTallied(rs, continents)
  }

  /** The counts of one more grouped resolver: its code's count grows by one. */
  lemma CountsStep(rs: seq<Resolver>, d: Dimension, counts: map<string, nat>, r: Resolver)
    requires CountsHeld(rs, d, counts) && Grouped(d, r)
    requires KeyOf(d, r) !in counts ==> Bucket(rs, d, KeyOf(d, r)) == []
    ensures var k := KeyOf(d, r);
      CountsHeld(rs + [r], d, counts[k := (if k in counts then counts[k] else 0) + 1])
  {
    var k := KeyOf(d, r);
    var counts' := counts[k := (if k in counts then counts[k] else 0) + 1];
    forall c | c in counts'
      ensures counts'[c] == |Bucket(rs + [r], d, c)|
    {
      BucketSnoc(rs, d, r, c);
    }
  }

  /** A resolver outside the guard leaves a counting defaultdict as it is. */
  lemma CountSkipped(rs: seq<Resolver>, d: Dimension, order: seq<string>, counts: map<string, nat>, r: Resolver)
    requires Counted(rs, d, order, counts) && !Grouped(d, r)
    ensures Counted(rs + [r], d, order, counts)
  {
    KeysSnoc(rs, d, r);
    assert CountsHeld(rs + [r], d, counts) by {
      forall c | c in counts
        ensures counts[c] == |Bucket(rs + [r], d, c)|
      {
        BucketSnoc(rs, d, r, c);
      }
    }
  }

  /** `counts[code] += 1` for a code not seen before: the key is appended with count 1. */
  lemma CountAdded(rs: seq<Resolver>, d: Dimension, order: seq<string>, counts: map<string, nat>, r: Resolver)
    requires Counted(rs, d, order, counts) && Grouped(d, r) && KeyOf(d, r) !in counts
    ensures Counted(rs + [r], d, order + [KeyOf(d, r)], counts[KeyOf(d, r) := 1])
  {
    var k := KeyOf(d, r);
    assert k !in order;
    KeysSnoc(rs, d, r);
    assert Keys(rs + [r], d) == order + [k];
    KeysAreNonEmptyBuckets(rs, d, k);
    CountsStep(rs, d, counts, r);
    assert forall c :: c in counts[k := 1] <==> c in order + [k];
  }

  /** `counts[code] += 1` for a known code: only its count grows. */
  lemma CountIncremented(rs: seq<Resolver>, d: Dimension, order: seq<string>, counts: map<string, nat>, r: Resolver)
    requires Counted(rs, d, order, counts) && Grouped(d, r) && KeyOf(d, r) in counts
    ensures Counted(rs + [r], d, order, counts[KeyOf(d, r) := counts[KeyOf(d, r)] + 1])
  {
    KeysSnoc(rs, d, r);
    CountsStep(rs, d, counts, r);
  }

  /**
   * One more resolver changes only the entry of its own continent code: the
   * name becomes its continent and the count grows by one.
   */
  lemma ContinentEntrySnoc(rs: seq<Resolver>, r: Resolver, c: string)
    ensures ContinentEntry(rs + [r], c) ==
      if r.continentCode != "" && r.continentCode == c then (c, Tally(r.continent, ContinentEntry(rs, c).1.count + 1))
      else ContinentEntry(rs, c)
  {
    BucketSnoc(rs, Continent, r, c);
  }

  /** The entry half of ContinentsTallied: every tallied code carries its entry. */
  ghost predicate EntriesTallied(rs: seq<Resolver>, continents: map<string, Tally>)
  {
    forall k :: k in continents ==> (k, continents[k]) == ContinentEntry(rs, k)
  }

  /** The tally of one more resolver: its code's entry takes its name and one more count. */
  lemma EntriesStep(rs: seq<Resolver>, continents: map<string, Tally>, r: Resolver)
    requires EntriesTallied(rs, continents)
    requires r.continentCode != ""
    requires r.continentCode !in continents ==> Bucket(rs, Continent, r.continentCode) == []
    ensures var k := r.continentCode;
      EntriesTallied(rs + [r], continents[k := Tally(r.continent, if k in continents then continents[k].count + 1 else 1)])
  {
    var k := r.continentCode;
    var continents' := continents[k := Tally(r.continent, if k in continents then continents[k].count + 1 else 1)];
    forall c | c in continents'
      ensures (c, continents'[c]) == ContinentEntry(rs + [r], c)
    {
      ContinentEntrySnoc(rs, r, c);
    }
  }

  /** A resolver without a continent code leaves the continents as they are. */
  lemma ContinentSkipped(rs: seq<Resolver>, order: seq<string>, continents: map<string, Tally>, r: Resolver)
    requires ContinentsTallied(rs, order, continents) && r.continentCode == ""
    ensures ContinentsTallied(rs + [r], order, continents)
  {
    KeysSnoc(rs, Continent, r);
    assert EntriesTallied(rs + [r], continents) by {
      forall c | c in continents
        ensures (c, continents[c]) == ContinentEntry(rs + [r], c)
      {
        ContinentEntrySnoc(rs, r, c);
      }
    }
  }

  /** A continent code not seen before: the entry starts with this resolver's name and count 1. */
  lemma ContinentAdded(rs: seq<Resolver>, order: seq<string>, continents: map<string, Tally>, r: Resolver)
    requires ContinentsTallied(rs, order, continents) && r.continentCode != "" && r.continentCode !in continents
    ensures ContinentsTallied(rs + [r], order + [r.continentCode], continents[r.continentCode := Tally(r.continent, 1)])
  {
    var k := r.continentCode;
    assert k !in order;
    KeysSnoc(rs, Continent, r);
    assert Keys(rs + [r], Continent) == order + [k];
    KeysAreNonEmptyBuckets(rs, Continent, k);
    EntriesStep(rs, continents, r);
    assert forall c :: c in continents[k := Tally(r.continent, 1)] <==> c in order + [k];
  }

  /** A known continent code: the name is overwritten and the count grows. */
  lemma ContinentUpdated(rs: seq<Resolver>, order: seq<string>, continents: map<string, Tally>, r: Resolver)
    requires ContinentsTallied(rs, order, continents) && r.continentCode != "" && r.continentCode in continents
    ensures ContinentsTallied(rs + [r], order,
              continents[r.continentCode := Tally(r.continent, continents[r.continentCode].count + 1)])
  {
    KeysSnoc(rs, Continent, r);
    EntriesStep(rs, continents, r);
  }

  /** `counts[code] += 1` when the resolver passes the guard: the dict of one more resolver. */
  method Count(ghost rs: seq<Resolver>, d: Dimension, order: seq<string>, counts: map<string, nat>, r: Resolver)
    returns (order': seq<string>, counts': map<string, nat>)
    requires Counted(rs, d, order, counts)
    ensures Counted(rs + [r], d, order', counts')
  {
    order', counts' := order, counts;
    if Admits(d, r) && KeyOf(d, r) != "" {
      var k := KeyOf(d, r);
      if k !in counts {
        CountAdded(rs, d, order, counts, r);
        order', counts' := order + [k], counts[k := 1];
      } else {
        CountIncremented(rs, d, order, counts, r);
        counts' := counts[k := counts[k] + 1];
      }
    } else {
      CountSkipped(rs, d, order, counts, r);
    }
  }

  /**
   * `continents[code]["name"] = r.continent; continents[code]["count"] += 1`
   * when the resolver has a continent code: the dict of one more resolver.
   */
  method CountContinent(ghost rs: seq<Resolver>, order: seq<string>, continents: map<string, Tally>, r: Resolver)
    returns (order': seq<string>, continents': map<string, Tally>)
    requires ContinentsTallied(rs, order, continents)
    ensures ContinentsTallied(rs + [r], order', continents')
  {
    order', continents' := order, continents;
    if r.continentCode != "" {
      var k := r.continentCode;
      if k !in continents {
        ContinentAdded(rs, order, continents, r);
        order', continents' := order + [k], continents[k := Tally(r.continent, 1)];
      } else {
        ContinentUpdated(rs, order, continents, r);
        continents' := continents[k := Tally(r.continent, continents[k].count + 1)];
      }
    } else {
      ContinentSkipped(rs, order, continents, r);
    }
  }

  /**
   * The `for r in resolvers` loop of `_calculate_stats`: one pass filling the
   * three defaultdicts (insertion order and contents).
   */
  method TallyResolvers(rs: seq<Resolver>)
    returns (countryOrder: seq<string>, countries: map<string, nat>,
             continentOrder: seq<string>, continents: map<string, Tally>,
             organizationOrder: seq<string>, organizations: map<string, nat>)
    ensures Counted(rs, Country, countryOrder, countries)
    ensures ContinentsTallied(rs, continentOrder, continents)
    ensures Counted(rs, Organization, organizationOrder, organizations)
  {
    countryOrder, countries := [], map[];
    continentOrder, continents := [], map[];
    organizationOrder, organizations := [], map[];
    for i := 0 to |rs|
      invariant Counted(rs[..i], Country, countryOrder, countries)
      invariant ContinentsTallied(rs[..i], continentOrder, continents)
      invariant Counted(rs[..i], Organization, organizationOrder, organizations)
    {
      var r := rs[i];
      assert rs[..i + 1] == rs[..i] + [r];
      countryOrder, countries := Count(rs[..i], Country, countryOrder, countries, r);
      continentOrder, continents := CountContinent(rs[..i], continentOrder, continents, r);
      organizationOrder, organizations := Count(rs[..i], Organization, organizationOrder, organizations, r);
    }
    assert rs[..|rs|] == rs;
  }

  /** A dict's size is the length of its key order. */
  lemma DictSize<V>(order: seq<string>, m: map<string, V>)
    requires Distinct(order)
    requires forall k :: k in m <==> k in order
    ensures |m| == |order|
  {
    DistinctCardinality(order);
    assert m.Keys == set k | k in order;
  }

  /** `counts.items()` of a counting dict is the list of its keys with their bucket sizes. */
  lemma ItemsAreCounts(rs: seq<Resolver>, d: Dimension, order: seq<string>, counts: map<string, nat>)
    requires Counted(rs, d, order, counts)
    ensures |counts| == |order|
    ensures seq(|order|, i requires 0 <= i < |order| => (order[i], counts[order[i]])) == Counts(rs, d, Keys(rs, d))
  {
    DictSize(order, counts);
  }

  /** `sorted(continents.items())`: the entries in ascending code order. */
  lemma ContinentItems(rs: seq<Resolver>, order: seq<string>, continents: map<string, Tally>)
    requires ContinentsTallied(rs, order, continents)
    ensures |continents| == |order|
    ensures forall k :: k in SortedSet(order) ==> k in continents
    ensures var codes := SortedSet(order);
      seq(|codes|, i requires 0 <= i < |codes| => (codes[i], continents[codes[i]])) == ContinentEntries(rs, codes)
  {
    DictSize(order, continents);
    var codes := SortedSet(order);
    assert forall k :: k in codes ==> k in continents;
    var entries := seq(|codes|, i requires 0 <= i < |codes| => (codes[i], continents[codes[i]]));
    forall i | 0 <= i < |codes|
      ensures entries[i] == ContinentEntries(rs, codes)[i]
    {
      var k := codes[i];
      assert (k, continents[k]) == ContinentEntry(rs, k);
    }
  }

  /** The `top_countries` loop: look up each ranked code's first resolver and record its country name. */
  method TopCountries(rs: seq<Resolver>, ranked: seq<Item>) returns (entries: seq<(string, Tally)>)
    ensures entries == CountryEntries(rs, ranked)
  {
    entries := [];
    for j := 0 to |ranked|
      invariant entries == CountryEntries(rs, ranked[..j])
    {
      var code := ranked[j].0;
      var count := ranked[j].1;
      assert ranked[..j + 1][..j] == ranked[..j];
      var resolver := FirstWithCode(rs, code);
      if resolver.Some? {
        entries := entries + [(code, Tally(resolver.value.country, count))];
      }
    }
    assert ranked[..|ranked|] == ranked;
  }

  /**
   * `_calculate_stats`: the tallies, then the rankings, the `top_countries`
   * loop and the assembled document.
   */
  method CalculateStats(rs: seq<Resolver>, threshold: real, timestamp: string) returns (stats: Stats)
    ensures stats == StatsOf(rs, threshold, timestamp)
  {
    var countryOrder, countries, continentOrder, continents, organizationOrder, organizations := TallyResolvers(rs);
    ItemsAreCounts(rs, Country, countryOrder, countries);
    ItemsAreCounts(rs, Organization, organizationOrder, organizations);
    ContinentItems(rs, continentOrder, continents);

    var countryItems := seq(|countryOrder|, i requires 0 <= i < |countryOrder| => (countryOrder[i], countries[countryOrder[i]]));
    var topCountries := TopCountries(rs, SortByCountDesc(countryItems));

    var organizationItems := seq(|organizationOrder|, i requires 0 <= i < |organizationOrder| =>
                                   (organizationOrder[i], organizations[organizationOrder[i]]));
    var topOrganizations := OrganizationEntries(Take(SortByCountDesc(organizationItems), TOP_ORGANIZATIONS));

    var continentCodes := SortedSet(continentOrder);
    var byContinent := seq(|continentCodes|, i requires 0 <= i < |continentCodes| =>
                             (continentCodes[i], continents[continentCodes[i]]));

    stats := Stats(
      timestamp,
      UPDATE_FREQUENCY,
      DATA_SOURCE,
      Totals(|rs|, CountVersion(rs, 4), CountVersion(rs, 6),
             |countries|, |continents|, |organizations|),
      FeaturesOf(rs, threshold),
      byContinent,
      topCountries,
      topOrganizations);
  }

  // ---------------------------------------------------------------------------
  // What the statistics document promises
  // ---------------------------------------------------------------------------

  /** A resolver has one version, so the IPv4 and IPv6 lists do not overlap. */
  lemma {:induction false} VersionsDisjoint(rs: seq<Resolver>)
    ensures CountVersion(rs, 4) + CountVersion(rs, 6) <= |rs|
  {
    if rs != [] {
      VersionsDisjoint(rs[..|rs| - 1]);
    }
  }

  /** `by_feature.online` counts every resolver. */
  lemma {:induction false} AllOnline(rs: seq<Resolver>, threshold: real)
    ensures CountWith(rs, Online, threshold) == |rs|
  {
    if rs != [] {
      AllOnline(rs[..|rs| - 1], threshold);
    }
  }

  /** The number of keys of a tally is the number of distinct non-empty codes. */
  lemma DistinctCodes(rs: seq<Resolver>, d: Dimension)
    ensures |Keys(rs, d)| == |set r | r in rs && Grouped(d, r) :: KeyOf(d, r)|
  {
    var keys := Keys(rs, d);
    DistinctCardinality(keys);
    forall k | k in keys
      ensures k in set r | r in rs && Grouped(d, r) :: KeyOf(d, r)
    {
      var r := Bucket(rs, d, k)[0];
      BucketMembers(rs, d, k, r);
    }
    forall r | r in rs && Grouped(d, r)
      ensures KeyOf(d, r) in keys
    {
      var i :| 0 <= i < |rs| && rs[i] == r;
    }
    assert (set k | k in keys) == set r | r in rs && Grouped(d, r) :: KeyOf(d, r);
  }

  /** The totals and feature counts: bounded by the number of servers, every server online. */
  lemma TotalsBounds(rs: seq<Resolver>, threshold: real)
    ensures var t := TotalsOf(rs);
      var f := FeaturesOf(rs, threshold);
      && t.servers == |rs|
      && t.serversIpv4 + t.serversIpv6 <= t.servers
      && t.countries <= t.servers
      && t.continents <= t.servers
      && t.organizations <= t.servers
      && f.online == t.servers
      && f.highUptime30d <= t.servers
  {
    VersionsDisjoint(rs);
    AllOnline(rs, threshold);
    KeysBound(rs, Country);
    KeysBound(rs, Continent);
    KeysBound(rs, Organization);
  }

  /** An item of the ranking is a key of the tally with its bucket size. */
  lemma RankedItem(rs: seq<Resolver>, d: Dimension, ranked: seq<Item>, i: nat)
    requires ranked == SortByCountDesc(Counts(rs, d, Keys(rs, d))) && i < |ranked|
    ensures ranked[i].0 in Keys(rs, d)
    ensures ranked[i].1 == |Bucket(rs, d, ranked[i].0)|
  {
    var items := Counts(rs, d, Keys(rs, d));
    assert ranked[i] in multiset(items);
    var j :| 0 <= j < |items| && items[j] == ranked[i];
  }

  /** A key of the tally appears in the ranking. */
  lemma KeyRanked(rs: seq<Resolver>, d: Dimension, ranked: seq<Item>, k: string)
    requires ranked == SortByCountDesc(Counts(rs, d, Keys(rs, d))) && k in Keys(rs, d)
    ensures exists i :: 0 <= i < |ranked| && ranked[i] == (k, |Bucket(rs, d, k)|)
  {
    var items := Counts(rs, d, Keys(rs, d));
    var j :| 0 <= j < |Keys(rs, d)| && Keys(rs, d)[j] == k;
    assert items[j] == (k, |Bucket(rs, d, k)|);
    assert items[j] in multiset(ranked);
  }

  /** When every ranked code has a first resolver, `top_countries` has one entry per ranked item. */
  lemma {:induction false} CountryEntriesAllFound(rs: seq<Resolver>, ranked: seq<Item>)
    requires forall i :: 0 <= i < |ranked| ==> FirstWithCode(rs, ranked[i].0).Some?
    ensures var entries := CountryEntries(rs, ranked);
      && |entries| == |ranked|
      && forall i :: 0 <= i < |ranked| ==>
           entries[i] == (ranked[i].0, Tally(FirstWithCode(rs, ranked[i].0).value.country, ranked[i].1))
  {
    if ranked != [] {
      var init := ranked[..|ranked| - 1];
      var item := ranked[|ranked| - 1];
      assert forall i :: 0 <= i < |init| ==> init[i] == ranked[i];
      CountryEntriesAllFound(rs, init);
      var r := FirstWithCode(rs, item.0).value;
      assert CountryEntries(rs, ranked) == CountryEntries(rs, init) + [(item.0, Tally(r.country, item.1))];
    }
  }

  /**
   * `by_country`: one entry per distinct country code, ranked by count with
   * ties in first-seen order; each count is the number of resolvers with the
   * code and each name the country of the first of them.
   */
  lemma ByCountry(rs: seq<Resolver>)
    ensures var bc := ByCountryOf(rs);
      var ranked := RankedCountries(rs);
      && |bc| == |ranked| == TotalsOf(rs).countries
      && (forall i :: 0 <= i < |bc| ==>
            && bc[i].0 == ranked[i].0 != ""
            && bc[i].1.count == ranked[i].1 == |Bucket(rs, Country, bc[i].0)| > 0
            && exists j :: FirstAt(rs, bc[i].0, j) && bc[i].1.name == rs[j].country)
      && (forall i, j :: 0 <= i < j < |bc| ==> bc[i].1.count >= bc[j].1.count)
      && (forall r :: r in rs && r.countryCode != "" ==>
            exists i :: 0 <= i < |bc| && bc[i].0 == r.countryCode)
  {
    var ranked := RankedCountries(rs);
    var entries := CountryEntries(rs, ranked);
    forall i | 0 <= i < |ranked|
      ensures ranked[i].0 in Keys(rs, Country)
      ensures ranked[i].1 == |Bucket(rs, Country, ranked[i].0)|
      ensures FirstWithCode(rs, ranked[i].0).Some?
      ensures exists j :: FirstAt(rs, ranked[i].0, j) && rs[j] == FirstWithCode(rs, ranked[i].0).value
    {
      RankedItem(rs, Country, ranked, i);
      var k := ranked[i].0;
      KeysAreNonEmptyBuckets(rs, Country, k);
      var r := Bucket(rs, Country, k)[0];
      BucketMembers(rs, Country, k, r);
      var j :| 0 <= j < |rs| && rs[j] == r;
      FirstWithCodeFinds(rs, k);
    }
    CountryEntriesAllFound(rs, ranked);
    forall r | r in rs && r.countryCode != ""
      ensures exists i :: 0 <= i < |entries| && entries[i].0 == r.countryCode
    {
      var j :| 0 <= j < |rs| && rs[j] == r;
      assert Grouped(Country, rs[j]);
      KeyRanked(rs, Country, ranked, r.countryCode);
    }
  }

  /** The country counts and the organisation counts each add up to the resolvers that carry the code. */
  lemma {:induction false} CountsAddUp(rs: seq<Resolver>, d: Dimension, codes: seq<string>)
    requires Distinct(codes)
    ensures Sum(Counts(rs, d, codes)) == CountIn(rs, d, CodeSet(codes))
  {
    if codes == [] {
      assert CodeSet(codes) == {};
      CountInNoCodes(rs, d);
    } else {
      var rest := codes[1..];
      assert Counts(rs, d, codes)[1..] == Counts(rs, d, rest);
      assert Distinct(rest);
      TailMembers(codes);
      assert CodeSet(codes) == CodeSet(rest) + {codes[0]};
      CountsAddUp(rs, d, rest);
      CountInAddCode(rs, d, CodeSet(rest), codes[0]);
    }
  }

  /** Ranking loses no resolver: the ranked counts add up to the resolvers with a code. */
  lemma RankingConserves(rs: seq<Resolver>, d: Dimension)
    ensures Sum(SortByCountDesc(Counts(rs, d, Keys(rs, d)))) == |Selected(rs, d)|
  {
    SortKeepsSum(Counts(rs, d, Keys(rs, d)));
    CountsAddUp(rs, d, Keys(rs, d));
    CountInAllCodes(rs, d, CodeSet(Keys(rs, d)));
  }

  /**
   * `top_organizations`: at most twenty entries, the largest organisations
   * in non-increasing order; no organisation left out has more resolvers
   * than one kept.
   */
  lemma TopOrganizations(rs: seq<Resolver>)
    ensures var top := TopOrganizationsOf(rs);
      var n := TotalsOf(rs).organizations;
      && |top| == (if n < TOP_ORGANIZATIONS then n else TOP_ORGANIZATIONS)
      && (forall i :: 0 <= i < |top| ==>
            top[i].name in Keys(rs, Organization) && top[i].count == |Bucket(rs, Organization, top[i].name)| > 0)
      && (forall i, j :: 0 <= i < j < |top| ==> top[i].count >= top[j].count)
  {
    var ranked := RankedOrganizations(rs);
    var top := TopOrganizationsOf(rs);
    TopPrefix(rs);
    forall i | 0 <= i < |top|
      ensures top[i].name in Keys(rs, Organization) && top[i].count == |Bucket(rs, Organization, top[i].name)| > 0
    {
      RankedItem(rs, Organization, ranked, i);
      KeysAreNonEmptyBuckets(rs, Organization, ranked[i].0);
    }
  }

  /** An organisation left out of the top entries has no more resolvers than any organisation kept. */
  lemma TopOrganizationsCutoff(rs: seq<Resolver>, org: string)
    requires org in Keys(rs, Organization)
    ensures var top := TopOrganizationsOf(rs);
      (forall i :: 0 <= i < |top| ==> top[i].name != org) ==>
        forall i :: 0 <= i < |top| ==> |Bucket(rs, Organization, org)| <= top[i].count
  {
    var ranked := RankedOrganizations(rs);
    var top := TopOrganizationsOf(rs);
    TopPrefix(rs);
    KeyRanked(rs, Organization, ranked, org);
    var j :| 0 <= j < |ranked| && ranked[j] == (org, |Bucket(rs, Organization, org)|);
    if j < |top| {
      assert top[j].name == org;
    } else {
      BelowPrefix(ranked, top, j);
    }
  }

  /** An item ranked after the kept prefix counts no more than any kept entry. */
  lemma BelowPrefix(ranked: seq<Item>, top: seq<Tally>, j: nat)
    requires NonIncreasing(ranked) && |top| <= j < |ranked|
    requires forall i :: 0 <= i < |top| ==> top[i] == Tally(ranked[i].0, ranked[i].1)
    ensures forall i :: 0 <= i < |top| ==> ranked[j].1 <= top[i].count
  {
  }

  /** The top entries are the first items of the ranking, which counts every organisation once. */
  lemma TopPrefix(rs: seq<Resolver>)
    ensures var ranked := RankedOrganizations(rs);
      var top := TopOrganizationsOf(rs);
      && |ranked| == TotalsOf(rs).organizations
      && NonIncreasing(ranked)
      && |top| == (if |ranked| < TOP_ORGANIZATIONS then |ranked| else TOP_ORGANIZATIONS)
      && forall i :: 0 <= i < |top| ==> top[i] == Tally(ranked[i].0, ranked[i].1)
  {
    var ranked := RankedOrganizations(rs);
    var taken := Take(ranked, TOP_ORGANIZATIONS);
    assert forall i :: 0 <= i < |taken| ==> taken[i] == ranked[i];
  }

  /** The continent entries line up with the continent partition. */
  lemma ContinentEntriesArePartition(rs: seq<Resolver>)
    ensures var bc := ByContinentOf(rs);
      var parts := Groups(rs, Continent);
      && |bc| == |parts| == TotalsOf(rs).continents
      && forall i :: 0 <= i < |bc| ==> bc[i].0 == parts[i].0 != "" && bc[i].1.count == |parts[i].1| > 0
  {
    var keys := Keys(rs, Continent);
    DistinctCardinality(keys);
    var codes := SortedSet(keys);
    assert forall i :: 0 <= i < |codes| ==> codes[i] in keys;
  }

  /** The continent entries come in ascending code order. */
  lemma ContinentCodesAscending(rs: seq<Resolver>)
    ensures var bc := ByContinentOf(rs);
      StrictlyIncreasing(seq(|bc|, i requires 0 <= i < |bc| => bc[i].0))
  {
    var codes := SortedSet(Keys(rs, Continent));
    var bc := ContinentEntries(rs, codes);
    assert seq(|bc|, i requires 0 <= i < |bc| => bc[i].0) == codes;
    assert ByContinentOf(rs) == bc;
  }

  /** Every continent code carried by a resolver has an entry. */
  lemma ContinentCoverage(rs: seq<Resolver>, r: Resolver)
    requires r in rs && r.continentCode != ""
    ensures var bc := ByContinentOf(rs);
      exists i :: 0 <= i < |bc| && bc[i].0 == r.continentCode
  {
    var codes := SortedSet(Keys(rs, Continent));
    var bc := ContinentEntries(rs, codes);
    KeyOfGrouped(rs, Continent, r);
    assert r.continentCode in codes;
    var i :| 0 <= i < |codes| && codes[i] == r.continentCode;
    assert bc[i].0 == r.continentCode;
    assert ByContinentOf(rs) == bc;
  }

  /** Each continent entry carries the continent of the last resolver with its code. */
  lemma ContinentNames(rs: seq<Resolver>, codes: seq<string>)
    requires forall k :: k in codes ==> k in Keys(rs, Continent)
    ensures forall i :: 0 <= i < |codes| ==>
      exists j :: LastWithCode(rs, Continent, codes[i], j) && ContinentEntries(rs, codes)[i].1.name == rs[j].continent
  {
    var bc := ContinentEntries(rs, codes);
    forall i | 0 <= i < |codes|
      ensures exists j :: LastWithCode(rs, Continent, codes[i], j) && bc[i].1.name == rs[j].continent
    {
      var k := codes[i];
      KeysAreNonEmptyBuckets(rs, Continent, k);
      BucketLast(rs, Continent, k);
      var b := Bucket(rs, Continent, k);
      var j :| LastWithCode(rs, Continent, k, j) && rs[j] == b[|b| - 1];
      assert bc[i] == ContinentEntry(rs, k);
      assert bc[i].1.name == rs[j].continent;
    }
    assert forall i :: 0 <= i < |codes| ==> exists j :: LastWithCode(rs, Continent, codes[i], j) && bc[i].1.name == rs[j].continent;
  }

  /**
   * `by_continent`: one entry per distinct continent code, in ascending code
   * order; each count is the number of resolvers with the code, i.e. the
   * size of the matching part of the continent partition.
   */
  lemma ByContinent(rs: seq<Resolver>)
    ensures var bc := ByContinentOf(rs);
      var parts := Groups(rs, Continent);
      && |bc| == |parts| == TotalsOf(rs).continents
      && StrictlyIncreasing(seq(|bc|, i requires 0 <= i < |bc| => bc[i].0))
      && (forall i :: 0 <= i < |bc| ==> bc[i].0 == parts[i].0 != "" && bc[i].1.count == |parts[i].1| > 0)
      && (forall r :: r in rs && r.continentCode != "" ==>
            exists i :: 0 <= i < |bc| && bc[i].0 == r.continentCode)
  {
    ContinentEntriesArePartition(rs);
    ContinentCodesAscending(rs);
    forall r | r in rs && r.continentCode != ""
      ensures exists i :: 0 <= i < |ByContinentOf(rs)| && ByContinentOf(rs)[i].0 == r.continentCode
    {
      ContinentCoverage(rs, r);
    }
  }

  /** Each `by_continent` name is the continent of the last resolver with that code. */
  lemma ByContinentNames(rs: seq<Resolver>)
    ensures var bc := ByContinentOf(rs);
      forall i :: 0 <= i < |bc| ==> exists j :: LastWithCode(rs, Continent, bc[i].0, j) && bc[i].1.name == rs[j].continent
  {
    var codes := SortedSet(Keys(rs, Continent));
    ContinentNames(rs, codes);
  }

  // ---------------------------------------------------------------------------
  // Conservation of the per-code tallies
  // ---------------------------------------------------------------------------

  /** The counts of a tally dict added up. */
  function EntriesSum(entries: seq<(string, Tally)>): nat
  {
    if entries == [] then 0 else entries[0].1.count + EntriesSum(entries[1..])
  }

  /** Entries that carry the counts of a ranking add up to the ranking's sum. */
  lemma {:induction false} EntriesSumOfItems(entries: seq<(string, Tally)>, items: seq<Item>)
    requires |entries| == |items|
    requires forall i :: 0 <= i < |items| ==> entries[i].1.count == items[i].1
    ensures EntriesSum(entries) == Sum(items)
  {
    if entries != [] {
      EntriesSumOfItems(entries[1..], items[1..]);
    }
  }

  /** `by_continent` loses no resolver: its counts add up to the resolvers with a continent code. */
  lemma ByContinentConserves(rs: seq<Resolver>)
    ensures EntriesSum(ByContinentOf(rs)) == |Selected(rs, Continent)| <= TotalsOf(rs).servers
  {
    var codes := SortedSet(Keys(rs, Continent));
    var items := Counts(rs, Continent, codes);
    IncreasingIsDistinct(codes);
    EntriesSumOfItems(ByContinentOf(rs), items);
    CountsAddUp(rs, Continent, codes);
    assert CodeSet(codes) == CodeSet(Keys(rs, Continent));
    CountInAllCodes(rs, Continent, CodeSet(codes));
    KeysBound(rs, Continent);
  }

  /** `by_country` loses no resolver: its counts add up to the resolvers with a country code. */
  lemma ByCountryConserves(rs: seq<Resolver>)
    ensures EntriesSum(ByCountryOf(rs)) == |Selected(rs, Country)| <= TotalsOf(rs).servers
  {
    ByCountry(rs);
    EntriesSumOfItems(ByCountryOf(rs), RankedCountries(rs));
    RankingConserves(rs, Country);
    KeysBound(rs, Country);
  }

  /**
   * The statistics document agrees with itself: each tally has as many
   * entries as `totals` reports, `top_organizations` keeps the twenty
   * largest or all of them, the tallies never count more resolvers than
   * there are servers, and every server is counted online.
   */
  lemma StatsConsistent(rs: seq<Resolver>, threshold: real, timestamp: string)
    ensures var st := StatsOf(rs, threshold, timestamp);
      var t := st.totals;
      && st.lastUpdated == timestamp
      && t.servers == |rs|
      && |st.byContinent| == t.continents
      && |st.byCountry| == t.countries
      && |st.topOrganizations| == (if t.organizations < TOP_ORGANIZATIONS then t.organizations else TOP_ORGANIZATIONS)
      && EntriesSum(st.byContinent) <= t.servers
      && EntriesSum(st.byCountry) <= t.servers
      && t.serversIpv4 + t.serversIpv6 <= t.servers
      && st.byFeature.online == t.servers
  {
    TotalsBounds(rs, threshold);
    ByContinent(rs);
    ByCountry(rs);
    TopOrganizations(rs);
    ByContinentConserves(rs);
    ByCountryConserves(rs);
  }
}
