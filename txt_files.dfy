/**
 * The plain-text IP lists of `FileGenerator`: `_generate_txt_header`,
 * `_write_txt_file` (the content it hands to the file writer), the ten
 * global lists and the per-country (IPv4, IPv6) and per-continent lists.
 * Writing the bytes to disk is not modelled: a file is its path and its lines.
 */
module TxtFiles {
  import opened Wrappers
  import opened Records
  import opened Strings
  import opened Grouping
  import opened Statistics

  const TOTAL_PREFIX := "# Total: "
  const TOTAL_SUFFIX := " servers"

  /** `f"# Total: {count} servers"`. */
  function TotalLine(count: nat): string
  {
    TOTAL_PREFIX + NatToString(count) + TOTAL_SUFFIX
  }

  /**
   * `_generate_txt_header` as its list of lines (the function joins them with
   * newlines). The usage lines appear only when the usage example is truthy,
   * that is given and non-empty.
   */
  function HeaderLines(title: string, timestamp: string, count: nat, usage: Option<string>): (h: seq<string>)
    ensures |h| == (if usage.Some? && usage.value != "" then 7 else 5)
    ensures h[0] == "# " + title && h[2] == "# Updated: " + timestamp
    ensures h[3] == TotalLine(count)
    ensures |h| == 7 ==> h[5] == "# Usage: " + usage.value
    ensures forall i :: 0 <= i < |h| ==> |h[i]| > 0 && h[i][0] == '#'
  {
    ["# " + title, "# Source: https://dnsdirectory.com", "# Updated: " + timestamp, TotalLine(count), "#"]
    + (if usage.Some? && usage.value != "" then ["# Usage: " + usage.value, "#"] else [])
  }

  /** The count printed on the Total line reads back as the count. */
  lemma TotalLineReadsBack(count: nat)
    ensures var line := TotalLine(count);
      && |line| >= |TOTAL_PREFIX| + |TOTAL_SUFFIX|
      && line[..|TOTAL_PREFIX|] == TOTAL_PREFIX
      && line[|line| - |TOTAL_SUFFIX|..] == TOTAL_SUFFIX
      && var digits := line[|TOTAL_PREFIX|..|line| - |TOTAL_SUFFIX|];
         && (forall i :: 0 <= i < |digits| ==> IsDigit(digits[i]))
         && ParseDigits(digits) == count
  {
    var line := TotalLine(count);
    assert line[|TOTAL_PREFIX|..|line| - |TOTAL_SUFFIX|] == NatToString(count);
    ParseNatToString(count);
  }

  /** `r.ip for r in resolvers`. */
  function IpsOf(rs: seq<Resolver>): seq<string>
  {
    seq(|rs|, i requires 0 <= i < |rs| => rs[i].ip)
  }

  lemma IpsOfMembers(rs: seq<Resolver>)
    ensures forall ip :: ip in IpsOf(rs) <==> exists r :: r in rs && r.ip == ip
    ensures (set ip | ip in IpsOf(rs)) == (set r | r in rs :: r.ip)
  {
    var ips := IpsOf(rs);
    forall ip | ip in ips
      ensures exists r :: r in rs && r.ip == ip
    {
      var i :| 0 <= i < |ips| && ips[i] == ip;
      assert rs[i] in rs;
    }
    forall r | r in rs
      ensures r.ip in ips
    {
      var i :| 0 <= i < |rs| && rs[i] == r;
      assert ips[i] == r.ip;
    }
  }

  /** A TXT list: where it goes, its header lines and its IP lines. */
  datatype TxtFile = TxtFile(path: string, header: seq<string>, ips: seq<string>)

  /** `_write_txt_file`: the header over the distinct IPs in ascending order. */
  function WriteTxtFile(path: string, title: string, rs: seq<Resolver>, usage: Option<string>, timestamp: string): TxtFile
  {
    var ips := SortedSet(IpsOf(rs));
    TxtFile(path, HeaderLines(title, timestamp, |ips|, usage), ips)
  }

  /**
   * A TXT list holds the distinct IPs of its resolvers in ascending order,
   * and its Total line counts the distinct IPs, not the records.
   */
  lemma WriteTxtFileLists(path: string, title: string, rs: seq<Resolver>, usage: Option<string>, timestamp: string)
    ensures var f := WriteTxtFile(path, title, rs, usage, timestamp);
      && f.path == path
      && StrictlyIncreasing(f.ips)
      && (forall ip :: ip in f.ips <==> exists r :: r in rs && r.ip == ip)
      && |f.ips| == |set r | r in rs :: r.ip|
      && f.header == HeaderLines(title, timestamp, |f.ips|, usage)
      && f.header[3] == TotalLine(|f.ips|)
  {
    IpsOfMembers(rs);
  }

  lemma IpCarriesOver(rs: seq<Resolver>, qs: seq<Resolver>, y: string)
    requires (set r | r in rs :: r.ip) == (set q | q in qs :: q.ip)
    requires y in IpsOf(rs)
    ensures y in IpsOf(qs)
  {
    IpsOfMembers(rs);
    IpsOfMembers(qs);
    var r :| r in rs && r.ip == y;
    var ips := set p | p in rs :: p.ip;
    assert y in ips;
    assert ips == (set q | q in qs :: q.ip);
    assert y in (set q | q in qs :: q.ip);
    var q :| q in qs && q.ip == y;
  }

  /**
   * A TXT list depends on its resolvers only through their set of IPs: order
   * and duplicates among the records do not change the file.
   */
  lemma WriteTxtFileSameIps(path: string, title: string, rs: seq<Resolver>, qs: seq<Resolver>, usage: Option<string>, timestamp: string)
    requires (set r | r in rs :: r.ip) == (set q | q in qs :: q.ip)
    ensures WriteTxtFile(path, title, rs, usage, timestamp) == WriteTxtFile(path, title, qs, usage, timestamp)
  {
    var a := SortedSet(IpsOf(rs));
    var b := SortedSet(IpsOf(qs));
    forall y | y in a
      ensures y in b
    {
      IpCarriesOver(rs, qs, y);
    }
    forall y | y in b
      ensures y in a
    {
      IpCarriesOver(qs, rs, y);
    }
    SortedUnique(a, b);
  }

  /** `header + "\n" + "\n".join(ips) + "\n"`. */
  function Render(f: TxtFile): string
  {
    Join(f.header, "\n") + "\n" + Join(f.ips, "\n") + "\n"
  }

  /**
   * The text is the header lines followed by one IP per line, each line ended
   * by a newline; with no IPs, an empty line follows the header.
   */
  lemma RenderLines(f: TxtFile)
    requires f.header != []
    ensures f.ips != [] ==> Render(f) == Join(f.header + f.ips, "\n") + "\n"
    ensures f.ips == [] ==> Render(f) == Join(f.header, "\n") + "\n\n"
  {
    if f.ips != [] {
      JoinAppend(f.header, f.ips, "\n");
    }
  }

  // ---------------------------------------------------------------------------
  // _generate_global_txt_files
  // ---------------------------------------------------------------------------

  /** The arguments of one `_write_txt_file` call: path, title, resolvers, usage example. */
  datatype TxtWrite = TxtWrite(path: string, title: string, group: seq<Resolver>, usage: Option<string>)

  /** The file a write produces. */
  function Written(w: TxtWrite, timestamp: string): TxtFile
  {
    WriteTxtFile(w.path, w.title, w.group, w.usage, timestamp)
  }

  /** One global list: the IP version it keeps and the feature it filters on. */
  datatype GlobalList = GlobalList(path: string, title: string, version: int, feature: Feature, usage: Option<string>)

  /** all.txt and all-ipv6.txt: every resolver of the version. */
  const ALL_IPV4 := GlobalList("resolvers/global/all.txt", "Public DNS Servers - All IPv4", 4, Online,
                               Some("massdns -r all.txt -t A domains.txt"))
  const ALL_IPV6 := GlobalList("resolvers/global/all-ipv6.txt", "Public DNS Servers - All IPv6", 6, Online, None)

  /**
   * The ten global lists, in the order they are written. `thresholdText` is
   * the threshold as Python formats it into the high-uptime title.
   */
  function GlobalLists(thresholdText: string): seq<GlobalList>
  {
    [ ALL_IPV4,
      ALL_IPV6,
      GlobalList("resolvers/global/trusted.txt", "Public DNS Servers - Trusted Providers (IPv4)", 4, Trusted,
                 Some("massdns -r trusted.txt -t A domains.txt")),
      GlobalList("resolvers/global/trusted-ipv6.txt", "Public DNS Servers - Trusted Providers (IPv6)", 6, Trusted, None),
      GlobalList("resolvers/global/dnssec.txt", "Public DNS Servers - DNSSEC Validating (IPv4)", 4, DnssecValidating, None),
      GlobalList("resolvers/global/dnssec-ipv6.txt", "Public DNS Servers - DNSSEC Validating (IPv6)", 6, DnssecValidating, None),
      GlobalList("resolvers/global/ad-blocking.txt", "Public DNS Servers - Ad Blocking (IPv4)", 4, AdBlocking, None),
      GlobalList("resolvers/global/malware-blocking.txt", "Public DNS Servers - Malware Blocking (IPv4)", 4, MalwareBlocking, None),
      GlobalList("resolvers/global/family-safe.txt", "Public DNS Servers - Family Safe / Adult Blocking (IPv4)", 4, AdultBlocking, None),
      GlobalList("resolvers/global/high-uptime.txt",
                 "Public DNS Servers - High Uptime >=" + thresholdText + "% (IPv4)", 4, HighUptime30d, None)
    ]
  }

  /** `[r for r in ipv4 if r.trusted]` and the like: the resolvers a list keeps, in order. */
  function Kept(rs: seq<Resolver>, l: GlobalList, threshold: real): (kept: seq<Resolver>)
    ensures forall r :: r in kept <==> r in rs && r.version == l.version && Has(r, l.feature, threshold)
  {
    if rs == [] then []
    else
      var last := rs[|rs| - 1];
      assert rs == rs[..|rs| - 1] + [last];
      Kept(rs[..|rs| - 1], l, threshold) + (if last.version == l.version && Has(last, l.feature, threshold) then [last] else [])
  }

  /** The writes of `_generate_global_txt_files`: each global list over the resolvers it keeps. */
  function GlobalWrites(rs: seq<Resolver>, threshold: real, thresholdText: string): (writes: seq<TxtWrite>)
    ensures |writes| == |GlobalLists(thresholdText)|
  {
    var lists := GlobalLists(thresholdText);
    seq(|lists|, i requires 0 <= i < |lists| =>
      TxtWrite(lists[i].path, lists[i].title, Kept(rs, lists[i], threshold), lists[i].usage))
  }

  /**
   * Each global list holds, in ascending order and once each, exactly the IPs
   * of the resolvers of its version that have its feature.
   */
  lemma GlobalListsExact(rs: seq<Resolver>, threshold: real, thresholdText: string, timestamp: string, i: nat)
    requires i < |GlobalLists(thresholdText)|
    ensures var f := Written(GlobalWrites(rs, threshold, thresholdText)[i], timestamp);
      var l := GlobalLists(thresholdText)[i];
      && f.path == l.path
      && StrictlyIncreasing(f.ips)
      && (forall ip :: ip in f.ips <==>
            exists r :: r in rs && r.version == l.version && Has(r, l.feature, threshold) && r.ip == ip)
  {
    var l := GlobalLists(thresholdText)[i];
    WriteTxtFileLists(l.path, l.title, Kept(rs, l, threshold), l.usage, timestamp);
  }

  /** Every IPv4 list is drawn from all.txt, every IPv6 list from all-ipv6.txt. */
  lemma GlobalListsWithinAll(rs: seq<Resolver>, threshold: real, thresholdText: string, timestamp: string, i: nat)
    requires i < |GlobalLists(thresholdText)|
    ensures var writes := GlobalWrites(rs, threshold, thresholdText);
      var l := GlobalLists(thresholdText)[i];
      var ips := Written(writes[i], timestamp).ips;
      && (l.version == 4 ==> forall ip :: ip in ips ==> ip in Written(writes[0], timestamp).ips)
      && (l.version == 6 ==> forall ip :: ip in ips ==> ip in Written(writes[1], timestamp).ips)
  {
    var writes := GlobalWrites(rs, threshold, thresholdText);
    var l := GlobalLists(thresholdText)[i];
    var w, w4, w6 := writes[i], writes[0], writes[1];
    assert w.group == Kept(rs, l, threshold);
    assert w4.group == Kept(rs, ALL_IPV4, threshold);
    assert w6.group == Kept(rs, ALL_IPV6, threshold);
    WriteTxtFileLists(w.path, w.title, w.group, w.usage, timestamp);
    WriteTxtFileLists(w4.path, w4.title, w4.group, w4.usage, timestamp);
    WriteTxtFileLists(w6.path, w6.title, w6.group, w6.usage, timestamp);
    forall ip | ip in Written(w, timestamp).ips
      ensures l.version == 4 ==> ip in Written(w4, timestamp).ips
      ensures l.version == 6 ==> ip in Written(w6, timestamp).ips
    {
      var r :| r in w.group && r.ip == ip;
      assert l.version == 4 ==> r in w4.group;
      assert l.version == 6 ==> r in w6.group;
    }
  }

  // ---------------------------------------------------------------------------
  // _generate_country_txt_files, _generate_country_ipv6_txt_files,
  // _generate_continent_txt_files
  // ---------------------------------------------------------------------------

  /** Which per-group TXT generator. */
  datatype TxtGrouping = CountryIpv4 | CountryIpv6 | ContinentAll

  function DimensionOf(g: TxtGrouping): Dimension
  {
    match g
    case CountryIpv4 => CountryV4
    case CountryIpv6 => CountryV6
    case ContinentAll => Continent
  }

  function Directory(g: TxtGrouping): string
  {
    match g
    case CountryIpv4 => "resolvers/by-country/"
    case CountryIpv6 => "resolvers/by-country-ipv6/"
    case ContinentAll => "resolvers/by-continent/"
  }

  function TxtPath(g: TxtGrouping, code: string): string
  {
    Directory(g) + code + ".txt"
  }

  /**
   * The name in a group's title: the first resolver's country or continent
   * (the code itself for an empty group, which the grouping never produces).
   */
  function GroupName(g: TxtGrouping, code: string, group: seq<Resolver>): string
  {
    if group == [] then code else if g.ContinentAll? then group[0].continent else group[0].country
  }

  function GroupTitle(g: TxtGrouping, code: string, group: seq<Resolver>): string
  {
    "Public DNS Servers - " + GroupName(g, code, group) + " (" + code + ")" + (if g.CountryIpv6? then " - IPv6" else "")
  }

  /** The massdns usage example, given for every generator except IPv6. */
  function GroupUsage(g: TxtGrouping, code: string): Option<string>
  {
    if g.CountryIpv6? then None else Some("massdns -r " + code + ".txt -t A domains.txt")
  }

  function GroupWrite(g: TxtGrouping, code: string, group: seq<Resolver>): TxtWrite
  {
    TxtWrite(TxtPath(g, code), GroupTitle(g, code, group), group, GroupUsage(g, code))
  }

  /**
   * A group's file goes to `<directory>/<code>.txt`; its title names the
   * group's first resolver's country (continent for the continent lists),
   * or the code when the group is empty, and IPv6 lists carry a " - IPv6"
   * suffix and no usage lines; the other lists show the massdns example
   * for `<code>.txt`.
   */
  lemma GroupWriteHeader(g: TxtGrouping, code: string, group: seq<Resolver>, timestamp: string)
    ensures var f := Written(GroupWrite(g, code, group), timestamp);
      var name := if group == [] then code else if g.ContinentAll? then group[0].continent else group[0].country;
      && f.path == Directory(g) + code + ".txt"
      && f.header[0] == "# " + ("Public DNS Servers - " + name + " (" + code + ")" + (if g.CountryIpv6? then " - IPv6" else ""))
      && |f.header| == (if g.CountryIpv6? then 5 else 7)
      && (!g.CountryIpv6? ==> f.header[5] == "# Usage: " + ("massdns -r " + code + ".txt -t A domains.txt"))
  {
    var w := GroupWrite(g, code, group);
    assert w.title == GroupTitle(g, code, group);
    assert w.usage == GroupUsage(g, code);
    var f := Written(w, timestamp);
    assert f.header == HeaderLines(w.title, timestamp, |f.ips|, w.usage);
  }

  /** The writes for the given groups, in their order. */
  function WritesOf(g: TxtGrouping, parts: seq<(string, seq<Resolver>)>): (writes: seq<TxtWrite>)
    ensures |writes| == |parts|
    ensures forall i :: 0 <= i < |parts| ==> writes[i] == GroupWrite(g, parts[i].0, parts[i].1)
  {
    if parts == [] then []
    else
      var last := parts[|parts| - 1];
      WritesOf(g, parts[..|parts| - 1]) + [GroupWrite(g, last.0, last.1)]
  }

  /** The writes of a generator: one per group, in ascending code order. */
  function GroupWrites(rs: seq<Resolver>, g: TxtGrouping): seq<TxtWrite>
  {
    WritesOf(g, Groups(rs, DimensionOf(g)))
  }

  /** The loop over `sorted(by_code.items())`: one write per group, in order. */
  method WriteGroups(g: TxtGrouping, parts: seq<(string, seq<Resolver>)>) returns (writes: seq<TxtWrite>)
    ensures writes == WritesOf(g, parts)
  {
    writes := [];
    for i := 0 to |parts|
      invariant writes == WritesOf(g, parts[..i])
    {
      assert parts[..i + 1][..i] == parts[..i];
      assert WritesOf(g, parts[..i + 1]) == WritesOf(g, parts[..i]) + [GroupWrite(g, parts[i].0, parts[i].1)];
      writes := writes + [GroupWrite(g, parts[i].0, parts[i].1)];
    }
    assert parts[..|parts|] == parts;
  }

  /**
   * The generator: group with the `defaultdict(list)` loop, then write each
   * group in code order.
   */
  method GenerateGroupTxtFiles(rs: seq<Resolver>, g: TxtGrouping) returns (writes: seq<TxtWrite>)
    ensures writes == GroupWrites(rs, g)
  {
    var parts := Partition(rs, DimensionOf(g));
    writes := WriteGroups(g, parts);
  }

  /** Two paths built around different codes differ. */
  lemma PathsDiffer(prefix: string, a: string, b: string, suffix: string)
    requires a != b
    ensures prefix + a + suffix != prefix + b + suffix
  {
    if |a| == |b| {
      var p := prefix + a + suffix;
      var q := prefix + b + suffix;
      assert p[|prefix|..|prefix| + |a|] == a;
      assert q[|prefix|..|prefix| + |b|] == b;
    }
  }

  /** One file per code, so no file of a generator overwrites another. */
  lemma GroupTxtPathsDistinct(rs: seq<Resolver>, g: TxtGrouping)
    ensures var writes := GroupWrites(rs, g);
      forall i, j :: 0 <= i < j < |writes| ==> writes[i].path != writes[j].path
  {
    var parts := Groups(rs, DimensionOf(g));
    var writes := GroupWrites(rs, g);
    GroupsShape(rs, DimensionOf(g));
    var codes := seq(|parts|, i requires 0 <= i < |parts| => parts[i].0);
    forall i, j | 0 <= i < j < |writes|
      ensures writes[i].path != writes[j].path
    {
      assert Less(codes[i], codes[j]);
      LessIrreflexive(codes[i]);
      PathsDiffer(Directory(g), codes[i], codes[j], ".txt");
    }
  }

  /**
   * The i-th file is that of the i-th code in ascending order; it lists
   * exactly the IPs of the grouped resolvers with that code, and its Total
   * line counts them.
   */
  lemma GroupTxtFileExact(rs: seq<Resolver>, g: TxtGrouping, timestamp: string, i: nat)
    requires i < |Groups(rs, DimensionOf(g))|
    ensures var d := DimensionOf(g);
      var code := Groups(rs, d)[i].0;
      var f := Written(GroupWrites(rs, g)[i], timestamp);
      && code != ""
      && f.path == TxtPath(g, code)
      && f.header[3] == TotalLine(|f.ips|)
      && forall ip :: ip in f.ips <==> exists r :: r in rs && Grouped(d, r) && KeyOf(d, r) == code && r.ip == ip
  {
    var d := DimensionOf(g);
    var parts := Groups(rs, d);
    var code := parts[i].0;
    GroupsShape(rs, d);
    var f := Written(GroupWrites(rs, g)[i], timestamp);
    assert f == WriteTxtFile(TxtPath(g, code), GroupTitle(g, code, parts[i].1), parts[i].1, GroupUsage(g, code), timestamp);
    WriteTxtFileLists(TxtPath(g, code), GroupTitle(g, code, parts[i].1), parts[i].1, GroupUsage(g, code), timestamp);
    forall r
      ensures r in parts[i].1 <==> r in rs && Grouped(d, r) && KeyOf(d, r) == code
    {
      BucketMembers(rs, d, code, r);
    }
  }

  /** Every grouped resolver's IP is listed in the file of its code. */
  lemma GroupTxtFilesCover(rs: seq<Resolver>, g: TxtGrouping, timestamp: string, r: Resolver)
    requires r in rs && Grouped(DimensionOf(g), r)
    ensures var writes := GroupWrites(rs, g);
      exists i :: 0 <= i < |writes| && writes[i].path == TxtPath(g, KeyOf(DimensionOf(g), r))
        && r.ip in Written(writes[i], timestamp).ips
  {
    var d := DimensionOf(g);
    var parts := Groups(rs, d);
    var writes := GroupWrites(rs, g);
    GroupsShape(rs, d);
    var i :| 0 <= i < |parts| && parts[i].0 == KeyOf(d, r);
    BucketMembers(rs, d, KeyOf(d, r), r);
    var w := writes[i];
    assert w == GroupWrite(g, parts[i].0, parts[i].1);
    WriteTxtFileLists(w.path, w.title, w.group, w.usage, timestamp);
    assert r.ip in Written(w, timestamp).ips;
  }
}
