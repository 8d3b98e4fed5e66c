/**
 * The per-country and per-continent JSON documents of `FileGenerator`
 * (`_generate_country_json_files`, `_generate_continent_json_files`): one
 * document per code, in ascending code order, holding a metadata object
 * taken from the group's first resolver and the group's resolvers as
 * `to_json_dict` lays them out. Serialising the document is not modelled.
 */
module JsonFiles {
  import opened Wrappers
  import opened Records
  import opened Strings
  import opened Grouping

  /** Which per-group JSON generator. */
  datatype JsonGrouping = ByCountryCode | ByContinentCode

  function DimensionOf(g: JsonGrouping): Dimension
  {
    if g.ByCountryCode? then Country else Continent
  }

  function JsonPath(g: JsonGrouping, code: string): string
  {
    (if g.ByCountryCode? then "data/by-country/" else "data/by-continent/") + code + ".json"
  }

  /** `[r.to_json_dict() for r in group]`. */
  function JsonList(group: seq<Resolver>): seq<Json>
  {
    seq(|group|, i requires 0 <= i < |group| => ToJsonDict(group[i]))
  }

  /** The metadata object; the group's first resolver supplies the names. */
  function Metadata(g: JsonGrouping, code: string, group: seq<Resolver>, timestamp: string): Json
    requires group != []
  {
    var first := group[0];
    match g
    case ByCountryCode =>
      JObject([
        ("country_code", JString(code)),
        ("country_name", JString(first.country)),
        ("continent_code", JString(first.continentCode)),
        ("continent_name", JString(first.continent)),
        ("generated_at", JString(timestamp)),
        ("total_servers", JInt(|group|))])
    case ByContinentCode =>
      JObject([
        ("continent_code", JString(code)),
        ("continent_name", JString(first.continent)),
        ("generated_at", JString(timestamp)),
        ("total_servers", JInt(|group|))])
  }

  /**
   * The document of one group. The source indexes the group's first element,
   * which exists for every group the grouping loop builds.
   */
  function GroupDocument(g: JsonGrouping, code: string, group: seq<Resolver>, timestamp: string): Json
    requires group != []
  {
    JObject([("metadata", Metadata(g, code, group, timestamp)), ("resolvers", JArray(JsonList(group)))])
  }

  // ---------------------------------------------------------------------------
  // Reading a document back
  // ---------------------------------------------------------------------------

  /** Reads every element of an array back as a resolver; None if any does not read. */
  function DecodeAll(items: seq<Json>): Option<seq<Resolver>>
  {
    if items == [] then Some([])
    else
      match (FromJsonDict(items[0]), DecodeAll(items[1..]))
      case (Some(r), Some(rest)) => Some([r] + rest)
      case _ => None
  }

  /** The member names of a document and of its metadata object, in order. */
  const DOCUMENT_KEYS: seq<string> := ["metadata", "resolvers"]

  function MetadataKeys(g: JsonGrouping): seq<string>
  {
    if g.ByCountryCode? then
      ["country_code", "country_name", "continent_code", "continent_name", "generated_at", "total_servers"]
    else
      ["continent_code", "continent_name", "generated_at", "total_servers"]
  }

  /**
   * What a reader finds in a per-group document; `continent` is the
   * continent code and name a country document carries, None for a
   * continent document.
   */
  datatype GroupInfo = GroupInfo(
    code: string,
    name: string,
    continent: Option<(string, string)>,
    generatedAt: string,
    total: int,
    resolvers: seq<Resolver>)

  /** Reads a document laid out as GroupDocument lays it out. */
  function ReadGroupDocument(g: JsonGrouping, doc: Json): Option<GroupInfo>
  {
    if HasKeys(doc, DOCUMENT_KEYS) && HasKeys(doc.members[0].1, MetadataKeys(g)) && doc.members[1].1.JArray? then
      var meta := doc.members[0].1.members;
      var n := |meta|;
      if && meta[0].1.JString? && meta[1].1.JString? && meta[n - 2].1.JString? && meta[n - 1].1.JInt?
         && (g.ByCountryCode? ==> meta[2].1.JString? && meta[3].1.JString?)
      then
        var continent := if g.ByCountryCode? then Some((meta[2].1.s, meta[3].1.s)) else None;
        match DecodeAll(doc.members[1].1.items)
        case Some(rs) => Some(GroupInfo(meta[0].1.s, meta[1].1.s, continent, meta[n - 2].1.s, meta[n - 1].1.i, rs))
        case None => None
      else None
    else None
  }

  /** An array whose every element reads back reads back element by element. */
  lemma {:induction false} DecodeAllElements(items: seq<Json>, group: seq<Resolver>)
    requires |items| == |group|
    requires forall i :: 0 <= i < |items| ==> FromJsonDict(items[i]) == Some(group[i])
    ensures DecodeAll(items) == Some(group)
  {
    if items != [] {
      DecodeAllElements(items[1..], group[1..]);
      assert group == [group[0]] + group[1..];
    }
  }

  /** The resolvers array of a document reads back as the group. */
  lemma DecodeJsonList(group: seq<Resolver>)
    ensures DecodeAll(JsonList(group)) == Some(group)
  {
    var items := JsonList(group);
    forall i | 0 <= i < |items|
      ensures FromJsonDict(items[i]) == Some(group[i])
    {
      JsonDictRoundTrip(group[i]);
    }
    DecodeAllElements(items, group);
  }

  /** The layout ReadGroupDocument expects, and the values at its positions. */
  lemma DocumentLayout(g: JsonGrouping, code: string, group: seq<Resolver>, timestamp: string)
    requires group != []
    ensures var doc := GroupDocument(g, code, group, timestamp);
      var meta := Metadata(g, code, group, timestamp).members;
      && HasKeys(doc, DOCUMENT_KEYS) && doc.members[0].1.JObject? && HasKeys(doc.members[0].1, MetadataKeys(g))
      && doc.members[0].1.members == meta
      && doc.members[1].1 == JArray(JsonList(group))
      && |meta| >= 4
      && meta[0].1 == JString(code)
      && meta[1].1 == JString(if g.ByCountryCode? then group[0].country else group[0].continent)
      && (g.ByCountryCode? ==> meta[2].1 == JString(group[0].continentCode) && meta[3].1 == JString(group[0].continent))
      && meta[|meta| - 2].1 == JString(timestamp)
      && meta[|meta| - 1].1 == JInt(|group|)
  {
  }

  /**
   * A group's document reads back as its code, the name of its first
   * resolver (and, for a country, that resolver's continent code and name),
   * the generation time, `total_servers` equal to the group's size,
   * and the group's resolvers, in order, with no field lost.
   */
  lemma GroupDocumentRoundTrip(g: JsonGrouping, code: string, group: seq<Resolver>, timestamp: string)
    requires group != []
    ensures ReadGroupDocument(g, GroupDocument(g, code, group, timestamp)) ==
      Some(GroupInfo(
        code,
        if g.ByCountryCode? then group[0].country else group[0].continent,
        if g.ByCountryCode? then Some((group[0].continentCode, group[0].continent)) else None,
        timestamp, |group|, group))
  {
    DocumentLayout(g, code, group, timestamp);
    DecodeJsonList(group);
  }

  // ---------------------------------------------------------------------------
  // The generators
  // ---------------------------------------------------------------------------

  datatype JsonFile = JsonFile(path: string, doc: Json)

  function GroupJsonFile(g: JsonGrouping, code: string, group: seq<Resolver>, timestamp: string): JsonFile
    requires group != []
  {
    JsonFile(JsonPath(g, code), GroupDocument(g, code, group, timestamp))
  }

  /** The files of the given groups, in their order. */
  function FilesOf(g: JsonGrouping, parts: seq<(string, seq<Resolver>)>, timestamp: string): (files: seq<JsonFile>)
    requires forall i :: 0 <= i < |parts| ==> parts[i].1 != []
    ensures |files| == |parts|
    ensures forall i :: 0 <= i < |parts| ==> files[i] == GroupJsonFile(g, parts[i].0, parts[i].1, timestamp)
  {
    if parts == [] then []
    else
      var last := parts[|parts| - 1];
      FilesOf(g, parts[..|parts| - 1], timestamp) + [GroupJsonFile(g, last.0, last.1, timestamp)]
  }

  /** The files of a generator: one per group, in ascending code order. */
  function GroupJsonFiles(rs: seq<Resolver>, g: JsonGrouping, timestamp: string): seq<JsonFile>
  {
    GroupsShape(rs, DimensionOf(g));
    FilesOf(g, Groups(rs, DimensionOf(g)), timestamp)
  }

  /** The loop over `sorted(by_code.items())`: one document per group, in order. */
  method WriteGroups(g: JsonGrouping, parts: seq<(string, seq<Resolver>)>, timestamp: string) returns (files: seq<JsonFile>)
    requires forall i :: 0 <= i < |parts| ==> parts[i].1 != []
    ensures files == FilesOf(g, parts, timestamp)
  {
    files := [];
    for i := 0 to |parts|
      invariant files == FilesOf(g, parts[..i], timestamp)
    {
      assert parts[..i + 1][..i] == parts[..i];
      files := files + [GroupJsonFile(g, parts[i].0, parts[i].1, timestamp)];
    }
    assert parts[..|parts|] == parts;
  }

  /** The generator: the `defaultdict(list)` loop, then one document per group in code order. */
  method GenerateGroupJsonFiles(rs: seq<Resolver>, g: JsonGrouping, timestamp: string) returns (files: seq<JsonFile>)
    ensures files == GroupJsonFiles(rs, g, timestamp)
  {
    var parts := Partition(rs, DimensionOf(g));
    GroupsShape(rs, DimensionOf(g));
    files := WriteGroups(g, parts, timestamp);
  }

  /**
   * The i-th document is that of the i-th code in ascending order: it reads
   * back as that code, a positive total equal to the number of resolvers
   * with the code, and exactly those resolvers in input order.
   */
  lemma GroupJsonFileExact(rs: seq<Resolver>, g: JsonGrouping, timestamp: string, i: nat)
    requires i < |Groups(rs, DimensionOf(g))|
    ensures var d := DimensionOf(g);
      var code := Groups(rs, d)[i].0;
      var files := GroupJsonFiles(rs, g, timestamp);
      && i < |files|
      && code != ""
      && files[i].path == JsonPath(g, code)
      && var info := ReadGroupDocument(g, files[i].doc);
         && info.Some?
         && info.value.code == code
         && info.value.total == |info.value.resolvers| > 0
         && info.value.resolvers == Bucket(rs, d, code)
         && forall r :: r in info.value.resolvers <==> r in rs && Grouped(d, r) && KeyOf(d, r) == code
  {
    var d := DimensionOf(g);
    var parts := Groups(rs, d);
    GroupsShape(rs, d);
    var code := parts[i].0;
    GroupDocumentRoundTrip(g, code, parts[i].1, timestamp);
    forall r
      ensures r in parts[i].1 <==> r in rs && Grouped(d, r) && KeyOf(d, r) == code
    {
      BucketMembers(rs, d, code, r);
    }
  }

  /** Every resolver with a code appears in the document of its code. */
  lemma GroupJsonFilesCover(rs: seq<Resolver>, g: JsonGrouping, timestamp: string, r: Resolver)
    requires r in rs && Grouped(DimensionOf(g), r)
    ensures var files := GroupJsonFiles(rs, g, timestamp);
      exists i :: 0 <= i < |files| && files[i].path == JsonPath(g, KeyOf(DimensionOf(g), r))
        && var info := ReadGroupDocument(g, files[i].doc);
           info.Some? && r in info.value.resolvers
  {
    var d := DimensionOf(g);
    var parts := Groups(rs, d);
    GroupsShape(rs, d);
    var i :| 0 <= i < |parts| && parts[i].0 == KeyOf(d, r);
    GroupJsonFileExact(rs, g, timestamp, i);
  }
}
