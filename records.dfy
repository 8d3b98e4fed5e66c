/**
 * The Resolver record: normalisation of one raw API record
 * (`Resolver.from_api_response`) and the two projections used by the
 * renderers (`to_json_dict`, `to_csv_row`).
 */
module Records {
  import opened Wrappers

  /**
   * An uptime field as the API sends it: something `float()` accepts
   * (its value abstracted to a real number) or something it rejects.
   */
  datatype RawNumber = Parsed(value: real) | Unparseable

  /**
   * One raw API record. A field is `None` when its key is absent from the
   * record; a present field carries a value of the field's declared type.
   * The API key of each field is given beside it.
   */
  datatype RawRecord = RawRecord(
    ip: Option<string>,                 // dns_server_ip_address
    version: Option<int>,               // dns_server_ip_address_version
    countryId: Option<string>,          // country_id
    countryName: Option<string>,        // country_name
    continentId: Option<string>,        // continent_id
    continentName: Option<string>,      // continent_name
    organization: Option<string>,       // dns_server_organization
    domain: Option<string>,             // dns_server_domain
    isTrusted: Option<bool>,            // dns_server_is_trusted
    isAnycast: Option<bool>,            // dns_server_is_anycast
    dnssecAware: Option<bool>,          // dns_server_dnssec_aware
    dnssecValidating: Option<bool>,     // dns_server_dnssec_validating
    isAdBlocking: Option<bool>,         // dns_server_is_ad_blocking
    isMalwareBlocking: Option<bool>,    // dns_server_is_malware_blocking
    isPornBlocking: Option<bool>,       // dns_server_is_porn_blocking
    uptime24h: Option<RawNumber>,       // dns_server_uptime_24h
    uptime30d: Option<RawNumber>,       // dns_server_uptime_30d
    uptime90d: Option<RawNumber>,       // dns_server_uptime_90d
    uptime1y: Option<RawNumber>,        // dns_server_uptime_1y
    isOnline: Option<bool>              // dns_server_is_online
  )

  /** The normalised record: 19 fields, none of them optional. */
  datatype Resolver = Resolver(
    ip: string,
    version: int,
    countryCode: string,
    country: string,
    continentCode: string,
    continent: string,
    organization: string,
    domain: string,
    trusted: bool,
    anycast: bool,
    dnssecAware: bool,
    dnssecValidating: bool,
    adBlocking: bool,
    malwareBlocking: bool,
    adultBlocking: bool,
    uptime24h: real,
    uptime30d: real,
    uptime90d: real,
    uptime1y: real
  )

  /** `server.get("dns_server_is_online")` is truthy. */
  predicate IsOnline(raw: RawRecord)
  {
    raw.isOnline == Some(true)
  }

  /** `_to_float(value)`: an absent or unparseable value becomes 0.0. */
  function ToFloat(v: Option<RawNumber>): real
  {
    match v
    case Some(Parsed(x)) => x
    case _ => 0.0
  }

  /** `Resolver.from_api_response`: total; each absent key takes its default. */
  function FromApiResponse(raw: RawRecord): Resolver
  {
    Resolver(
      ip := raw.ip.GetOr(""),
      version := raw.version.GetOr(4),
      countryCode := raw.countryId.GetOr(""),
      country := raw.countryName.GetOr(""),
      continentCode := raw.continentId.GetOr(""),
      continent := raw.continentName.GetOr(""),
      organization := raw.organization.GetOr(""),
      domain := raw.domain.GetOr(""),
      trusted := raw.isTrusted.GetOr(false),
      anycast := raw.isAnycast.GetOr(false),
      dnssecAware := raw.dnssecAware.GetOr(false),
      dnssecValidating := raw.dnssecValidating.GetOr(false),
      adBlocking := raw.isAdBlocking.GetOr(false),
      malwareBlocking := raw.isMalwareBlocking.GetOr(false),
      adultBlocking := raw.isPornBlocking.GetOr(false),
      uptime24h := ToFloat(raw.uptime24h),
      uptime30d := ToFloat(raw.uptime30d),
      uptime90d := ToFloat(raw.uptime90d),
      uptime1y := ToFloat(raw.uptime1y)
    )
  }

  /** The record with every key absent. */
  const EMPTY_RAW := RawRecord(None, None, None, None, None, None, None, None, None, None,
                               None, None, None, None, None, None, None, None, None, None)

  /** A raw record carrying every field of `r`, as the API would send it. */
  function RawOf(r: Resolver, online: bool): RawRecord
  {
    RawRecord(Some(r.ip), Some(r.version), Some(r.countryCode), Some(r.country),
              Some(r.continentCode), Some(r.continent), Some(r.organization), Some(r.domain),
              Some(r.trusted), Some(r.anycast), Some(r.dnssecAware), Some(r.dnssecValidating),
              Some(r.adBlocking), Some(r.malwareBlocking), Some(r.adultBlocking),
              Some(Parsed(r.uptime24h)), Some(Parsed(r.uptime30d)),
              Some(Parsed(r.uptime90d)), Some(Parsed(r.uptime1y)), Some(online))
  }

  /** Every absent field takes its default: "" for text, false for flags, 4 for the version, 0.0 for uptimes. */
  lemma MissingKeysTakeDefaults(raw: RawRecord)
    ensures var r := FromApiResponse(raw);
      && (raw.ip.None? ==> r.ip == "")
      && (raw.version.None? ==> r.version == 4)
      && (raw.countryId.None? ==> r.countryCode == "")
      && (raw.countryName.None? ==> r.country == "")
      && (raw.continentId.None? ==> r.continentCode == "")
      && (raw.continentName.None? ==> r.continent == "")
      && (raw.organization.None? ==> r.organization == "")
      && (raw.domain.None? ==> r.domain == "")
      && (raw.isTrusted.None? ==> !r.trusted)
      && (raw.isAnycast.None? ==> !r.anycast)
      && (raw.dnssecAware.None? ==> !r.dnssecAware)
      && (raw.dnssecValidating.None? ==> !r.dnssecValidating)
      && (raw.isAdBlocking.None? ==> !r.adBlocking)
      && (raw.isMalwareBlocking.None? ==> !r.malwareBlocking)
      && (raw.isPornBlocking.None? ==> !r.adultBlocking)
      && (raw.uptime24h.None? || raw.uptime24h == Some(Unparseable) ==> r.uptime24h == 0.0)
      && (raw.uptime30d.None? || raw.uptime30d == Some(Unparseable) ==> r.uptime30d == 0.0)
      && (raw.uptime90d.None? || raw.uptime90d == Some(Unparseable) ==> r.uptime90d == 0.0)
      && (raw.uptime1y.None? || raw.uptime1y == Some(Unparseable) ==> r.uptime1y == 0.0)
  {
  }

  /** Present values are copied unchanged: normalising a complete record gives back its fields. */
  lemma PresentKeysCopied(r: Resolver, online: bool)
    ensures FromApiResponse(RawOf(r, online)) == r
  {
  }

  /**
   * Every present value is copied unchanged, whatever other keys are absent:
   * `data.get(key, default)` returns the value when the key is there.
   */
  lemma PresentKeysTaken(raw: RawRecord)
    ensures var r := FromApiResponse(raw);
      && (raw.ip.Some? ==> r.ip == raw.ip.value)
      && (raw.version.Some? ==> r.version == raw.version.value)
      && (raw.countryId.Some? ==> r.countryCode == raw.countryId.value)
      && (raw.countryName.Some? ==> r.country == raw.countryName.value)
      && (raw.continentId.Some? ==> r.continentCode == raw.continentId.value)
      && (raw.continentName.Some? ==> r.continent == raw.continentName.value)
      && (raw.organization.Some? ==> r.organization == raw.organization.value)
      && (raw.domain.Some? ==> r.domain == raw.domain.value)
      && (raw.isTrusted.Some? ==> r.trusted == raw.isTrusted.value)
      && (raw.isAnycast.Some? ==> r.anycast == raw.isAnycast.value)
      && (raw.dnssecAware.Some? ==> r.dnssecAware == raw.dnssecAware.value)
      && (raw.dnssecValidating.Some? ==> r.dnssecValidating == raw.dnssecValidating.value)
      && (raw.isAdBlocking.Some? ==> r.adBlocking == raw.isAdBlocking.value)
      && (raw.isMalwareBlocking.Some? ==> r.malwareBlocking == raw.isMalwareBlocking.value)
      && (raw.isPornBlocking.Some? ==> r.adultBlocking == raw.isPornBlocking.value)
  {
  }

  /** `_to_float` on each uptime: a value `float()` accepts is kept, anything else becomes 0.0. */
  lemma UptimesCoerced(raw: RawRecord)
    ensures var r := FromApiResponse(raw);
      && r.uptime24h == (if raw.uptime24h.Some? && raw.uptime24h.value.Parsed? then raw.uptime24h.value.value else 0.0)
      && r.uptime30d == (if raw.uptime30d.Some? && raw.uptime30d.value.Parsed? then raw.uptime30d.value.value else 0.0)
      && r.uptime90d == (if raw.uptime90d.Some? && raw.uptime90d.value.Parsed? then raw.uptime90d.value.value else 0.0)
      && r.uptime1y == (if raw.uptime1y.Some? && raw.uptime1y.value.Parsed? then raw.uptime1y.value.value else 0.0)
  {
  }

  // ---------------------------------------------------------------------------
  // to_json_dict
  // ---------------------------------------------------------------------------

  /** A JSON value; an object keeps its members in insertion order. */
  datatype Json =
    | JNull
    | JBool(b: bool)
    | JInt(i: int)
    | JNumber(x: real)
    | JString(s: string)
    | JArray(items: seq<Json>)
    | JObject(members: seq<(string, Json)>)

  /** `Resolver.to_json_dict`: flat identity fields, then nested dnssec, blocking and uptime groups. */
  function ToJsonDict(r: Resolver): Json
  {
    JObject([
      ("ip", JString(r.ip)),
      ("version", JInt(r.version)),
      ("country_code", JString(r.countryCode)),
      ("country", JString(r.country)),
      ("continent_code", JString(r.continentCode)),
      ("continent", JString(r.continent)),
      ("organization", JString(r.organization)),
      ("domain", JString(r.domain)),
      ("trusted", JBool(r.trusted)),
      ("anycast", JBool(r.anycast)),
      ("dnssec", JObject([
        ("aware", JBool(r.dnssecAware)),
        ("validating", JBool(r.dnssecValidating))])),
      ("blocking", JObject([
        ("ads", JBool(r.adBlocking)),
        ("malware", JBool(r.malwareBlocking)),
        ("adult", JBool(r.adultBlocking))])),
      ("uptime", JObject([
        ("24h", JNumber(r.uptime24h)),
        ("30d", JNumber(r.uptime30d)),
        ("90d", JNumber(r.uptime90d)),
        ("1y", JNumber(r.uptime1y))]))
    ])
  }

  /** The member names of the document, in order, and of its three nested groups. */
  const JSON_KEYS: seq<string> := [
    "ip", "version", "country_code", "country", "continent_code", "continent",
    "organization", "domain", "trusted", "anycast", "dnssec", "blocking", "uptime"
  ]
  const DNSSEC_KEYS: seq<string> := ["aware", "validating"]
  const BLOCKING_KEYS: seq<string> := ["ads", "malware", "adult"]
  const UPTIME_KEYS: seq<string> := ["24h", "30d", "90d", "1y"]

  /** `j` is an object whose members carry exactly the names `keys`, in that order. */
  predicate HasKeys(j: Json, keys: seq<string>)
  {
    j.JObject? && |j.members| == |keys| && forall i :: 0 <= i < |keys| ==> j.members[i].0 == keys[i]
  }

  /** Reads a document laid out as ToJsonDict lays it out back into a Resolver. */
  function FromJsonDict(j: Json): Option<Resolver>
  {
    if HasKeys(j, JSON_KEYS) then
      var m := j.members;
      var dnssec, blocking, uptime := m[10].1, m[11].1, m[12].1;
      if && m[0].1.JString? && m[1].1.JInt? && m[2].1.JString? && m[3].1.JString?
         && m[4].1.JString? && m[5].1.JString? && m[6].1.JString? && m[7].1.JString?
         && m[8].1.JBool? && m[9].1.JBool?
         && HasKeys(dnssec, DNSSEC_KEYS) && HasKeys(blocking, BLOCKING_KEYS) && HasKeys(uptime, UPTIME_KEYS)
         && dnssec.members[0].1.JBool? && dnssec.members[1].1.JBool?
         && blocking.members[0].1.JBool? && blocking.members[1].1.JBool? && blocking.members[2].1.JBool?
         && uptime.members[0].1.JNumber? && uptime.members[1].1.JNumber?
         && uptime.members[2].1.JNumber? && uptime.members[3].1.JNumber?
      then
        Some(Resolver(m[0].1.s, m[1].1.i, m[2].1.s, m[3].1.s, m[4].1.s, m[5].1.s, m[6].1.s, m[7].1.s,
                      m[8].1.b, m[9].1.b, dnssec.members[0].1.b, dnssec.members[1].1.b,
                      blocking.members[0].1.b, blocking.members[1].1.b, blocking.members[2].1.b,
                      uptime.members[0].1.x, uptime.members[1].1.x,
                      uptime.members[2].1.x, uptime.members[3].1.x))
      else None
    else None
  }

  /**
   * The document's layout: the thirteen member names in order, with the
   * dnssec, blocking and uptime groups nested under their own names.
   */
  lemma ToJsonDictLayout(r: Resolver)
    ensures var j := ToJsonDict(r);
      && HasKeys(j, JSON_KEYS)
      && HasKeys(j.members[10].1, DNSSEC_KEYS)
      && HasKeys(j.members[11].1, BLOCKING_KEYS)
      && HasKeys(j.members[12].1, UPTIME_KEYS)
  {
  }

  /** The JSON document loses no field: it reads back as the resolver it was made from. */
  lemma JsonDictRoundTrip(r: Resolver)
    ensures FromJsonDict(ToJsonDict(r)) == Some(r)
  {
  }

  // ---------------------------------------------------------------------------
  // to_csv_row
  // ---------------------------------------------------------------------------

  /** A CSV cell before the writer turns it into text. */
  datatype Cell = CText(s: string) | CInt(i: int) | CBool(b: bool) | CReal(x: real)

  /** The `fieldnames` handed to the CSV writer, in column order. */
  const CSV_COLUMNS: seq<string> := [
    "ip", "version", "country_code", "country", "continent_code", "continent",
    "organization", "domain", "trusted", "anycast", "dnssec_aware", "dnssec_validating",
    "ad_blocking", "malware_blocking", "adult_blocking",
    "uptime_24h", "uptime_30d", "uptime_90d", "uptime_1y"
  ]

  /**
   * `Resolver.to_csv_row`: one flat cell per field. Its keys are exactly the
   * writer's field names in the same order, so the writer never meets an
   * unexpected or a missing key.
   */
  function ToCsvRow(r: Resolver): (row: seq<(string, Cell)>)
    ensures |row| == |CSV_COLUMNS|
    ensures forall i :: 0 <= i < |row| ==> row[i].0 == CSV_COLUMNS[i]
  {
    [
      ("ip", CText(r.ip)),
      ("version", CInt(r.version)),
      ("country_code", CText(r.countryCode)),
      ("country", CText(r.country)),
      ("continent_code", CText(r.continentCode)),
      ("continent", CText(r.continent)),
      ("organization", CText(r.organization)),
      ("domain", CText(r.domain)),
      ("trusted", CBool(r.trusted)),
      ("anycast", CBool(r.anycast)),
      ("dnssec_aware", CBool(r.dnssecAware)),
      ("dnssec_validating", CBool(r.dnssecValidating)),
      ("ad_blocking", CBool(r.adBlocking)),
      ("malware_blocking", CBool(r.malwareBlocking)),
      ("adult_blocking", CBool(r.adultBlocking)),
      ("uptime_24h", CReal(r.uptime24h)),
      ("uptime_30d", CReal(r.uptime30d)),
      ("uptime_90d", CReal(r.uptime90d)),
      ("uptime_1y", CReal(r.uptime1y))
    ]
  }

  /** Reads one row, cell by column position, back into a Resolver. */
  function FromCsvRow(row: seq<(string, Cell)>): Option<Resolver>
  {
    if |row| == 19
      && row[0].1.CText? && row[1].1.CInt? && row[2].1.CText? && row[3].1.CText?
      && row[4].1.CText? && row[5].1.CText? && row[6].1.CText? && row[7].1.CText?
      && row[8].1.CBool? && row[9].1.CBool? && row[10].1.CBool? && row[11].1.CBool?
      && row[12].1.CBool? && row[13].1.CBool? && row[14].1.CBool?
      && row[15].1.CReal? && row[16].1.CReal? && row[17].1.CReal? && row[18].1.CReal?
    then
      Some(Resolver(row[0].1.s, row[1].1.i, row[2].1.s, row[3].1.s, row[4].1.s, row[5].1.s,
                    row[6].1.s, row[7].1.s, row[8].1.b, row[9].1.b, row[10].1.b, row[11].1.b,
                    row[12].1.b, row[13].1.b, row[14].1.b,
                    row[15].1.x, row[16].1.x, row[17].1.x, row[18].1.x))
    else None
  }

  /** The CSV row loses no field. */
  lemma CsvRowRoundTrip(r: Resolver)
    ensures FromCsvRow(ToCsvRow(r)) == Some(r)
  {
  }
}
