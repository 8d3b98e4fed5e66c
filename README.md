# DNS resolver fetcher: a Dafny model

This project models the core of `scripts/fetch_resolvers.py`, the batch job
that downloads the public DNS resolver directory from dnsdirectory.com and
publishes it as plain-text IP lists, JSON documents and a CSV file. The model
covers five parts and proves properties about each:

- **Record normalisation.** `Resolver.from_api_response` turns a raw API
  record into the 19-field `Resolver`. `to_json_dict` and `to_csv_row` are
  its two projections. They are in `records.dfy`.
- **Paginated fetch with bounded retry.** This is `DNSApiClient.fetch_all_servers`
  and `_fetch_page`, in `api_client.dfy`. The HTTP transport is replaced by a
  sequence of attempt outcomes per page.
- **Statistics.** This is `FileGenerator._calculate_stats`, in `statistics.dfy`.
  It uses the single-pass tallies, the stable descending-count sort in
  `ranking.dfy` and Python's `sorted` on strings in `strings.dfy`.
- **Grouping.** These are the `defaultdict(list)` loops of the per-country,
  per-country-IPv6 and per-continent generators, in `grouping.dfy`.
- **Rendering.** `txt_files.dfy` covers `_generate_txt_header`,
  `_write_txt_file`, the ten global TXT lists and the per-group TXT lists.
  `json_files.dfy` covers the per-country and per-continent JSON documents.

The model is mixed, like the program it follows. The source's loops are
methods with loop invariants:

- the page loop;
- the retry loop;
- the append-online loop;
- the tally loop of `_calculate_stats` and the `top_countries` loop;
- the grouping loops;
- the loops that write one file per group.

Each method is proved equal to a recursive specification function. The
properties the program promises are proved as lemmas about those
functions. The dict-building expressions, sorting, header construction and
projections are pure functions.

Python dicts keep insertion order. Each dict that is built in a loop is
therefore modelled as a pair: the sequence of keys in first-insertion
order, and a `map`. A generator that writes files returns what it writes:
the arguments of each `_write_txt_file` call (`TxtWrite`) or the JSON value
of each document (`JsonFile`), in the order the source writes them.

The model follows the code, including these behaviours:

- **Ties.** The country and organisation rankings keep input order among
  equal counts, because Python's `sorted` is stable. The model proves this
  (`Ranking.SortIsStable`).
- **Missing fields.** `from_api_response` never fails on a missing field.
  Every absent key takes its default.
- **No retries.** With `max_retries == 0`, `_fetch_page` makes no attempt and
  returns `None`. `fetch_all_servers` then fails on `None.get`. The model
  reports this as the failure `NoResponse` and counts no sleep.
- **Empty IP list.** A TXT list with no IPs is rendered as its header
  followed by an empty line (`TxtFiles.RenderLines`).

## Model

| member | source | states |
|---|---|---|
| Records.MissingKeysTakeDefaults | scripts/fetch_resolvers.py:88-110 | every absent key yields its default: `""` for strings, `False` for flags, `4` for the version, `0.0` for an absent or unparseable uptime |
| Records.PresentKeysCopied | scripts/fetch_resolvers.py:88-110 | a record with every key present is copied field for field: normalising the raw form of any resolver gives back that resolver |
| Records.PresentKeysTaken | scripts/fetch_resolvers.py:90-104 | for any raw record, each of the fifteen non-uptime fields whose key is present takes that key's value, whatever the other keys hold |
| Records.UptimesCoerced | scripts/fetch_resolvers.py:54-61 | each uptime is the parsed value when its key is present and parses, and `0.0` when the key is absent or the value does not parse |
| Records.JsonDictRoundTrip | scripts/fetch_resolvers.py:112-140 | the nested JSON layout of a resolver (`dnssec`, `blocking`, `uptime` sub-objects) loses no field: reading it back yields the resolver |
| Records.ToJsonDictLayout | scripts/fetch_resolvers.py:112-140 | `to_json_dict` has the thirteen top-level keys in order, and its `dnssec`, `blocking` and `uptime` members have their own keys in order |
| Records.ToCsvRow | scripts/fetch_resolvers.py:593-598 | a CSV row has exactly the 19 columns of the CSV header, in the header's order |
| Records.CsvRowRoundTrip | scripts/fetch_resolvers.py:142-164 | the flat CSV projection loses no field: reading the row back yields the resolver |
| ApiClient.Retry | scripts/fetch_resolvers.py:213-227 | at most `max_retries` attempts; success returns the first answer and takes one sleep per failure before it; failure means every attempt failed, raises the last attempt's error and takes `max_retries - 1` sleeps, so none after the last attempt |
| ApiClient.RetrySucceedsIffSomeAnswer | scripts/fetch_resolvers.py:213-227 | a page fetch succeeds if and only if one of the first `max_retries` attempts answers |
| ApiClient.FetchPage | scripts/fetch_resolvers.py:213-227 | the retry loop returns the result, attempt count and sleep count of the retry specification |
| ApiClient.RetryScenarios | scripts/fetch_resolvers.py:213-227 | with three retries, two failures then an answer succeed after two sleeps; three failures raise the third error after two sleeps |
| ApiClient.OnlineResolversExactly | scripts/fetch_resolvers.py:189-191 | a resolver is gathered from a page if and only if some online record of the page normalises to it; no more resolvers than records |
| ApiClient.OnlineResolversAppend | scripts/fetch_resolvers.py:189-191 | filtering two record runs one after the other equals filtering their concatenation, so page order is kept |
| ApiClient.OnlineFlagFilters | scripts/fetch_resolvers.py:190 | a record contributes its normalised resolver exactly when `dns_server_is_online` is true, at its place in the page; other records contribute nothing |
| ApiClient.AppendOnline | scripts/fetch_resolvers.py:189-191 | the in-page loop appends exactly the normalised online records, in order, to what was gathered |
| ApiClient.FetchAllServers | scripts/fetch_resolvers.py:179-202 | the page loop returns the result, last page and retry sleeps of the pagination specification, with one rate-limit sleep before each page after the first |
| ApiClient.FetchFromPages | scripts/fetch_resolvers.py:181-199 | pages are read in order; every page before the last was fetched and full; success holds if and only if the last page was fetched, and then that page is short and the result is the online records of all pages read, in page order then in-page order; failure carries the error of the last page's final attempt |
| ApiClient.FetchFromBounds | scripts/fetch_resolvers.py:181-199 | the loop starting at a page ends at that page or later, and never later than one page past the last page the API answers |
| ApiClient.FetchFromSleeps | scripts/fetch_resolvers.py:181-227 | the retry sleeps of a whole run are at most `max_retries - 1` per page read |
| Grouping.BucketMembers | scripts/fetch_resolvers.py:430-433 | a bucket holds exactly the resolvers that pass the loop's filter and carry its code |
| Grouping.Keys | scripts/fetch_resolvers.py:430-433 | the keys of the grouping dict are distinct and non-empty; every key has a non-empty bucket; every grouped resolver's code is a key |
| Grouping.KeysAreNonEmptyBuckets | scripts/fetch_resolvers.py:430-433 | a code is a key of the grouping dict if and only if it is non-empty and some resolver carries it |
| Grouping.GroupBy | scripts/fetch_resolvers.py:430-433 | the `defaultdict(list)` loop builds keys in first-seen order and maps each key to its bucket, in input order |
| Grouping.Partition | scripts/fetch_resolvers.py:430-435 | grouping then `sorted(by_code.items())` gives the groups specification |
| Grouping.GroupsShape | scripts/fetch_resolvers.py:430-435 | the groups come in strictly ascending code order; each code is non-empty with its non-empty bucket; every grouped resolver's code has a group |
| Grouping.GroupsConserve | scripts/fetch_resolvers.py:430-435 | the group sizes add up to the number of grouped resolvers, which is at most the number of resolvers |
| Grouping.BucketLast | scripts/fetch_resolvers.py:280-282 | the last element of a bucket is the last resolver in the input with that code |
| Ranking.SortByCountDesc | scripts/fetch_resolvers.py:287 | the ranking is in non-increasing count order and is a permutation of the items |
| Ranking.SortIsStable | scripts/fetch_resolvers.py:287 | among items of equal count, the ranking keeps input order |
| Ranking.SortKeepsSum | scripts/fetch_resolvers.py:287 | ranking keeps the sum of the counts |
| Strings.SortedSet | scripts/fetch_resolvers.py:348 | `sorted(set(xs))` is strictly increasing and holds exactly the members of `xs`, one per distinct value |
| Strings.SortedUnique | scripts/fetch_resolvers.py:322 | two strictly increasing sequences with the same members are equal, so the sorted key order is determined by the keys |
| Strings.ParseNatToString | scripts/fetch_resolvers.py:338 | the decimal text of a count reads back as that count |
| Statistics.CountWith | scripts/fetch_resolvers.py:311-319 | each `by_feature` count is at most the number of resolvers |
| Statistics.CountVersion | scripts/fetch_resolvers.py:270-271 | each IP-version count is at most the number of resolvers |
| Statistics.FirstWithCodeFinds | scripts/fetch_resolvers.py:290 | the `next(...)` search finds nothing if and only if no resolver has the code; otherwise it returns the first resolver with it |
| Statistics.Count | scripts/fetch_resolvers.py:278-279 | one step of a counting tally keeps it equal to the bucket sizes, with keys in first-insertion order |
| Statistics.CountContinent | scripts/fetch_resolvers.py:280-282 | one step of the continent tally keeps each entry's count equal to its bucket size and its name equal to the last continent name seen |
| Statistics.ContinentEntrySnoc | scripts/fetch_resolvers.py:280-282 | one more resolver changes only its own continent's entry: the name becomes its continent and the count grows by one |
| Statistics.TallyResolvers | scripts/fetch_resolvers.py:277-284 | after the loop, the country, continent and organisation tallies hold exactly the non-empty codes, with their bucket sizes |
| Statistics.TopCountries | scripts/fetch_resolvers.py:288-292 | the `top_countries` loop builds the country entries specification |
| Statistics.CountryEntriesAllFound | scripts/fetch_resolvers.py:288-292 | when every ranked code has a resolver, `top_countries` has one entry per ranked item, in ranked order, named after the first resolver with the code and carrying the item's count |
| Statistics.CalculateStats | scripts/fetch_resolvers.py:268-326 | the method returns the statistics specification for the resolvers, threshold and timestamp |
| Statistics.VersionsDisjoint | scripts/fetch_resolvers.py:270-271 | `servers_ipv4 + servers_ipv6 <= servers` |
| Statistics.AllOnline | scripts/fetch_resolvers.py:311 | the `online` count equals the number of resolvers |
| Statistics.DistinctCodes | scripts/fetch_resolvers.py:306-308 | a tally's size is the number of distinct non-empty codes among the resolvers |
| Statistics.TotalsBounds | scripts/fetch_resolvers.py:303-319 | the server counts, the tally sizes and the feature counts are bounded by `servers`, and `online` equals `servers` |
| Statistics.RankingConserves | scripts/fetch_resolvers.py:277-287 | the ranked counts add up to the number of resolvers with a non-empty code in that dimension |
| Statistics.ByCountry | scripts/fetch_resolvers.py:287-292 | `by_country` has one entry per country code, in ranked order; the counts are non-increasing and equal to the bucket sizes; each name is the country of the first resolver with the code; every resolver's code is present |
| Statistics.TopOrganizations | scripts/fetch_resolvers.py:295-296 | `top_organizations` has `min(20, organisations)` entries; each is an organisation with its positive count; the counts are non-increasing |
| Statistics.TopOrganizationsCutoff | scripts/fetch_resolvers.py:295 | an organisation left out of the top entries has no more resolvers than any organisation kept |
| Statistics.ByContinent | scripts/fetch_resolvers.py:321-323 | `by_continent` has one entry per continent code, in strictly ascending code order, each counting its bucket; every resolver's continent code is present |
| Statistics.ByContinentNames | scripts/fetch_resolvers.py:281 | each continent entry's name is the continent of the last resolver seen with the code |
| Statistics.ByContinentConserves | scripts/fetch_resolvers.py:280-323 | the `by_continent` counts add up to the number of resolvers with a continent code, at most `servers` |
| Statistics.ByCountryConserves | scripts/fetch_resolvers.py:278-292 | the `by_country` counts add up to the number of resolvers with a country code, at most `servers` |
| Statistics.StatsConsistent | scripts/fetch_resolvers.py:268-326 | the statistics document agrees with itself: `last_updated` is the timestamp; `by_continent` and `by_country` have `totals.continents` and `totals.countries` entries; `top_organizations` has `min(20, organizations)`; both tallies count at most `servers`; IPv4 plus IPv6 is at most `servers`; `online` equals `servers` |
| TxtFiles.HeaderLines | scripts/fetch_resolvers.py:332-344 | the header has five lines, or seven when a non-empty usage example is given; it holds the title, the timestamp, the Total line and the usage line; every line starts with `#` |
| TxtFiles.TotalLineReadsBack | scripts/fetch_resolvers.py:338 | the digits between `# Total: ` and ` servers` read back as the count |
| TxtFiles.WriteTxtFileLists | scripts/fetch_resolvers.py:346-350 | the IP lines are strictly increasing and are exactly the IPs of the resolvers; the Total line counts the distinct IPs, not the records |
| TxtFiles.WriteTxtFileSameIps | scripts/fetch_resolvers.py:346-349 | two resolver lists with the same set of IPs give the same file: record order and duplicates do not matter |
| TxtFiles.RenderLines | scripts/fetch_resolvers.py:350 | the file text is the header and IP lines joined by newlines and ended by one; with no IPs, an empty line follows the header |
| TxtFiles.Kept | scripts/fetch_resolvers.py:357-358 | a global list keeps exactly the resolvers of its IP version that have its feature |
| TxtFiles.GlobalWrites | scripts/fetch_resolvers.py:353-424 | `_generate_global_txt_files` writes one file per global list, ten in all |
| TxtFiles.GlobalListsExact | scripts/fetch_resolvers.py:353-424 | each global list goes to its path and holds, ascending and once each, exactly the IPs of the resolvers of its version with its feature |
| TxtFiles.GlobalListsWithinAll | scripts/fetch_resolvers.py:357-424 | every IPv4 list is contained in all.txt and every IPv6 list in all-ipv6.txt |
| TxtFiles.WriteGroups | scripts/fetch_resolvers.py:435-442 | the loop over the sorted groups writes one file per group, in order |
| TxtFiles.GroupWriteHeader | scripts/fetch_resolvers.py:426-477 | a group's list goes to `<directory>/<code>.txt`; its title names the first resolver's country (continent for continent lists), or the code for an empty group, and ends in ` - IPv6` for IPv6 lists; IPv6 lists have a five-line header without usage, the others seven lines with the massdns example for `<code>.txt` |
| TxtFiles.GenerateGroupTxtFiles | scripts/fetch_resolvers.py:426-477 | grouping then writing produces the per-group writes specification for the IPv4 country, IPv6 country and continent lists |
| TxtFiles.GroupTxtPathsDistinct | scripts/fetch_resolvers.py:426-477 | no two per-group lists of one generator share a path |
| TxtFiles.GroupTxtFileExact | scripts/fetch_resolvers.py:426-477 | the i-th list belongs to the i-th code in ascending order; it has that code's path; its Total line counts its IPs; it holds exactly the IPs of the resolvers grouped under the code |
| TxtFiles.GroupTxtFilesCover | scripts/fetch_resolvers.py:426-477 | every grouped resolver's IP appears in the list of its code |
| JsonFiles.DecodeJsonList | scripts/fetch_resolvers.py:551 | the `resolvers` array of a document reads back as the group, element by element, in order |
| JsonFiles.DocumentLayout | scripts/fetch_resolvers.py:541-552 | a document has `metadata` then `resolvers`; the metadata holds the code, the first resolver's name, for a country its continent code and name, the timestamp and `total_servers` equal to the group size |
| JsonFiles.GroupDocumentRoundTrip | scripts/fetch_resolvers.py:540-574 | a per-country or per-continent document reads back as its code, the first resolver's name, for a country that resolver's continent code and name, the timestamp, the group size and the whole group |
| JsonFiles.WriteGroups | scripts/fetch_resolvers.py:540-553 | the loop over the sorted groups builds one document per group, in order |
| JsonFiles.GenerateGroupJsonFiles | scripts/fetch_resolvers.py:531-575 | grouping then writing produces the per-group documents specification |
| JsonFiles.GroupJsonFileExact | scripts/fetch_resolvers.py:531-575 | the i-th document belongs to the i-th code in ascending order and has that code's path; it reads back with a positive `total_servers` equal to the number of its resolvers; those resolvers are exactly the ones carrying the code, in input order |
| JsonFiles.GroupJsonFilesCover | scripts/fetch_resolvers.py:531-575 | every resolver with a code appears in the document of its code |

## Left out

- HTTP: `requests.Session.get`, `raise_for_status`, `response.json()` and the request parameters are foreign network calls. A page is a sequence of attempt outcomes: an error message, or a body whose `data` list is given. Pages beyond the given ones never answer.
- Sleeps: `time.sleep` is not performed. The model only counts the rate-limit sleeps and the retry sleeps. The durations (`retry_delay`, `rate_limit_delay`) and `request_timeout` are not modelled.
- `_to_float`: Python float parsing is left out. An uptime is either a real number or unparseable, and unparseable becomes `0.0`.
- Records.FromApiResponse: a present key is assumed to hold a value of its field's declared type. Python copies a value of any type unchanged. In particular, a key present with JSON null makes `data.get` return `None`, not the default (lines 91-105); a `None` IP then makes `sorted(set(...))` raise at line 348. The typed raw record cannot express either case.
- The truthiness test on `dns_server_is_online` is modelled for a boolean value only.
- `json.dumps` and `csv.DictWriter` are serialisation libraries. A JSON document is a JSON value, and a CSV row is its sequence of column cells.
- File writes, `mkdir` and path handling are filesystem I/O. The generators return the writes they would make, in order.
- `datetime.now`: the timestamp is a parameter.
- High-uptime title: the threshold's text in this title is a parameter, because it is Python float formatting.
- `Config.from_env` reads the environment. `main` handles exit codes, including the empty-result abort. All logging is left out.
- `generate_all` only calls the generators in sequence; it is not modelled.
- `_generate_main_json`, `_generate_minimal_json`, `_generate_stats_json` and `_generate_csv` are not modelled. They re-project the statistics and the records and write them to a file. `to_csv_row` and its column list are modelled.
- ApiClient.FetchAllServers: an exception propagating out of the loop is modelled as a `Failure` result. Python's exception types are not distinguished.
- ApiClient.FetchAllServers: the transport is a finite sequence of pages, so the modelled loop ends on every input. The source loops for as long as the API keeps answering full pages. With `per_page <= 0`, the short-page test at line 195 never holds, and the source stops only on a failed page.
