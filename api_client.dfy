/**
 * `DNSApiClient`: one page fetched with bounded retry (`_fetch_page`) and the
 * pagination loop that accumulates the online resolvers (`fetch_all_servers`).
 *
 * The HTTP transport is replaced by a script of outcomes: for page `p`
 * (numbered from 1) `transport[p - 1]` lists what successive attempts to
 * fetch that page produce. An attempt beyond the script, and any page
 * beyond it, gets no answer. Sleeps are counted, not performed.
 */
module ApiClient {
  import opened Wrappers
  import opened Records

  /** The parts of `Config` that decide what is fetched. */
  datatype Config = Config(maxRetries: nat, perPage: nat)

  /** The decoded JSON body of a response; `data` is absent when the body has no "data" key. */
  datatype Body = Body(data: Option<seq<RawRecord>>)

  /** One HTTP attempt: a decoded 2xx response, or a `RequestException` carrying its message. */
  datatype Attempt = Answered(body: Body) | Failed(message: string)

  datatype FetchError =
    | RequestFailed(message: string)  // the last attempt's exception, re-raised
    | NoResponse                      // max_retries == 0: `_fetch_page` returns None and `None.get` raises

  const NO_ANSWER := "no answer"

  function AttemptAt(attempts: seq<Attempt>, i: nat): Attempt
  {
    if i < |attempts| then attempts[i] else Failed(NO_ANSWER)
  }

  // ---------------------------------------------------------------------------
  // _fetch_page
  // ---------------------------------------------------------------------------

  /** The index of the first answered attempt in [from, limit), or `limit` if every one fails. */
  function FirstAnswer(attempts: seq<Attempt>, from: nat, limit: nat): (k: nat)
    requires from <= limit
    ensures from <= k <= limit
    ensures forall j :: from <= j < k ==> AttemptAt(attempts, j).Failed?
    ensures k < limit ==> AttemptAt(attempts, k).Answered?
    decreases limit - from
  {
    if from == limit then limit
    else if AttemptAt(attempts, from).Answered? then from
    else FirstAnswer(attempts, from + 1, limit)
  }

  /** What one call of `_fetch_page` does: its outcome, the attempts it made, the retry sleeps it took. */
  datatype PageFetch = PageFetch(result: Result<Body, FetchError>, tries: nat, sleeps: nat)

  /**
   * The retry policy. At most `maxRetries` attempts; the first answer is
   * returned; one sleep follows each failed attempt except the last allowed
   * one; when every attempt fails the last failure is raised.
   */
  function Retry(attempts: seq<Attempt>, maxRetries: nat): (o: PageFetch)
    ensures o.tries <= maxRetries
    ensures o.result.Success? ==>
      && 1 <= o.tries
      && AttemptAt(attempts, o.tries - 1) == Answered(o.result.value)
      && (forall j :: 0 <= j < o.tries - 1 ==> AttemptAt(attempts, j).Failed?)
      && o.sleeps == o.tries - 1
    ensures o.result.Failure? ==>
      && o.tries == maxRetries
      && (forall j :: 0 <= j < maxRetries ==> AttemptAt(attempts, j).Failed?)
      && (maxRetries == 0 ==> o.result.error == NoResponse && o.sleeps == 0)
      && (maxRetries > 0 ==>
            o.result.error == RequestFailed(AttemptAt(attempts, maxRetries - 1).message)
            && o.sleeps == maxRetries - 1)
  {
    var k := FirstAnswer(attempts, 0, maxRetries);
    if k < maxRetries then PageFetch(Success(AttemptAt(attempts, k).body), k + 1, k)
    else if maxRetries == 0 then PageFetch(Failure(NoResponse), 0, 0)
    else PageFetch(Failure(RequestFailed(AttemptAt(attempts, maxRetries - 1).message)), maxRetries, maxRetries - 1)
  }

  /** The page is fetched if and only if one of the allowed attempts is answered. */
  lemma RetrySucceedsIffSomeAnswer(attempts: seq<Attempt>, maxRetries: nat)
    ensures Retry(attempts, maxRetries).result.Success?
        <==> exists k :: 0 <= k < maxRetries && AttemptAt(attempts, k).Answered?
  {
    var o := Retry(attempts, maxRetries);
    if o.result.Success? {
      assert AttemptAt(attempts, o.tries - 1).Answered?;
    }
  }

  /**
   * `_fetch_page`: the `for attempt in range(max_retries)` loop, with the
   * request made by reading the next scripted attempt.
   */
  method FetchPage(attempts: seq<Attempt>, maxRetries: nat) returns (result: Result<Body, FetchError>, tries: nat, sleeps: nat)
    ensures PageFetch(result, tries, sleeps) == Retry(attempts, maxRetries)
  {
    var attempt := 0;
    sleeps := 0;
    while attempt < maxRetries
      invariant attempt <= maxRetries
      invariant maxRetries > 0 ==> attempt < maxRetries
      invariant sleeps == attempt
      invariant forall j :: 0 <= j < attempt ==> AttemptAt(attempts, j).Failed?
    {
      match AttemptAt(attempts, attempt)
      case Answered(body) =>
        return Success(body), attempt + 1, sleeps;
      case Failed(message) =>
        if attempt < maxRetries - 1 {
          sleeps := sleeps + 1;
        } else {
          return Failure(RequestFailed(message)), attempt + 1, sleeps;
        }
      attempt := attempt + 1;
    }
    return Failure(NoResponse), 0, sleeps;
  }

  // ---------------------------------------------------------------------------
  // fetch_all_servers
  // ---------------------------------------------------------------------------

  function PageAttempts(transport: seq<seq<Attempt>>, page: nat): seq<Attempt>
  {
    if 1 <= page <= |transport| then transport[page - 1] else []
  }

  /** `data.get("data", [])`: the raw records of a page. */
  function Items(body: Body): seq<RawRecord>
  {
    body.data.GetOr([])
  }

  /** The online records of one page, normalised, in page order. */
  function OnlineResolvers(items: seq<RawRecord>): seq<Resolver>
  {
    if items == [] then []
    else
      var last := items[|items| - 1];
      OnlineResolvers(items[..|items| - 1]) + (if IsOnline(last) then [FromApiResponse(last)] else [])
  }

  /** Filtering distributes over concatenation: order across pages is kept. */
  lemma {:induction false} OnlineResolversAppend(a: seq<RawRecord>, b: seq<RawRecord>)
    ensures OnlineResolvers(a + b) == OnlineResolvers(a) + OnlineResolvers(b)
    decreases |b|
  {
    if b == [] {
      assert a + b == a;
    } else {
      var init := b[..|b| - 1];
      assert (a + b)[..|a + b| - 1] == a + init;
      OnlineResolversAppend(a, init);
    }
  }

  /** A resolver is kept exactly when it is the normalisation of an online record of the page. */
  lemma {:induction false} OnlineResolversExactly(items: seq<RawRecord>, r: Resolver)
    ensures r in OnlineResolvers(items)
        <==> exists i :: 0 <= i < |items| && IsOnline(items[i]) && FromApiResponse(items[i]) == r
    ensures |OnlineResolvers(items)| <= |items|
  {
    if items != [] {
      var init := items[..|items| - 1];
      OnlineResolversExactly(init, r);
      if exists i :: 0 <= i < |init| && IsOnline(init[i]) && FromApiResponse(init[i]) == r {
        var i :| 0 <= i < |init| && IsOnline(init[i]) && FromApiResponse(init[i]) == r;
        assert items[i] == init[i];
      }
      if exists i :: 0 <= i < |items| && IsOnline(items[i]) && FromApiResponse(items[i]) == r {
        var i :| 0 <= i < |items| && IsOnline(items[i]) && FromApiResponse(items[i]) == r;
        if i < |init| {
          assert init[i] == items[i];
        }
      }
    }
  }

  /**
   * The online test of `fetch_all_servers` on one record among others: a
   * record whose `dns_server_is_online` is true is normalised in its place,
   * one whose flag is false or absent is skipped.
   */
  lemma OnlineFlagFilters(a: seq<RawRecord>, raw: RawRecord, b: seq<RawRecord>)
    ensures OnlineResolvers(a + [raw] + b)
         == OnlineResolvers(a) + (if raw.isOnline == Some(true) then [FromApiResponse(raw)] else []) + OnlineResolvers(b)
  {
    OnlineResolversAppend(a + [raw], b);
    assert (a + [raw])[..|a|] == a;
  }

  /** The outcome of the whole fetch, the page it stopped at, and the retry sleeps it took. */
  datatype FetchRun = FetchRun(result: Result<seq<Resolver>, FetchError>, lastPage: nat, retrySleeps: nat)

  /**
   * The pagination loop from page `page` on: fetch the page (with retry),
   * keep its online records, stop at the first page shorter than `perPage`,
   * and stop with the error when a page cannot be fetched.
   */
  function FetchFrom(cfg: Config, transport: seq<seq<Attempt>>, page: nat): FetchRun
    requires page >= 1
    decreases |transport| + 1 - page
  {
    var o := Retry(PageAttempts(transport, page), cfg.maxRetries);
    match o.result
    case Failure(e) => FetchRun(Failure(e), page, o.sleeps)
    case Success(body) =>
      var items := Items(body);
      if |items| < cfg.perPage then FetchRun(Success(OnlineResolvers(items)), page, o.sleeps)
      else
        assert page <= |transport| by {
          assert AttemptAt(PageAttempts(transport, page), o.tries - 1).Answered?;
        }
        var rest := FetchFrom(cfg, transport, page + 1);
        FetchRun(Prepend(OnlineResolvers(items), rest.result), rest.lastPage, o.sleeps + rest.retrySleeps)
  }

  function Prepend(front: seq<Resolver>, result: Result<seq<Resolver>, FetchError>): Result<seq<Resolver>, FetchError>
  {
    match result
    case Success(rest) => Success(front + rest)
    case Failure(e) => Failure(e)
  }

  /** A run from some page on, seen from the start: `acc` already gathered, `sleeps` already taken. */
  function Resume(acc: seq<Resolver>, sleeps: nat, run: FetchRun): FetchRun
  {
    FetchRun(Prepend(acc, run.result), run.lastPage, sleeps + run.retrySleeps)
  }

  /** After a full page the run continues with the next page, its online records gathered. */
  lemma ResumeAfterFullPage(cfg: Config, transport: seq<seq<Attempt>>, page: nat,
                            acc: seq<Resolver>, sleeps: nat, o: PageFetch)
    requires page >= 1
    requires o == Retry(PageAttempts(transport, page), cfg.maxRetries) && o.result.Success?
    requires |Items(o.result.value)| >= cfg.perPage
    ensures page <= |transport|
    ensures Resume(acc, sleeps, FetchFrom(cfg, transport, page))
         == Resume(acc + OnlineResolvers(Items(o.result.value)), sleeps + o.sleeps, FetchFrom(cfg, transport, page + 1))
  {
    assert AttemptAt(PageAttempts(transport, page), o.tries - 1).Answered?;
    var rest := FetchFrom(cfg, transport, page + 1);
    match rest.result
    case Success(tail) =>
      assert acc + (OnlineResolvers(Items(o.result.value)) + tail)
          == (acc + OnlineResolvers(Items(o.result.value))) + tail;
    case Failure(_) =>
  }

  /** Where the run stops at `page`: on a failed fetch, or on a page shorter than `perPage`. */
  lemma ResumeAtStop(cfg: Config, transport: seq<seq<Attempt>>, page: nat,
                     acc: seq<Resolver>, sleeps: nat, o: PageFetch)
    requires page >= 1
    requires o == Retry(PageAttempts(transport, page), cfg.maxRetries)
    ensures o.result.Failure? ==>
      Resume(acc, sleeps, FetchFrom(cfg, transport, page)) == FetchRun(Failure(o.result.error), page, sleeps + o.sleeps)
    ensures o.result.Success? && |Items(o.result.value)| < cfg.perPage ==>
      Resume(acc, sleeps, FetchFrom(cfg, transport, page))
        == FetchRun(Success(acc + OnlineResolvers(Items(o.result.value))), page, sleeps + o.sleeps)
  {
  }

  /** The loop over one page's records: each online record is normalised and appended. */
  method AppendOnline(acc: seq<Resolver>, servers: seq<RawRecord>) returns (all: seq<Resolver>)
    ensures all == acc + OnlineResolvers(servers)
  {
    all := acc;
    for i := 0 to |servers|
      invariant all == acc + OnlineResolvers(servers[..i])
    {
      assert servers[..i + 1][..i] == servers[..i];
      if IsOnline(servers[i]) {
        all := all + [FromApiResponse(servers[i])];
      }
    }
    assert servers[..|servers|] == servers;
  }

  /**
   * `fetch_all_servers`. Returns the result, the number of the last page
   * requested, and the rate-limit and retry sleeps taken along the way.
   */
  method FetchAllServers(cfg: Config, transport: seq<seq<Attempt>>)
    returns (result: Result<seq<Resolver>, FetchError>, page: nat, rateSleeps: nat, retrySleeps: nat)
    ensures FetchRun(result, page, retrySleeps) == FetchFrom(cfg, transport, 1)
    ensures page >= 1 && rateSleeps == page - 1
  {
    var allServers: seq<Resolver> := [];
    page := 1;
    rateSleeps, retrySleeps := 0, 0;
    assert Resume([], 0, FetchFrom(cfg, transport, 1)) == FetchFrom(cfg, transport, 1) by {
      assert forall xs: seq<Resolver> :: [] + xs == xs;
    }
    while true
      invariant page >= 1 && rateSleeps == page - 1
      invariant Resume(allServers, retrySleeps, FetchFrom(cfg, transport, page)) == FetchFrom(cfg, transport, 1)
      decreases |transport| + 1 - page
    {
      var data, tries, sleeps := FetchPage(PageAttempts(transport, page), cfg.maxRetries);
      ghost var o := PageFetch(data, tries, sleeps);
      ResumeAtStop(cfg, transport, page, allServers, retrySleeps, o);
      if data.Failure? {
        return Failure(data.error), page, rateSleeps, retrySleeps + sleeps;
      }
      var servers := Items(data.value);
      ghost var before := allServers;
      allServers := AppendOnline(allServers, servers);
      if |servers| < cfg.perPage {
        return Success(allServers), page, rateSleeps, retrySleeps + sleeps;
      }
      ResumeAfterFullPage(cfg, transport, page, before, retrySleeps, o);
      retrySleeps := retrySleeps + sleeps;
      page := page + 1;
      rateSleeps := rateSleeps + 1;
    }
  }

  // ---------------------------------------------------------------------------
  // What the pagination loop returns
  // ---------------------------------------------------------------------------

  /** The raw records page `page` yields, when its fetch (with retry) succeeds. */
  function Served(cfg: Config, transport: seq<seq<Attempt>>, page: nat): Option<seq<RawRecord>>
  {
    var o := Retry(PageAttempts(transport, page), cfg.maxRetries);
    if o.result.Success? then Some(Items(o.result.value)) else None
  }

  /** The online records of pages `from` through `to`, in page order and in-page order. */
  function OnlineAcross(cfg: Config, transport: seq<seq<Attempt>>, from: nat, to: nat): seq<Resolver>
    decreases to + 1 - from
  {
    if from > to then []
    else OnlineResolvers(Served(cfg, transport, from).GetOr([])) + OnlineAcross(cfg, transport, from + 1, to)
  }

  /**
   * The pagination contract. Pages are requested in order from `page` up to
   * `lastPage`; every page before `lastPage` was fetched and full. On success
   * `lastPage` is the first page shorter than `perPage` and the result is
   * exactly the online records of the pages read, in page order then in-page
   * order. On failure `lastPage` is the page whose every attempt failed, and
   * its error is the one raised.
   */
  lemma FetchFromPages(cfg: Config, transport: seq<seq<Attempt>>, page: nat)
    requires page >= 1
    ensures var run := FetchFrom(cfg, transport, page);
      && page <= run.lastPage
      && (forall p :: page <= p < run.lastPage ==>
            Served(cfg, transport, p).Some? && |Served(cfg, transport, p).value| >= cfg.perPage)
      && (run.result.Success? <==> Served(cfg, transport, run.lastPage).Some?)
      && (run.result.Success? ==>
            && |Served(cfg, transport, run.lastPage).value| < cfg.perPage
            && run.result.value == OnlineAcross(cfg, transport, page, run.lastPage))
      && (run.result.Failure? ==>
            run.result.error == Retry(PageAttempts(transport, run.lastPage), cfg.maxRetries).result.error)
  {
    PagesBeforeLast(cfg, transport, page);
    LastPageOutcome(cfg, transport, page);
  }

  /** Every page before the last one requested was fetched and full. */
  lemma {:induction false} PagesBeforeLast(cfg: Config, transport: seq<seq<Attempt>>, page: nat)
    requires page >= 1
    ensures var run := FetchFrom(cfg, transport, page);
      && page <= run.lastPage
      && forall p :: page <= p < run.lastPage ==>
           Served(cfg, transport, p).Some? && |Served(cfg, transport, p).value| >= cfg.perPage
    decreases |transport| + 1 - page
  {
    var o := Retry(PageAttempts(transport, page), cfg.maxRetries);
    if o.result.Success? && |Items(o.result.value)| >= cfg.perPage {
      assert AttemptAt(PageAttempts(transport, page), o.tries - 1).Answered?;
      PagesBeforeLast(cfg, transport, page + 1);
    }
  }

  /** How the run ends at its last page, and what a successful run gathered. */
  lemma {:induction false} LastPageOutcome(cfg: Config, transport: seq<seq<Attempt>>, page: nat)
    requires page >= 1
    ensures var run := FetchFrom(cfg, transport, page);
      && (run.result.Success? <==> Served(cfg, transport, run.lastPage).Some?)
      && (run.result.Success? ==>
            && |Served(cfg, transport, run.lastPage).value| < cfg.perPage
            && run.result.value == OnlineAcross(cfg, transport, page, run.lastPage))
      && (run.result.Failure? ==>
            run.result.error == Retry(PageAttempts(transport, run.lastPage), cfg.maxRetries).result.error)
    decreases |transport| + 1 - page
  {
    var o := Retry(PageAttempts(transport, page), cfg.maxRetries);
    if o.result.Success? && |Items(o.result.value)| >= cfg.perPage {
      assert AttemptAt(PageAttempts(transport, page), o.tries - 1).Answered?;
      LastPageOutcome(cfg, transport, page + 1);
      PagesBeforeLast(cfg, transport, page + 1);
      var rest := FetchFrom(cfg, transport, page + 1);
      assert OnlineAcross(cfg, transport, page, rest.lastPage)
          == OnlineResolvers(Items(o.result.value)) + OnlineAcross(cfg, transport, page + 1, rest.lastPage);
    } else if o.result.Success? {
      assert OnlineAcross(cfg, transport, page + 1, page) == [];
    }
  }

  /** The run requests no page past the first one beyond the transport. */
  lemma {:induction false} FetchFromBounds(cfg: Config, transport: seq<seq<Attempt>>, page: nat)
    requires page >= 1
    ensures var run := FetchFrom(cfg, transport, page);
      page <= run.lastPage <= (if page > |transport| then page else |transport| + 1)
    decreases |transport| + 1 - page
  {
    var o := Retry(PageAttempts(transport, page), cfg.maxRetries);
    if o.result.Success? {
      assert AttemptAt(PageAttempts(transport, page), o.tries - 1).Answered?;
      if |Items(o.result.value)| >= cfg.perPage {
        FetchFromBounds(cfg, transport, page + 1);
      }
    }
  }

  /** Each page the run requests costs at most `maxRetries - 1` retry sleeps. */
  lemma {:induction false} FetchFromSleeps(cfg: Config, transport: seq<seq<Attempt>>, page: nat)
    requires page >= 1
    ensures var run := FetchFrom(cfg, transport, page);
      && page <= run.lastPage
      && run.retrySleeps <= (run.lastPage - page + 1) * (if cfg.maxRetries == 0 then 0 else cfg.maxRetries - 1)
    decreases |transport| + 1 - page
  {
    var o := Retry(PageAttempts(transport, page), cfg.maxRetries);
    var m := if cfg.maxRetries == 0 then 0 else cfg.maxRetries - 1;
    assert o.sleeps <= m;
    if o.result.Success? && |Items(o.result.value)| >= cfg.perPage {
      assert AttemptAt(PageAttempts(transport, page), o.tries - 1).Answered?;
      FetchFromSleeps(cfg, transport, page + 1);
      var rest := FetchFrom(cfg, transport, page + 1);
      assert FetchFrom(cfg, transport, page).retrySleeps == o.sleeps + rest.retrySleeps;
      assert FetchFrom(cfg, transport, page).lastPage == rest.lastPage;
      OneMorePage(rest.lastPage - (page + 1) + 1, m);
    } else {
      assert FetchFrom(cfg, transport, page).lastPage == page;
      assert FetchFrom(cfg, transport, page).retrySleeps == o.sleeps;
      OneMorePage(0, m);
    }
  }

  lemma OneMorePage(n: nat, m: nat)
    ensures (n + 1) * m == n * m + m
  {
  }

  /** The scenario of a page that fails twice and then answers, and of one that never answers. */
  lemma RetryScenarios(first: string, second: string, third: string, body: Body)
    ensures Retry([Failed(first), Failed(second), Answered(body)], 3) == PageFetch(Success(body), 3, 2)
    ensures Retry([Failed(first), Failed(second), Failed(third)], 3) == PageFetch(Failure(RequestFailed(third)), 3, 2)
  {
  }
}
