/**
 * The retrying ScrapeGraph service
 * (`scrapecraft-repo/backend/app/services/scraping_service_enhanced.py`):
 * the classification of client failures into the service's exception
 * classes, tenacity's retry decorator (three attempts, retrying only
 * `APIError` and `aiohttp.ClientError`), the outcome rules of the search,
 * the parsing of a search reply, and the per-URL records of
 * `scrape_multiple`. Each client call is a parameter: what attempt `k`
 * of the call returns or raises. Back-off waits and timestamps are left out.
 */
module EnhancedScraping {
  import opened Base
  import opened ScrapeGraph

  /**
   * The exception classes in play: the service's own three (`APIError` and
   * `RateLimitError` subclass `ScrapingError`), `aiohttp.ClientError`, and
   * any other exception, such as an `AttributeError`.
   */
  datatype ErrorKind = ScrapingError | ApiError | RateLimitError | ClientError | OtherError

  datatype Exc = Exc(kind: ErrorKind, message: string)

  /** At most this many attempts (`stop_after_attempt(3)`). */
  const MaxAttempts := 3

  /** The exceptions `retry_if_exception_type((APIError, aiohttp.ClientError))` retries. */
  predicate Retryable(e: Exc)
  {
    e.kind == ApiError || e.kind == ClientError
  }

  predicate ServerErrorText(message: string)
  {
    Contains(message, "500") || Contains(message, "503")
  }

  /**
   * The `except Exception` branch of `smart_scraper`: a message naming a
   * 500 or 503 becomes `APIError`, else one naming 429 or a rate limit
   * (in any case) becomes `RateLimitError`, else `ScrapingError`.
   */
  function Classify(message: string): (e: Exc)
    ensures e.kind == ApiError <==> ServerErrorText(message)
    ensures e.kind == RateLimitError <==>
              !ServerErrorText(message) && (Contains(message, "429") || Contains(Lower(message), "rate limit"))
    ensures e.kind == ScrapingError <==>
              !ServerErrorText(message) && !Contains(message, "429") && !Contains(Lower(message), "rate limit")
    ensures e.kind == ApiError ==> e.message == "API server error: " + message
    ensures e.kind == RateLimitError ==> e.message == "Rate limit exceeded: " + message
    ensures e.kind == ScrapingError ==> e.message == "Scraping failed: " + message
  {
    if ServerErrorText(message) then Exc(ApiError, "API server error: " + message)
    else if Contains(message, "429") || Contains(Lower(message), "rate limit") then Exc(RateLimitError, "Rate limit exceeded: " + message)
    else Exc(ScrapingError, "Scraping failed: " + message)
  }

  /** What one client call does: return a reply, run past the timeout, or raise. */
  datatype CallOutcome = CallReturned(reply: Json) | CallTimedOut | CallRaised(error: Exc)

  /** Python's name for the type of a JSON value. */
  function TypeName(j: Json): string
  {
    match j
    case JNull => "NoneType"
    case JBool(_) => "bool"
    case JNum(_) => "int"
    case JText(_) => "str"
    case JList(_) => "list"
    case JObject(_) => "dict"
  }

  /** A successful `smart_scraper` result: the URL and the `result` entry of the reply, or the whole reply. */
  datatype Scraped = Scraped(url: string, data: Json)

  /**
   * One attempt of `smart_scraper`. A dict reply succeeds; `result.get`
   * on any other reply raises `AttributeError`, which the catch-all
   * classifies like any other failure; a timeout becomes `ScrapingError`.
   */
  function SmartScraperAttempt(url: string, timeout: int, call: CallOutcome): (r: Result<Scraped, Exc>)
    ensures r.Ok? <==> call.CallReturned? && call.reply.JObject?
    ensures r.Ok? ==> r.value.url == url
    ensures r.Ok? && "result" in Keys(call.reply.fields) ==> Some(r.value.data) == Get(call.reply.fields, "result")
    ensures r.Ok? && "result" !in Keys(call.reply.fields) ==> r.value.data == call.reply
    ensures r.Err? ==> r.error.kind in {ScrapingError, ApiError, RateLimitError}
    ensures call.CallTimedOut? ==> r == Err(Exc(ScrapingError, "Scraping timeout after " + IntToString(timeout) + " seconds"))
    ensures call.CallRaised? ==> r == Err(Classify(call.error.message))
  {
    match call
    case CallTimedOut => Err(Exc(ScrapingError, "Scraping timeout after " + IntToString(timeout) + " seconds"))
    case CallRaised(e) => Err(Classify(e.message))
    case CallReturned(reply) =>
      if reply.JObject? then Ok(Scraped(url, Get(reply.fields, "result").GetOr(reply)))
      else Err(Classify("'" + TypeName(reply) + "' object has no attribute 'get'"))
  }

  // ---------------------------------------------------------------------
  // Retrying
  // ---------------------------------------------------------------------

  /**
   * How a retried call ends: with a value, with an exception that is not
   * retried (re-raised as it is), or with tenacity's `RetryError` around
   * the last retryable exception once the attempts are used up.
   */
  datatype Final<T> = Done(value: T) | Thrown(error: Exc) | GaveUp(last: Exc)

  datatype Retried<T> = Retried(final: Final<T>, attempts: nat)

  /** The decorator from attempt `k` on. */
  function RunWithRetry<T>(attempt: nat -> Result<T, Exc>, k: nat): (r: Retried<T>)
    requires k < MaxAttempts
    ensures k < r.attempts <= MaxAttempts
    ensures forall j :: k <= j < r.attempts - 1 ==> attempt(j).Err? && Retryable(attempt(j).error)
    ensures var last := attempt(r.attempts - 1);
            && (r.final.Done? <==> last.Ok?)
            && (last.Ok? ==> r.final == Done(last.value))
            && (last.Err? && !Retryable(last.error) ==> r.final == Thrown(last.error))
            && (last.Err? && Retryable(last.error) ==> r.final == GaveUp(last.error) && r.attempts == MaxAttempts)
    decreases MaxAttempts - k
  {
    var o := attempt(k);
    if o.Ok? then Retried(Done(o.value), k + 1)
    else if !Retryable(o.error) then Retried(Thrown(o.error), k + 1)
    else if k + 1 == MaxAttempts then Retried(GaveUp(o.error), k + 1)
    else RunWithRetry(attempt, k + 1)
  }

  function WithRetry<T>(attempt: nat -> Result<T, Exc>): (r: Retried<T>)
    ensures 1 <= r.attempts <= MaxAttempts
    ensures forall j :: 0 <= j < r.attempts - 1 ==> attempt(j).Err? && Retryable(attempt(j).error)
    ensures var last := attempt(r.attempts - 1);
            && (r.final.Done? <==> last.Ok?)
            && (last.Ok? ==> r.final == Done(last.value))
            && (last.Err? && !Retryable(last.error) ==> r.final == Thrown(last.error))
            && (last.Err? && Retryable(last.error) ==> r.final == GaveUp(last.error) && r.attempts == MaxAttempts)
  {
    RunWithRetry(attempt, 0)
  }

  /** An exception that is not retried ends the call at the attempt that raised it. */
  lemma {:induction false} NotRetried<T>(attempt: nat -> Result<T, Exc>, j: nat, k: nat)
    requires j <= k < MaxAttempts
    requires forall i :: j <= i < k ==> attempt(i).Err? && Retryable(attempt(i).error)
    requires attempt(k).Err? && !Retryable(attempt(k).error)
    ensures RunWithRetry(attempt, j) == Retried(Thrown(attempt(k).error), k + 1)
    decreases k - j
  {
    if j < k {
      NotRetried(attempt, j + 1, k);
    }
  }

  /**
   * `smart_scraper` with its retry decorator as its logging hook was
   * meant to run: between attempts. Attempt `k` makes the call `calls(k)`.
   */
  function SmartScraper(url: string, timeout: int, calls: nat -> CallOutcome): (r: Retried<Scraped>)
    ensures 1 <= r.attempts <= MaxAttempts
    ensures r.final.Done? ==> r.final.value.url == url
  {
    var attempt := (k: nat) => SmartScraperAttempt(url, timeout, calls(k));
    var r := WithRetry(attempt);
    assert attempt(r.attempts - 1) == SmartScraperAttempt(url, timeout, calls(r.attempts - 1));
    r
  }

  /**
   * The `AttributeError` of the decorator's `before` hook: tenacity runs
   * it before every attempt, the first included, while the attempt has
   * no outcome yet, so `retry_state.outcome.exception()` is called on `None`.
   */
  const BeforeHookError := Exc(OtherError, "'NoneType' object has no attribute 'exception'")

  /**
   * `smart_scraper` as its decorator is written: the `before` hook raises
   * ahead of the first attempt, tenacity does not catch what a hook
   * raises, and so no client call is ever made.
   */
  function SmartScraperAsWritten(url: string, timeout: int, calls: nat -> CallOutcome): (r: Retried<Scraped>)
    ensures r.attempts == 0
    ensures r.final == Thrown(BeforeHookError)
    ensures !Retryable(r.final.error)
  {
    Retried(Thrown(BeforeHookError), 0)
  }

  /** The text of the `AttributeError` for `.get` on a reply that is not a dict names no server error. */
  lemma NoGetIsNoServerError(reply: Json)
    ensures !ServerErrorText("'" + TypeName(reply) + "' object has no attribute 'get'")
  {
    var m := "'" + TypeName(reply) + "' object has no attribute 'get'";
    assert '5' !in m by { assert '5' !in TypeName(reply); }
    NoFiveNoServerError(m);
  }

  /** A text without the digit 5 names neither 500 nor 503. */
  lemma NoFiveNoServerError(m: string)
    requires '5' !in m
    ensures !ServerErrorText(m)
  {
    if Contains(m, "500") { ContainsHead(m, "500"); }
    if Contains(m, "503") { ContainsHead(m, "503"); }
  }

  /**
   * Since the catch-all turns every client failure, `aiohttp.ClientError`
   * included, into one of the service's classes, `smart_scraper` is
   * retried only after a call that raised a message naming 500 or 503,
   * and gives up only on an `APIError`; a timeout or a rate limit ends it
   * at once.
   */
  lemma SmartScraperRetriesOnlyServerErrors(url: string, timeout: int, calls: nat -> CallOutcome)
    ensures var r := SmartScraper(url, timeout, calls);
            && (forall j :: 0 <= j < r.attempts - 1 ==> calls(j).CallRaised? && ServerErrorText(calls(j).error.message))
            && (r.final.GaveUp? ==> r.final.last.kind == ApiError)
            && (r.final.Thrown? ==> r.final.error.kind in {ScrapingError, RateLimitError})
  {
    var attempt := (k: nat) => SmartScraperAttempt(url, timeout, calls(k));
    var r := WithRetry(attempt);
    forall j | 0 <= j < r.attempts - 1
      ensures calls(j).CallRaised? && ServerErrorText(calls(j).error.message)
    {
      assert attempt(j) == SmartScraperAttempt(url, timeout, calls(j));
      if calls(j).CallReturned? { NoGetIsNoServerError(calls(j).reply); }
      assert attempt(j).Err? && Retryable(attempt(j).error);
    }
    var last := attempt(r.attempts - 1);
    assert last == SmartScraperAttempt(url, timeout, calls(r.attempts - 1));
  }

  /** A rate-limited first call is not retried. */
  lemma RateLimitNotRetried(url: string, timeout: int, calls: nat -> CallOutcome)
    requires calls(0).CallRaised? && !ServerErrorText(calls(0).error.message)
    requires Contains(calls(0).error.message, "429")
    ensures SmartScraper(url, timeout, calls) == Retried(Thrown(Classify(calls(0).error.message)), 1)
    ensures Classify(calls(0).error.message).kind == RateLimitError
  {
    var attempt := (k: nat) => SmartScraperAttempt(url, timeout, calls(k));
    NotRetried(attempt, 0, 0);
  }

  // ---------------------------------------------------------------------
  // Search
  // ---------------------------------------------------------------------

  /** The dict items of an iteration, in order. */
  function Dicts(items: seq<Json>): (r: seq<Json>)
    ensures |r| <= |items|
    ensures forall w :: w in r <==> w in items && w.JObject?
    ensures forall i :: 0 <= i < |r| ==> r[i].JObject?
  {
    if items == [] then []
    else
      assert forall v :: v in items <==> v == items[0] || v in items[1..];
      (if items[0].JObject? then [items[0]] else []) + Dicts(items[1..])
  }

  const Empty := JText("")

  /**
   * The entry of one dict item: its `url` (default "") and its
   * `description`, falling back to its `name` when `named`, then to "".
   */
  function SiteEntry(site: Dict<Json>, named: bool): (e: Found)
    ensures Some(e.url) == Get(site, "url") || ("url" !in Keys(site) && e.url == Empty)
    ensures "description" in Keys(site) ==> Some(e.description) == Get(site, "description")
    ensures "description" !in Keys(site) && named && "name" in Keys(site) ==> Some(e.description) == Get(site, "name")
    ensures "description" !in Keys(site) && !(named && "name" in Keys(site)) ==> e.description == Empty
  {
    var fallback := if named then Get(site, "name").GetOr(Empty) else Empty;
    Found(Get(site, "url").GetOr(Empty), Get(site, "description").GetOr(fallback))
  }

  /** One entry per dict item, in order; other items are skipped. */
  function DictEntries(items: seq<Json>, named: bool): (r: seq<Found>)
    ensures |r| == |Dicts(items)| <= |items|
    ensures forall i :: 0 <= i < |r| ==> r[i] == SiteEntry(Dicts(items)[i].fields, named)
  {
    var ds := Dicts(items);
    seq(|ds|, i requires 0 <= i < |ds| => SiteEntry(ds[i].fields, named))
  }

  const ReferenceLabel := JText("Reference URL")

  /** The entries from the `result` field: its `websites` when it is a dict holding them, its items when it is a list. */
  function ResultEntries(result: Json): (r: Option<seq<Found>>)
    ensures result.JList? ==> r == Some(DictEntries(result.items, false))
    ensures !result.JList? && !(result.JObject? && "websites" in Keys(result.fields)) ==> r == Some([])
    ensures result.JObject? && "websites" in Keys(result.fields) ==>
              var ws := Get(result.fields, "websites").value;
              && (r.None? <==> ws.JNull? || ws.JBool? || ws.JNum?)
              && (ws.JList? ==> r == Some(DictEntries(ws.items, true)))
              && (r.Some? ==> r == Some(DictEntries(Iterate(ws).value, true)))
  {
    if result.JObject? && "websites" in Keys(result.fields) then
      match Iterate(Get(result.fields, "websites").value)
      case None => None
      case Some(items) => Some(DictEntries(items, true))
    else if result.JList? then Some(DictEntries(result.items, false))
    else Some([])
  }

  /**
   * `_parse_search_results`: nothing for a reply that is not a dict;
   * otherwise the entries of its `result` followed by each entry of a
   * `reference_urls` list not yet listed. `None` where iterating
   * `websites` raises `TypeError`.
   */
  function ParseSearchResults(response: Json): (r: Option<seq<Found>>)
    ensures !response.JObject? ==> r == Some([])
    ensures response.JObject? && "result" !in Keys(response.fields) ==>
              var refs := Get(response.fields, "reference_urls");
              r == Some(if refs.Some? && refs.value.JList? then AddReferences([], refs.value.items, ReferenceLabel) else [])
    ensures response.JObject? && "result" in Keys(response.fields) ==>
              var part := ResultEntries(Get(response.fields, "result").value);
              var refs := Get(response.fields, "reference_urls");
              && (part.None? ==> r.None?)
              && (part.Some? ==>
                    r == Some(if refs.Some? && refs.value.JList? then AddReferences(part.value, refs.value.items, ReferenceLabel)
                              else part.value))
  {
    if !response.JObject? then Some([])
    else
      var f := response.fields;
      var part := if "result" in Keys(f) then ResultEntries(Get(f, "result").value) else Some([]);
      match part
      case None => None
      case Some(entries) =>
        var refs := Get(f, "reference_urls");
        if refs.Some? && refs.value.JList? then Some(AddReferences(entries, refs.value.items, ReferenceLabel))
        else Some(entries)
  }

  /** With a list of references, the output is the result entries followed by the references not yet listed, none twice. */
  lemma ReferenceUrlsAppended(f: Dict<Json>, result: Json, refs: seq<Json>)
    requires Get(f, "result") == Some(result) && Get(f, "reference_urls") == Some(JList(refs))
    requires ResultEntries(result).Some?
    ensures var entries := ResultEntries(result).value;
            var r := ParseSearchResults(JObject(f));
            && r.Some?
            && r.value[..|entries|] == entries
            && Urls(r.value) == AppendNew(Urls(entries), refs)
            && NoDup(Urls(r.value)[|entries|..])
  {
    ReferencesAddNoDuplicates(ResultEntries(result).value, refs, ReferenceLabel);
  }

  /**
   * `_search_fallback`: the first `max_results` items of a truthy list
   * `data` from the retried `smart_scraper`, one entry per dict among them;
   * nothing otherwise, and nothing when the scraper raised.
   */
  function Fallback(maxResults: int, scraped: Retried<Scraped>): (r: seq<Found>)
    ensures maxResults >= 0 ==> |r| <= maxResults
    ensures !scraped.final.Done? ==> r == []
    ensures scraped.final.Done? && !scraped.final.value.data.JList? ==> r == []
    ensures scraped.final.Done? && scraped.final.value.data.JList? ==>
              var ds := Dicts(PySlice(scraped.final.value.data.items, 0, maxResults));
              |r| == |ds| && forall i :: 0 <= i < |r| ==> r[i] == SiteEntry(ds[i].fields, false)
  {
    if scraped.final.Done? && Truthy(scraped.final.value.data) && scraped.final.value.data.JList? then
      DictEntries(PySlice(scraped.final.value.data.items, 0, maxResults), false)
    else []
  }

  /**
   * Every dict among the first `max_results` items of the scraped list
   * gives an entry, and every entry comes from one of them.
   */
  lemma FallbackListsEveryDict(maxResults: int, scraped: Retried<Scraped>)
    requires scraped.final.Done? && scraped.final.value.data.JList?
    ensures var kept := PySlice(scraped.final.value.data.items, 0, maxResults);
            var r := Fallback(maxResults, scraped);
            && (forall w :: w in kept && w.JObject? ==> SiteEntry(w.fields, false) in r)
            && (forall e :: e in r ==> exists w :: w in kept && w.JObject? && e == SiteEntry(w.fields, false))
  {
    var kept := PySlice(scraped.final.value.data.items, 0, maxResults);
    var ds := Dicts(kept);
    var r := Fallback(maxResults, scraped);
    forall w | w in kept && w.JObject?
      ensures SiteEntry(w.fields, false) in r
    {
      var i :| 0 <= i < |ds| && ds[i] == w;
      assert r[i] == SiteEntry(w.fields, false);
    }
    forall e | e in r
      ensures exists w :: w in kept && w.JObject? && e == SiteEntry(w.fields, false)
    {
      var i :| 0 <= i < |r| && r[i] == e;
      assert ds[i] in kept;
    }
  }

  /** As written, the fallback search finds nothing: its scraper always raises, and the error is caught. */
  lemma FallbackAsWrittenEmpty(maxResults: int, url: string, timeout: int, calls: nat -> CallOutcome)
    ensures Fallback(maxResults, SmartScraperAsWritten(url, timeout, calls)) == []
    ensures SearchAttempt(maxResults, SearchMissing, SmartScraperAsWritten(url, timeout, calls)) == Ok([])
  {
  }

  /** What one searchscraper call does, `SearchMissing` being the `AttributeError` of a client without it. */
  datatype SearchOutcome = SearchReturned(reply: Json) | SearchTimedOut | SearchMissing | SearchRaised(message: string)

  /**
   * One attempt of `search_urls`: the parsed reply (a parsing `TypeError`
   * is caught and gives nothing), the fallback when the client has no
   * searchscraper, nothing on a timeout, `APIError` for a message naming
   * 500 or 503 and nothing for any other failure.
   */
  function SearchAttempt(maxResults: int, call: SearchOutcome, fallback: Retried<Scraped>): (r: Result<seq<Found>, Exc>)
    ensures r.Err? <==> call.SearchRaised? && ServerErrorText(call.message)
    ensures r.Err? ==> r.error == Exc(ApiError, "Search API error: " + call.message)
    ensures call.SearchTimedOut? ==> r == Ok([])
    ensures call.SearchRaised? && !ServerErrorText(call.message) ==> r == Ok([])
    ensures call.SearchReturned? ==> r == Ok(ParseSearchResults(call.reply).GetOr([]))
    ensures call.SearchMissing? ==> r == Ok(Fallback(maxResults, fallback))
  {
    match call
    case SearchReturned(reply) => Ok(ParseSearchResults(reply).GetOr([]))
    case SearchMissing => Ok(Fallback(maxResults, fallback))
    case SearchTimedOut => Ok([])
    case SearchRaised(m) => if ServerErrorText(m) then Err(Exc(ApiError, "Search API error: " + m)) else Ok([])
  }

  /**
   * `search_urls` with its retry decorator: it never raises anything but
   * tenacity's `RetryError`, and that only after three server errors.
   */
  function SearchUrls(maxResults: int, calls: nat -> SearchOutcome, fallbacks: nat -> Retried<Scraped>): (r: Retried<seq<Found>>)
    ensures !r.final.Thrown?
    ensures r.final.GaveUp? <==>
              r.attempts == MaxAttempts &&
              forall j :: 0 <= j < MaxAttempts ==> calls(j).SearchRaised? && ServerErrorText(calls(j).message)
    ensures calls(0).SearchTimedOut? ==> r == Retried(Done([]), 1)
  {
    var attempt := (k: nat) => SearchAttempt(maxResults, calls(k), fallbacks(k));
    var r := WithRetry(attempt);
    assert forall j :: 0 <= j < r.attempts - 1 ==> attempt(j).Err?;
    assert attempt(r.attempts - 1) == SearchAttempt(maxResults, calls(r.attempts - 1), fallbacks(r.attempts - 1));
    r
  }

  // ---------------------------------------------------------------------
  // Many URLs
  // ---------------------------------------------------------------------

  /** Why a URL failed: the exception `smart_scraper` raised, or the `RetryError` after its last attempt. */
  datatype Failure = Error(error: Exc) | RetriesExhausted(last: Exc)

  datatype UrlResult = Succeeded(url: string, data: Json) | FailedUrl(url: string, failure: Failure)

  /**
   * `scrape_multiple`: each URL's retried `smart_scraper`, with its
   * failures caught into a record; `calls(i)(k)` is attempt `k` for URL `i`.
   */
  function ScrapeMultiple(urls: seq<string>, timeout: int, calls: nat -> nat -> CallOutcome): (r: seq<UrlResult>)
    ensures |r| == |urls|
    ensures forall i :: 0 <= i < |urls| ==> r[i].url == urls[i]
    ensures forall i :: 0 <= i < |urls| ==>
              (r[i].Succeeded? <==> SmartScraper(urls[i], timeout, calls(i)).final.Done?)
    ensures forall i :: 0 <= i < |urls| && r[i].FailedUrl? ==>
              var f := SmartScraper(urls[i], timeout, calls(i)).final;
              r[i].failure == if f.Thrown? then Error(f.error) else RetriesExhausted(f.last)
  {
    var r := seq(|urls|, i requires 0 <= i < |urls| => Record(urls[i], SmartScraper(urls[i], timeout, calls(i)).final));
    assert forall i :: 0 <= i < |urls| ==> r[i] == Record(urls[i], SmartScraper(urls[i], timeout, calls(i)).final);
    r
  }

  /** The record `scrape_with_limit` keeps for one URL. */
  function Record(url: string, f: Final<Scraped>): (r: UrlResult)
    ensures r.url == url
    ensures f.Done? ==> r == Succeeded(url, f.value.data)
    ensures f.Thrown? ==> r == FailedUrl(url, Error(f.error))
    ensures f.GaveUp? ==> r == FailedUrl(url, RetriesExhausted(f.last))
  {
    match f
    case Done(s) => Succeeded(url, s.data)
    case Thrown(e) => FailedUrl(url, Error(e))
    case GaveUp(e) => FailedUrl(url, RetriesExhausted(e))
  }

  /**
   * `scrape_multiple` over the decorator as written: every URL fails with
   * the hook's `AttributeError`, whatever the client would return.
   */
  function ScrapeMultipleAsWritten(urls: seq<string>, timeout: int, calls: nat -> nat -> CallOutcome): (r: seq<UrlResult>)
    ensures |r| == |urls|
    ensures forall i :: 0 <= i < |urls| ==> r[i] == FailedUrl(urls[i], Error(BeforeHookError))
  {
    var r := seq(|urls|, i requires 0 <= i < |urls| => Record(urls[i], SmartScraperAsWritten(urls[i], timeout, calls(i)).final));
    assert forall i :: 0 <= i < |urls| ==> r[i] == Record(urls[i], SmartScraperAsWritten(urls[i], timeout, calls(i)).final);
    r
  }
}
