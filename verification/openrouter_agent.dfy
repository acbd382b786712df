/**
 * The context helpers of the OpenRouter chat agent
 * (`backend/app/agents/openrouter_agent.py`): the bounded per-pipeline
 * conversation history and its text rendering, the fallback check for a
 * URL-search request, merging direct and searched URLs into the pipeline,
 * and the relevance filter applied to an LLM analysis of search results.
 */
module OpenRouterAgent {
  import opened Base

  /** The most recent messages kept per pipeline. */
  const MaxHistory := 20

  /** Content longer than this is cut when the history is rendered. */
  const PreviewLength := 200

  /** A history entry; its timestamp is not modelled. */
  datatype Message = Message(role: string, content: string)

  type Histories = map<string, seq<Message>>

  function History(h: Histories, pipelineId: string): seq<Message>
  {
    if pipelineId in h then h[pipelineId] else []
  }

  /** The last `n` elements, or all of them when there are fewer. */
  function LastN<T>(xs: seq<T>, n: nat): (r: seq<T>)
    ensures |r| == Min(|xs|, n)
    ensures r == xs[|xs| - |r|..]
  {
    if |xs| > n then xs[|xs| - n..] else xs
  }

  /** `_add_to_history`: the message is appended and only the 20 most recent are kept. */
  function AddToHistory(h: Histories, pipelineId: string, m: Message): (r: Histories)
    ensures pipelineId in r && |r[pipelineId]| <= MaxHistory
  {
    h[pipelineId := LastN(History(h, pipelineId) + [m], MaxHistory)]
  }

  /**
   * The new message is last, the history grows by one until it holds 20,
   * what it holds is the tail of the old history plus the message, and
   * other pipelines are untouched.
   */
  lemma AddToHistoryKeepsTail(h: Histories, pipelineId: string, m: Message)
    ensures var r := AddToHistory(h, pipelineId, m);
            && r.Keys == h.Keys + {pipelineId}
            && |r[pipelineId]| == Min(|History(h, pipelineId)| + 1, MaxHistory)
            && r[pipelineId][|r[pipelineId]| - 1] == m
            && (var all := History(h, pipelineId) + [m]; r[pipelineId] == all[|all| - |r[pipelineId]|..])
            && forall p :: p in h && p != pipelineId ==> r[p] == h[p]
  {
    var all := History(h, pipelineId) + [m];
    var kept := LastN(all, MaxHistory);
    assert AddToHistory(h, pipelineId, m)[pipelineId] == kept;
    assert |kept| == Min(|all|, MaxHistory) && kept == all[|all| - |kept|..];
    assert kept[|kept| - 1] == all[|all| - 1] == m;
  }

  /** Adding messages one at a time. */
  function AddAll(h: Histories, pipelineId: string, ms: seq<Message>): Histories
  {
    if ms == [] then h else AddToHistory(AddAll(h, pipelineId, ms[..|ms| - 1]), pipelineId, ms[|ms| - 1])
  }

  lemma LastNAppend<T>(xs: seq<T>, x: T, n: nat)
    requires n > 0
    ensures LastN(LastN(xs, n) + [x], n) == LastN(xs + [x], n)
  {
  }

  lemma SnocJoin<T>(xs: seq<T>, ys: seq<T>)
    requires ys != []
    ensures xs + ys[..|ys| - 1] + [ys[|ys| - 1]] == xs + ys
  {
    assert ys[..|ys| - 1] + [ys[|ys| - 1]] == ys;
  }

  lemma HistoryAfterAdd(h: Histories, pipelineId: string, m: Message)
    ensures History(AddToHistory(h, pipelineId, m), pipelineId) == LastN(History(h, pipelineId) + [m], MaxHistory)
  {
  }

  lemma HistoryStep(h: Histories, pipelineId: string, ms: seq<Message>)
    requires ms != []
    requires History(AddAll(h, pipelineId, ms[..|ms| - 1]), pipelineId)
             == LastN(History(h, pipelineId) + ms[..|ms| - 1], MaxHistory)
    ensures History(AddAll(h, pipelineId, ms), pipelineId) == LastN(History(h, pipelineId) + ms, MaxHistory)
  {
    var n := |ms| - 1;
    var kept := History(h, pipelineId);
    var before := AddAll(h, pipelineId, ms[..n]);
    assert AddAll(h, pipelineId, ms) == AddToHistory(before, pipelineId, ms[n]);
    HistoryAfterAdd(before, pipelineId, ms[n]);
    LastNAppend(kept + ms[..n], ms[n], MaxHistory);
    SnocJoin(kept, ms);
  }

  /** However many messages arrive, the history holds the 20 most recent of everything added. */
  lemma {:induction false} HistoryKeepsMostRecent(h: Histories, pipelineId: string, ms: seq<Message>)
    requires |History(h, pipelineId)| <= MaxHistory
    ensures History(AddAll(h, pipelineId, ms), pipelineId) == LastN(History(h, pipelineId) + ms, MaxHistory)
  {
    if ms == [] {
      assert History(h, pipelineId) + ms == History(h, pipelineId);
    } else {
      HistoryKeepsMostRecent(h, pipelineId, ms[..|ms| - 1]);
      HistoryStep(h, pipelineId, ms);
    }
  }

  /** `clear_conversation_history`: the pipeline's history is dropped, the others kept. */
  function ClearHistory(h: Histories, pipelineId: string): (r: Histories)
    ensures History(r, pipelineId) == []
    ensures forall p :: p != pipelineId ==> History(r, p) == History(h, p)
  {
    h - {pipelineId}
  }

  /** Clearing undoes any additions: the next rendering starts over. */
  lemma ClearForgetsAdditions(h: Histories, pipelineId: string, ms: seq<Message>, limit: int)
    ensures FormatConversation(ClearHistory(AddAll(h, pipelineId, ms), pipelineId), pipelineId, limit)
            == "No previous conversation."
  {
  }

  // ---------------------------------------------------------------------
  // Rendering the history
  // ---------------------------------------------------------------------

  /** The content shown for a message: cut to 200 characters plus "..." when longer. */
  function Preview(content: string): (r: string)
    ensures |content| <= PreviewLength ==> r == content
    ensures |content| > PreviewLength ==> |r| == PreviewLength + 3 && r[..PreviewLength] == content[..PreviewLength]
  {
    if |content| > PreviewLength then content[..PreviewLength] + "..." else content
  }

  function FormatLine(m: Message): string
  {
    (if m.role == "user" then "User" else "Assistant") + ": " + Preview(m.content) + "\n"
  }

  function Lines(ms: seq<Message>): (r: seq<string>)
    ensures |r| == |ms| && forall i :: 0 <= i < |ms| ==> r[i] == FormatLine(ms[i])
  {
    seq(|ms|, i requires 0 <= i < |ms| => FormatLine(ms[i]))
  }

  /**
   * The messages `history[-limit:]` selects when the history is longer than
   * `limit`, all of them otherwise.
   */
  function Recent(history: seq<Message>, limit: int): (r: seq<Message>)
    ensures limit > 0 ==> r == LastN(history, limit)
    ensures limit == 0 ==> r == history
  {
    if |history| > limit then PySlice(history, -limit, |history|) else history
  }

  /** `_format_conversation_for_context`. */
  function FormatConversation(h: Histories, pipelineId: string, limit: int): (r: string)
    ensures Recent(History(h, pipelineId), limit) == [] ==> r == "No previous conversation."
    ensures Recent(History(h, pipelineId), limit) != [] ==>
              r == "Recent conversation history:\n" + Concat(Lines(Recent(History(h, pipelineId), limit)))
  {
    var recent := Recent(History(h, pipelineId), limit);
    if recent == [] then "No previous conversation."
    else "Recent conversation history:\n" + Concat(Lines(recent))
  }

  /** With a positive limit at most `limit` messages are rendered, the most recent ones. */
  lemma FormatShowsMostRecent(h: Histories, pipelineId: string, limit: int)
    requires limit > 0
    ensures |Recent(History(h, pipelineId), limit)| == Min(|History(h, pipelineId)|, limit)
    ensures History(h, pipelineId) != [] ==> FormatConversation(h, pipelineId, limit) != "No previous conversation."
  {
    var hist := History(h, pipelineId);
    if hist != [] {
      var body := Concat(Lines(Recent(hist, limit)));
      var r := "Recent conversation history:\n" + body;
      assert r[0] == 'R';
    }
  }

  // ---------------------------------------------------------------------
  // Detecting URL-search requests
  // ---------------------------------------------------------------------

  /** The characters `[^\s<>"{}|\\^`\[\]]` admits. */
  predicate UrlChar(c: char)
  {
    !IsSpace(c) && c !in "<>\"{}|\\^`[]"
  }

  /** A match of `https?://[^\s<>"{}|\\^`\[\]]+` starts here. */
  predicate UrlStartsHere(s: string)
  {
    || (StartsWith(s, "http://") && |s| > 7 && UrlChar(s[7]))
    || (StartsWith(s, "https://") && |s| > 8 && UrlChar(s[8]))
  }

  /** `re.search` of the URL pattern finds a match. */
  predicate HasDirectUrl(s: string)
    decreases |s|
  {
    UrlStartsHere(s) || (|s| > 0 && HasDirectUrl(s[1..]))
  }

  const ScrapeKeywords: seq<string> := ["scrape", "extract", "get data", "pipeline", "build", "create", "want", "need"]

  /** `_simple_url_search_check`: a scraping keyword and no URL. */
  function SimpleUrlSearchCheck(message: string): (r: bool)
    ensures r <==> ContainsAny(Lower(message), ScrapeKeywords) && !HasDirectUrl(message)
  {
    ContainsAny(Lower(message), ScrapeKeywords) && !HasDirectUrl(message)
  }

  /** Prepending text never hides a URL. */
  lemma {:induction false} UrlSurvivesPrefix(pre: string, s: string)
    requires HasDirectUrl(s)
    ensures HasDirectUrl(pre + s)
    decreases |pre|
  {
    if pre != [] {
      assert (pre + s)[1..] == pre[1..] + s;
      UrlSurvivesPrefix(pre[1..], s);
      assert HasDirectUrl((pre + s)[1..]);
    } else {
      assert pre + s == s;
    }
  }

  /** A message that carries a URL is never sent to the search, whatever words surround it. */
  lemma UrlMessageNeverSearches(pre: string, host: string, post: string)
    requires |host| > 0 && UrlChar(host[0])
    ensures !SimpleUrlSearchCheck(pre + "https://" + host + post)
  {
    var s := "https://" + host + post;
    assert s[..8] == "https://" && s[8] == host[0];
    assert UrlStartsHere(s);
    assert pre + "https://" + host + post == pre + s;
    UrlSurvivesPrefix(pre, s);
  }

  // ---------------------------------------------------------------------
  // Merging URLs
  // ---------------------------------------------------------------------

  datatype UrlMerge = UrlMerge(urls: seq<string>, added: seq<string>)

  /**
   * `_handle_direct_urls`: each URL not yet present is appended once, in
   * the order of its first occurrence in the input, and reported as added.
   */
  function HandleDirectUrls(existing: seq<string>, urls: seq<string>): (r: UrlMerge)
    ensures r.urls == existing + r.added
    ensures forall x :: x in r.added <==> x in urls && x !in existing
    ensures NoDup(r.added)
  {
    var merged := AppendNew(existing, urls);
    assert merged == existing + merged[|existing|..];
    UrlMerge(merged, merged[|existing|..])
  }

  /** The added URLs come in the order of their first occurrences in the input. */
  lemma DirectUrlsInInputOrder(existing: seq<string>, urls: seq<string>)
    ensures InFirstOccurrenceOrder(HandleDirectUrls(existing, urls).added, urls)
  {
    AppendedInOrder(existing, urls);
    assert HandleDirectUrls(existing, urls).added == AppendNew(existing, urls)[|existing|..];
  }

  /** Sending the same URLs again adds nothing. */
  lemma DirectUrlsIdempotent(existing: seq<string>, urls: seq<string>)
    ensures var once := HandleDirectUrls(existing, urls).urls;
            HandleDirectUrls(once, urls).urls == once && HandleDirectUrls(once, urls).added == []
  {
    var once := HandleDirectUrls(existing, urls).urls;
    AppendNewPresent(once, urls);
  }

  /** A search hit: a dict with optional `url` and `description`, or any other value (by its `str`). */
  datatype SearchHit = DictHit(url: Option<string>, description: Option<string>) | OtherHit(text: string)

  function Urls(ps: seq<(string, string)>): (r: seq<string>)
    ensures |r| == |ps| && forall i :: 0 <= i < |ps| ==> r[i] == ps[i].0
  {
    seq(|ps|, i requires 0 <= i < |ps| => ps[i].0)
  }

  /** The (url, description) pair a hit offers: a dict's entries (default ""), or another value's text and no description. */
  function HitPair(h: SearchHit): (string, string)
  {
    match h
    case DictHit(u, d) => (u.GetOr(""), d.GetOr(""))
    case OtherHit(t) => (t, "")
  }

  /** The (url, description) pairs of the hits that have a non-empty URL, in order. */
  function FoundUrls(hits: seq<SearchHit>): (r: seq<(string, string)>)
    ensures forall i :: 0 <= i < |r| ==> r[i].0 != ""
    ensures |r| <= |hits|
    ensures forall p :: p in r <==> p.0 != "" && exists h :: h in hits && HitPair(h) == p
  {
    if hits == [] then []
    else
      assert forall h :: h in hits <==> h == hits[0] || h in hits[1..];
      var pair := HitPair(hits[0]);
      (if pair.0 != "" then [pair] else []) + FoundUrls(hits[1..])
  }

  /** Each hit contributes on its own, so the pairs of a longer list extend those of its prefix in order. */
  lemma {:induction false} FoundUrlsConcat(a: seq<SearchHit>, b: seq<SearchHit>)
    ensures FoundUrls(a + b) == FoundUrls(a) + FoundUrls(b)
  {
    if a != [] {
      assert (a + b)[0] == a[0] && (a + b)[1..] == a[1..] + b;
      FoundUrlsConcat(a[1..], b);
    } else {
      assert a + b == b;
    }
  }

  /** One hit gives its pair exactly when its URL is non-empty. */
  lemma FoundUrlsSingle(h: SearchHit)
    ensures FoundUrls([h]) == if HitPair(h).0 != "" then [HitPair(h)] else []
  {
    assert [h][1..] == [];
  }

  // ---------------------------------------------------------------------
  // The relevance filter
  // ---------------------------------------------------------------------

  /** One entry of the LLM's `analyzed_urls`. */
  datatype Analysis = Analysis(url: Option<string>, relevance: Option<string>, includeFlag: Option<bool>)

  /** What the scan for a URL's analysis finds: the first entry whose `url` occurs in it. */
  datatype Scan = Match(a: Analysis) | NoMatch | MissingKey

  function ScanFor(analyses: seq<Analysis>, url: string): (s: Scan)
    ensures s.Match? ==> s.a in analyses && s.a.url.Some? && Contains(url, s.a.url.value)
    ensures s.NoMatch? ==> forall a :: a in analyses ==> a.url.Some? && !Contains(url, a.url.value)
  {
    if analyses == [] then NoMatch
    else if analyses[0].url.None? then MissingKey
    else if Contains(url, analyses[0].url.value) then Match(analyses[0])
    else
      assert analyses == [analyses[0]] + analyses[1..];
      ScanFor(analyses[1..], url)
  }

  /** The filter drops a URL only when its analysis says not to include it. */
  predicate Excluded(analyses: seq<Analysis>, url: string)
  {
    var s := ScanFor(analyses, url);
    s.Match? && s.a.includeFlag == Some(false)
  }

  predicate ScanRaises(analyses: seq<Analysis>, found: seq<(string, string)>)
  {
    exists i :: 0 <= i < |found| && ScanFor(analyses, found[i].0).MissingKey?
  }

  /** `a` keeps its elements' order inside `b`. */
  predicate Subsequence<T(==)>(a: seq<T>, b: seq<T>)
    decreases |b|
  {
    a == [] || (b != [] && ((a[0] == b[0] && Subsequence(a[1..], b[1..])) || Subsequence(a, b[1..])))
  }

  function FilterFound(analyses: seq<Analysis>, found: seq<(string, string)>): (r: seq<(string, string)>)
    ensures Subsequence(Urls(r), Urls(found))
    ensures forall u :: u in Urls(r) <==> u in Urls(found) && !Excluded(analyses, u)
  {
    if found == [] then []
    else
      var (url, desc) := found[0];
      var rest := FilterFound(analyses, found[1..]);
      assert Urls(found) == [url] + Urls(found[1..]);
      var s := ScanFor(analyses, url);
      if s.Match? && s.a.includeFlag != Some(false) then
        assert Urls([(url, desc + " [Relevance: " + s.a.relevance.GetOr("unknown") + "]")] + rest) == [url] + Urls(rest);
        [(url, desc + " [Relevance: " + s.a.relevance.GetOr("unknown") + "]")] + rest
      else if s.Match? then rest
      else
        assert Urls([(url, desc)] + rest) == [url] + Urls(rest);
        [(url, desc)] + rest
  }

  /**
   * `_analyze_url_relevance`: without a parsable analysis, or when the
   * analysis scan raises on an entry without `url`, every found URL is kept
   * as it is; otherwise a URL is dropped only when its analysis excludes it,
   * order is kept, and the kept analysed URLs carry their relevance.
   */
  function FilterByRelevance(found: seq<(string, string)>, analyses: Option<seq<Analysis>>): (r: seq<(string, string)>)
    ensures analyses.None? ==> r == found
    ensures analyses.Some? && ScanRaises(analyses.value, found) ==> r == found
    ensures analyses.Some? && !ScanRaises(analyses.value, found) ==>
              && Subsequence(Urls(r), Urls(found))
              && forall u :: u in Urls(r) <==> u in Urls(found) && !Excluded(analyses.value, u)
  {
    if analyses.None? || ScanRaises(analyses.value, found) then found
    else FilterFound(analyses.value, found)
  }

  /** URLs the analysis does not mention all survive, in their order. */
  lemma {:induction false} UnanalysedKept(analyses: seq<Analysis>, found: seq<(string, string)>)
    requires forall i :: 0 <= i < |found| ==> ScanFor(analyses, found[i].0).NoMatch?
    ensures FilterFound(analyses, found) == found
  {
    if found != [] {
      UnanalysedKept(analyses, found[1..]);
    }
  }

  /**
   * The search branch of the agent: the filtered hits' URLs not yet in the
   * pipeline are appended once each.
   */
  function UrlSearchUrls(existing: seq<string>, hits: seq<SearchHit>, analyses: Option<seq<Analysis>>): (r: seq<string>)
    ensures |existing| <= |r| && r[..|existing|] == existing
    ensures forall x :: x in r <==> x in existing || x in Urls(FilterByRelevance(FoundUrls(hits), analyses))
    ensures NoDup(r[|existing|..])
  {
    AppendNew(existing, Urls(FilterByRelevance(FoundUrls(hits), analyses)))
  }

  // ---------------------------------------------------------------------
  // Type names in replies
  // ---------------------------------------------------------------------

  /**
   * The schema type the agent records for a type word found in a reply:
   * "string", "integer" and "boolean" stand for "str", "int" and "bool";
   * unknown or absent words give "str".
   */
  function ReplyTypeName(t: string): (r: string)
    ensures r in {"str", "int", "float", "bool", "list"}
    ensures t in {"str", "int", "float", "bool", "list"} ==> r == t
    ensures t == "string" ==> r == "str"
    ensures t == "integer" ==> r == "int"
    ensures t == "boolean" ==> r == "bool"
    ensures t !in {"str", "string", "int", "integer", "float", "bool", "boolean", "list"} ==> r == "str"
  {
    if t == "str" || t == "string" then "str"
    else if t == "int" || t == "integer" then "int"
    else if t == "float" then "float"
    else if t == "bool" || t == "boolean" then "bool"
    else if t == "list" then "list"
    else "str"
  }

  /** The reply's `type_map`, in its own order. */
  const TypeMap: Dict<string> := [("str", "str"), ("string", "str"), ("int", "int"), ("integer", "int"),
                                  ("float", "float"), ("bool", "bool"), ("boolean", "bool"), ("list", "list")]

  /** The chain of tests is `type_map.get(t, 'str')`. */
  lemma ReplyTypeNameIsTableLookup(t: string)
    ensures ReplyTypeName(t) == Get(TypeMap, t).GetOr("str")
  {
    if t !in Keys(TypeMap) {
      assert Keys(TypeMap) == ["str", "string", "int", "integer", "float", "bool", "boolean", "list"];
    }
  }
}
