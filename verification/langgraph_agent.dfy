/**
 * The LangGraph workflow agent (`app/agents/langgraph_agent.py`): the
 * deterministic parts of its nodes and routers. Language-model replies and
 * search results are parameters; conversation messages are not modelled.
 */
module LanggraphAgent {
  import opened Base
  import opened Workflow

  datatype AgentUrl = AgentUrl(
    url: string, description: string, relevance: string, validated: bool, validationReason: Option<string>)

  datatype AgentField = AgentField(
    name: string, fieldType: string, description: string, required: bool, example: Option<string>)

  datatype Decision = DecisionPending | DecisionApproved | DecisionRejected

  datatype AgentState = AgentState(
    pipelineId: string,
    userRequest: string,
    phase: Phase,
    urls: seq<AgentUrl>,
    urlsValidated: bool,
    schemaFields: seq<AgentField>,
    schemaValidated: bool,
    generatedCode: string,
    executionResults: seq<string>,
    requiresApproval: bool,
    approvalStatus: Option<Decision>,
    errors: seq<string>)

  /** The state `process_message` starts the graph from. */
  function InitialState(message: string, pipelineId: string): (s: AgentState)
    ensures s.phase == Initial && s.userRequest == message && s.pipelineId == pipelineId
    ensures s.urls == [] && s.schemaFields == [] && s.errors == [] && !s.requiresApproval
  {
    AgentState(pipelineId, message, Initial, [], false, [], false, "", [], false, None, [])
  }

  // ---------------------------------------------------------------------
  // Routers
  // ---------------------------------------------------------------------

  datatype AnalysisRoute = ToError | ToValidateUrls | ToCollectUrls | ToDefineSchema

  /** `route_after_analysis`: an error wins, then present URLs, then the phase. */
  function RouteAfterAnalysis(s: AgentState): (r: AnalysisRoute)
    ensures r == ToError <==> s.phase == Error
    ensures r == ToValidateUrls <==> s.phase != Error && |s.urls| > 0
    ensures r == ToDefineSchema <==> s.phase == SchemaDefinition && |s.urls| == 0
  {
    if s.phase == Error then ToError
    else if |s.urls| > 0 then ToValidateUrls
    else if s.phase == UrlCollection then ToCollectUrls
    else if s.phase == SchemaDefinition then ToDefineSchema
    else ToCollectUrls
  }

  datatype ApprovalRoute = Continue | Reject | Timeout

  /** `route_after_approval`: anything but an explicit decision is a timeout. */
  function RouteAfterApproval(status: Option<Decision>): (r: ApprovalRoute)
    ensures r == Continue <==> status == Some(DecisionApproved)
    ensures r == Reject <==> status == Some(DecisionRejected)
  {
    match status
    case Some(DecisionApproved) => Continue
    case Some(DecisionRejected) => Reject
    case _ => Timeout
  }

  datatype CodeRoute = Execute | Regenerate | End

  /** `route_code_approval`. */
  function RouteCodeApproval(status: Option<Decision>): (r: CodeRoute)
    ensures r == Execute <==> status == Some(DecisionApproved)
    ensures r == Regenerate <==> status == Some(DecisionRejected)
  {
    match status
    case Some(DecisionApproved) => Execute
    case Some(DecisionRejected) => Regenerate
    case _ => End
  }

  /** The two approval routers read the same status the same way. */
  lemma RoutersAgree(status: Option<Decision>)
    ensures RouteAfterApproval(status) == Continue <==> RouteCodeApproval(status) == Execute
    ensures RouteAfterApproval(status) == Reject <==> RouteCodeApproval(status) == Regenerate
    ensures RouteAfterApproval(status) == Timeout <==> RouteCodeApproval(status) == End
  {
  }

  // ---------------------------------------------------------------------
  // collect_urls
  // ---------------------------------------------------------------------

  /** One search result: a dict with optional keys, or something else. */
  datatype Hit = DictHit(url: Option<string>, description: Option<string>) | OtherHit

  datatype SearchOutcome = Found(hits: seq<Hit>) | SearchRaised(message: string)

  datatype Entities = Entities(domain: string, locations: seq<string>)

  function UrlsOf(s: seq<AgentUrl>): (r: seq<string>)
    ensures |r| == |s| && forall i :: 0 <= i < |s| ==> r[i] == s[i].url
  {
    if s == [] then [] else [s[0].url] + UrlsOf(s[1..])
  }

  /** What the main collection path guarantees of its list: distinct, non-empty, unvalidated URLs. */
  predicate GoodUrls(s: seq<AgentUrl>)
  {
    NoDup(UrlsOf(s)) && forall i :: 0 <= i < |s| ==> s[i].url != "" && !s[i].validated
  }

  lemma GoodAppend(s: seq<AgentUrl>, u: AgentUrl)
    requires GoodUrls(s) && u.url != "" && !u.validated && u.url !in UrlsOf(s)
    ensures GoodUrls(s + [u])
  {
    var t := UrlsOf(s + [u]);
    assert t == UrlsOf(s) + [u.url];
  }

  function Found1(url: string, description: string): AgentUrl
  {
    AgentUrl(url, description, "medium", false, None)
  }

  /** One search result of the main path: a dict result's URL is added when it is non-empty and not yet seen. */
  function HitStep(acc: seq<AgentUrl>, h: Hit): seq<AgentUrl>
  {
    var url := if h.DictHit? then h.url.GetOr("") else "";
    if h.DictHit? && url != "" && url !in UrlsOf(acc) then acc + [Found1(url, h.description.GetOr(""))]
    else acc
  }

  /** The main path over one query's results. */
  function AddHits(acc: seq<AgentUrl>, hits: seq<Hit>): (r: seq<AgentUrl>)
    ensures GoodUrls(acc) ==> GoodUrls(r)
    ensures |acc| <= |r| && r[..|acc|] == acc
    decreases |hits|
  {
    if hits == [] then acc
    else
      var next := HitStep(acc, hits[0]);
      assert GoodUrls(acc) ==> GoodUrls(next) by {
        if GoodUrls(acc) && next != acc { GoodAppend(acc, next[|acc|]); assert next == acc + [next[|acc|]]; }
      }
      var r := AddHits(next, hits[1..]);
      assert r[..|acc|] == r[..|next|][..|acc|];
      r
  }

  /** The results are taken in order: the last one is appended when it is a dict with a non-empty, unseen URL. */
  lemma {:induction false} AddHitsSnoc(acc: seq<AgentUrl>, hits: seq<Hit>, h: Hit)
    ensures var a := AddHits(acc, hits);
            var url := if h.DictHit? then h.url.GetOr("") else "";
            AddHits(acc, hits + [h])
            == if h.DictHit? && url != "" && url !in UrlsOf(a) then a + [Found1(url, h.description.GetOr(""))] else a
    decreases |hits|
  {
    if hits == [] {
      assert [] + [h] == [h];
    } else {
      assert (hits + [h])[1..] == hits[1..] + [h];
      AddHitsSnoc(HitStep(acc, hits[0]), hits[1..], h);
    }
  }

  /** The candidate URLs tried for a location when a search fails. */
  function LocationCandidates(domain: string, location: string): (r: seq<string>)
    ensures |r| > 0
    ensures forall c :: c in r ==> StartsWith(c, "https://")
  {
    var lower := Lower(location);
    var rests :=
      if Contains(domain, "ilmeteo.it") then
        var city := if lower == "milan" then "milano" else if lower == "turin" then "torino" else lower;
        ["www.ilmeteo.it/meteo/" + city, "ilmeteo.it/meteo/" + city]
      else
        [domain + "/meteo/" + lower, domain + "/weather/" + lower, domain + "/" + lower,
         "www." + domain + "/meteo/" + lower, "www." + domain + "/weather/" + lower];
    var r := seq(|rests|, i requires 0 <= i < |rests| => "https://" + rests[i]);
    assert forall i :: 0 <= i < |r| ==> r[i][..8] == "https://";
    r
  }

  /** The first candidate not yet seen. */
  function FirstUnseen(candidates: seq<string>, seen: seq<string>): (r: Option<string>)
    ensures r.Some? ==> r.value in candidates && r.value !in seen
    ensures r.Some? ==> exists k :: 0 <= k < |candidates| && candidates[k] == r.value
                                    && forall j :: 0 <= j < k ==> candidates[j] in seen
    ensures r.None? ==> forall c :: c in candidates ==> c in seen
  {
    if candidates == [] then None
    else if candidates[0] !in seen then Some(candidates[0])
    else
      var r := FirstUnseen(candidates[1..], seen);
      assert r.Some? ==> exists k :: 0 <= k < |candidates| && candidates[k] == r.value
                                     && forall j :: 0 <= j < k ==> candidates[j] in seen by {
        if r.Some? {
          var k :| 0 <= k < |candidates[1..]| && candidates[1..][k] == r.value
                   && forall j :: 0 <= j < k ==> candidates[1..][j] in seen;
          assert candidates[k + 1] == r.value;
          forall j | 0 <= j < k + 1 ensures candidates[j] in seen {
            if j > 0 { assert candidates[j] == candidates[1..][j - 1]; }
          }
        }
      }
      r
  }

  /** The URL the fallback adds for a location it found a fresh candidate for. */
  function DirectLink(url: string, location: string): AgentUrl
  {
    AgentUrl(url, "Direct link for " + location + " weather data", "medium", false, None)
  }

  /** The fallback for one location: its first candidate not yet collected, if any. */
  function FallbackStep(acc: seq<AgentUrl>, domain: string, location: string): seq<AgentUrl>
  {
    match FirstUnseen(LocationCandidates(domain, location), UrlsOf(acc))
    case None => acc
    case Some(url) => acc + [DirectLink(url, location)]
  }

  /** The fallback adds at most one constructed URL per location. */
  function AddFallback(acc: seq<AgentUrl>, domain: string, locations: seq<string>): (r: seq<AgentUrl>)
    ensures |r| <= |acc| + |locations|
    ensures GoodUrls(acc) ==> GoodUrls(r)
    decreases |locations|
  {
    if locations == [] then acc
    else
      var next := FallbackStep(acc, domain, locations[0]);
      assert GoodUrls(acc) ==> GoodUrls(next) by {
        var c := FirstUnseen(LocationCandidates(domain, locations[0]), UrlsOf(acc));
        if c.Some? && GoodUrls(acc) {
          assert StartsWith(c.value, "https://");
          GoodAppend(acc, DirectLink(c.value, locations[0]));
        }
      }
      AddFallback(next, domain, locations[1..])
  }

  /**
   * The locations are taken in order: the last one adds its first candidate
   * URL not yet collected, described as a direct link for that location.
   */
  lemma {:induction false} AddFallbackSnoc(acc: seq<AgentUrl>, domain: string, locations: seq<string>, loc: string)
    ensures var a := AddFallback(acc, domain, locations);
            var c := FirstUnseen(LocationCandidates(domain, loc), UrlsOf(a));
            AddFallback(acc, domain, locations + [loc])
            == if c.Some? then a + [AgentUrl(c.value, "Direct link for " + loc + " weather data", "medium", false, None)] else a
    decreases |locations|
  {
    if locations == [] {
      assert [] + [loc] == [loc];
    } else {
      assert (locations + [loc])[1..] == locations[1..] + [loc];
      AddFallbackSnoc(FallbackStep(acc, domain, locations[0]), domain, locations[1..], loc);
    }
  }

  datatype Collected = Collected(urls: seq<AgentUrl>, errors: seq<string>)

  /** One planned query: its results, or its error followed by the fallback when a domain and locations are known. */
  function CollectStep(acc: Collected, query: string, outcome: SearchOutcome, e: Entities): Collected
  {
    match outcome
    case Found(hits) => Collected(AddHits(acc.urls, hits), acc.errors)
    case SearchRaised(msg) =>
      var errs := acc.errors + ["Search failed for '" + query + "': " + msg];
      if e.domain != "" && |e.locations| > 0
      then Collected(AddFallback(acc.urls, e.domain, e.locations), errs)
      else Collected(acc.urls, errs)
  }

  /** The loop over the planned queries, one search outcome per query. */
  function CollectFrom(acc: Collected, queries: seq<string>, outcomes: seq<SearchOutcome>, e: Entities)
    : (r: Collected)
    requires |outcomes| == |queries|
    ensures GoodUrls(acc.urls) ==> GoodUrls(r.urls)
    ensures |acc.errors| <= |r.errors| <= |acc.errors| + |queries|
    decreases |queries|
  {
    if queries == [] then acc
    else CollectFrom(CollectStep(acc, queries[0], outcomes[0], e), queries[1..], outcomes[1..], e)
  }

  /**
   * The queries are taken in order. A query that found results adds them
   * through the main path; one whose search raised adds exactly one error
   * naming the query and then runs the location fallback.
   */
  lemma {:induction false} CollectFromSnoc(acc: Collected, queries: seq<string>, outcomes: seq<SearchOutcome>,
                                           q: string, o: SearchOutcome, e: Entities)
    requires |outcomes| == |queries|
    ensures var c := CollectFrom(acc, queries, outcomes, e);
            var r := CollectFrom(acc, queries + [q], outcomes + [o], e);
            && (o.Found? ==> r == Collected(AddHits(c.urls, o.hits), c.errors))
            && (o.SearchRaised? ==>
                  && r.errors == c.errors + ["Search failed for '" + q + "': " + o.message]
                  && r.urls == if e.domain != "" && |e.locations| > 0 then AddFallback(c.urls, e.domain, e.locations) else c.urls)
    decreases |queries|
  {
    if queries == [] {
      assert [] + [q] == [q] && [] + [o] == [o];
    } else {
      assert (queries + [q])[1..] == queries[1..] + [q];
      assert (outcomes + [o])[1..] == outcomes[1..] + [o];
      CollectFromSnoc(CollectStep(acc, queries[0], outcomes[0], e), queries[1..], outcomes[1..], q, o, e);
    }
  }

  /** The simple search keeps every dict result, empty and repeated URLs included. */
  function HitsAsUrls(hits: seq<Hit>): (r: seq<AgentUrl>)
    ensures |r| <= |hits|
  {
    if hits == [] then [] else HitAsUrl(hits[0]) + HitsAsUrls(hits[1..])
  }

  function HitAsUrl(h: Hit): (r: seq<AgentUrl>)
    ensures |r| == if h.DictHit? then 1 else 0
    ensures h.DictHit? ==> r[0] == Found1(h.url.GetOr(""), h.description.GetOr(""))
  {
    if h.DictHit? then [Found1(h.url.GetOr(""), h.description.GetOr(""))] else []
  }

  /** One URL per dict result, in result order, and none for any other result. */
  lemma {:induction false} HitsAsUrlsConcat(a: seq<Hit>, b: seq<Hit>)
    ensures HitsAsUrls(a + b) == HitsAsUrls(a) + HitsAsUrls(b)
    ensures |a| == 1 ==> HitsAsUrls(a) == HitAsUrl(a[0])
  {
    if a == [] {
      assert a + b == b;
    } else {
      var ab := a + b;
      assert ab[0] == a[0] && ab[1..] == a[1..] + b;
      HitsAsUrlsConcat(a[1..], b);
      assert HitsAsUrls(ab) == HitAsUrl(a[0]) + HitsAsUrls(a[1..] + b);
      assert HitsAsUrls(a) == HitAsUrl(a[0]) + HitsAsUrls(a[1..]);
      if |a| == 1 {
        assert a[1..] == [] && HitsAsUrls(a) == HitAsUrl(a[0]);
      }
    }
  }

  /**
   * `collect_urls`. `plan` is the parsed list of planned queries (`None`
   * when the reply is not usable JSON); `searches` answer the first three
   * of them; `fallback` answers the single search on the raw request.
   */
  function CollectUrls(s: AgentState, plan: Option<seq<string>>, searches: seq<SearchOutcome>,
                       fallback: SearchOutcome, e: Entities): (r: AgentState)
    requires plan.Some? ==> |searches| == Min(3, |plan.value|)
    ensures plan.Some? ==>
              && GoodUrls(r.urls)
              && (|r.urls| > 0 <==> r.phase == UrlValidation)
              && (|r.urls| == 0 ==> r.phase == Initial && r.requiresApproval)
              && |s.errors| <= |r.errors| <= |s.errors| + 3
    ensures plan.Some? ==>
              var c := CollectFrom(Collected([], s.errors), plan.value[..Min(3, |plan.value|)], searches, e);
              r == s.(urls := c.urls, errors := c.errors, phase := r.phase, requiresApproval := r.requiresApproval)
              && (r.requiresApproval <==> s.requiresApproval || |c.urls| == 0)
    ensures plan.None? && fallback.Found? ==>
              r == s.(urls := HitsAsUrls(fallback.hits), phase := UrlValidation)
    ensures plan.None? && fallback.SearchRaised? ==>
              r == s.(errors := s.errors + ["URL search failed: " + fallback.message], phase := Error)
  {
    match plan
    case Some(queries) =>
      var qs := queries[..Min(3, |queries|)];
      var c := CollectFrom(Collected([], s.errors), qs, searches, e);
      if |c.urls| > 0 then s.(urls := c.urls, errors := c.errors, phase := UrlValidation)
      else s.(urls := c.urls, errors := c.errors, phase := Initial, requiresApproval := true)
    case None =>
      match fallback
      case Found(hits) => s.(urls := HitsAsUrls(hits), phase := UrlValidation)
      case SearchRaised(msg) => s.(errors := s.errors + ["URL search failed: " + msg], phase := Error)
  }

  // ---------------------------------------------------------------------
  // validate_urls
  // ---------------------------------------------------------------------

  /** One entry of the validator's `validated_urls`; `include` is `None` when absent. */
  datatype Verdict = Verdict(url: string, relevance: string, includeFlag: Option<bool>, reason: string)

  datatype ValidationReply = Parsed(verdicts: seq<Verdict>) | Unparsable(message: string)

  /** The first verdict whose URL equals `url`. */
  function FirstVerdict(vs: seq<Verdict>, url: string): (r: Option<Verdict>)
    ensures r.Some? ==> r.value in vs && r.value.url == url
    ensures r.None? <==> forall k :: 0 <= k < |vs| ==> vs[k].url != url
  {
    var r := FirstWith(vs, VerdictUrl, url);
    assert r.None? <==> forall k :: 0 <= k < |vs| ==> VerdictUrl(vs[k]) != url;
    r
  }

  function VerdictUrl(v: Verdict): string { v.url }

  function HighCount(vs: seq<Verdict>): nat
  {
    if vs == [] then 0 else (if vs[0].relevance == "high" then 1 else 0) + HighCount(vs[1..])
  }

  /**
   * A URL survives when its first verdict includes it and is "high", or is
   * "medium" while fewer than three verdicts in the whole reply are "high".
   */
  predicate Survives(u: AgentUrl, vs: seq<Verdict>)
  {
    match FirstVerdict(vs, u.url)
    case None => false
    case Some(v) =>
      (v.relevance == "high" || (v.relevance == "medium" && HighCount(vs) < 3)) && v.includeFlag.GetOr(false)
  }

  function Marked(u: AgentUrl, vs: seq<Verdict>): AgentUrl
    requires FirstVerdict(vs, u.url).Some?
  {
    var v := FirstVerdict(vs, u.url).value;
    u.(relevance := v.relevance, validated := true, validationReason := Some(v.reason))
  }

  /** What one URL contributes to the validated list: itself marked with its verdict when it survives, else nothing. */
  function Kept(u: AgentUrl, vs: seq<Verdict>): (r: seq<AgentUrl>)
    ensures |r| <= 1 && forall i :: 0 <= i < |r| ==> r[i].validated
  {
    if Survives(u, vs) then [Marked(u, vs)] else []
  }

  function Survivors(urls: seq<AgentUrl>, vs: seq<Verdict>): (r: seq<AgentUrl>)
    ensures |r| <= |urls|
    ensures forall i :: 0 <= i < |r| ==> r[i].validated
  {
    if urls == [] then [] else Kept(urls[0], vs) + Survivors(urls[1..], vs)
  }

  /** Exactly the surviving URLs are kept, marked with their verdict, in input order. */
  lemma {:induction false} SurvivorsExactly(urls: seq<AgentUrl>, vs: seq<Verdict>)
    ensures forall x :: x in Survivors(urls, vs) <==>
              exists i :: 0 <= i < |urls| && Survives(urls[i], vs) && x == Marked(urls[i], vs)
  {
    if urls != [] {
      SurvivorsExactly(urls[1..], vs);
      var head := if Survives(urls[0], vs) then [Marked(urls[0], vs)] else [];
      assert Survivors(urls, vs) == head + Survivors(urls[1..], vs);
      forall x | x in Survivors(urls, vs)
        ensures exists i :: 0 <= i < |urls| && Survives(urls[i], vs) && x == Marked(urls[i], vs)
      {
        if x in head {
          assert Survives(urls[0], vs) && x == Marked(urls[0], vs);
        } else {
          var i :| 0 <= i < |urls[1..]| && Survives(urls[1..][i], vs) && x == Marked(urls[1..][i], vs);
          assert urls[i + 1] == urls[1..][i];
        }
      }
      forall x | exists i :: 0 <= i < |urls| && Survives(urls[i], vs) && x == Marked(urls[i], vs)
        ensures x in Survivors(urls, vs)
      {
        var i :| 0 <= i < |urls| && Survives(urls[i], vs) && x == Marked(urls[i], vs);
        if i > 0 {
          assert urls[1..][i - 1] == urls[i];
        }
      }
    }
  }

  /** The survivors of a split list are the survivors of each part, in order; one URL survives alone or not at all. */
  lemma {:induction false} SurvivorsConcat(a: seq<AgentUrl>, b: seq<AgentUrl>, vs: seq<Verdict>)
    ensures Survivors(a + b, vs) == Survivors(a, vs) + Survivors(b, vs)
    ensures |a| == 1 ==> Survivors(a, vs) == Kept(a[0], vs)
  {
    if a == [] {
      assert a + b == b;
    } else {
      var ab := a + b;
      assert ab[0] == a[0] && ab[1..] == a[1..] + b;
      SurvivorsConcat(a[1..], b, vs);
      assert Survivors(ab, vs) == Kept(a[0], vs) + Survivors(a[1..] + b, vs);
      assert Survivors(a, vs) == Kept(a[0], vs) + Survivors(a[1..], vs);
      if |a| == 1 {
        assert a[1..] == [] && Survivors(a, vs) == Kept(a[0], vs);
      }
    }
  }

  /** Approval is requested when fewer than three URLs, or fewer than 30% of them, survive. */
  predicate TooFewSurvivors(kept: nat, total: nat)
  {
    kept < 3 || (kept as real) < (total as real) * 0.3
  }

  /** `validate_urls`. */
  function ValidateUrls(s: AgentState, reply: ValidationReply): (r: AgentState)
    ensures |s.urls| == 0 ==> r.phase == Error && r.errors == s.errors + ["No URLs to validate"] && r.urls == s.urls
    ensures |s.urls| > 0 && reply.Unparsable? ==> r.phase == Error && |r.errors| == |s.errors| + 1 && r.urls == s.urls
    ensures |s.urls| > 0 && reply.Parsed? ==>
              && r.urls == Survivors(s.urls, reply.verdicts)
              && r.urlsValidated && r.phase == SchemaDefinition && r.errors == s.errors
              && (r.requiresApproval <==> s.requiresApproval || TooFewSurvivors(|r.urls|, |s.urls|))
  {
    if |s.urls| == 0 then s.(phase := Error, errors := s.errors + ["No URLs to validate"])
    else
      match reply
      case Unparsable(msg) => s.(errors := s.errors + ["URL validation failed: " + msg], phase := Error)
      case Parsed(vs) =>
        var kept := Survivors(s.urls, vs);
        s.(urls := kept, urlsValidated := true, phase := SchemaDefinition,
           requiresApproval := s.requiresApproval || TooFewSurvivors(|kept|, |s.urls|))
  }

  /** A "low" verdict never keeps a URL, and neither does a verdict that does not say include. */
  lemma LowOrUnincludedDropped(u: AgentUrl, vs: seq<Verdict>)
    requires FirstVerdict(vs, u.url).Some?
    requires FirstVerdict(vs, u.url).value.relevance == "low" || !FirstVerdict(vs, u.url).value.includeFlag.GetOr(false)
    ensures !Survives(u, vs)
  {
  }

  // ---------------------------------------------------------------------
  // The remaining nodes
  // ---------------------------------------------------------------------

  /** `validate_schema`: two fields are the minimum for moving on to code generation. */
  function ValidateSchema(s: AgentState): (r: AgentState)
    ensures r.schemaValidated <==> |s.schemaFields| >= 2
    ensures r.phase == (if |s.schemaFields| >= 2 then CodeGeneration else s.phase)
    ensures r.schemaFields == s.schemaFields && r.urls == s.urls
  {
    if |s.schemaFields| < 2 then s.(schemaValidated := false)
    else s.(schemaValidated := true, phase := CodeGeneration)
  }

  /** `generate_code`: the code always waits for approval. */
  function GenerateCode(s: AgentState, code: string): (r: AgentState)
    ensures r.generatedCode == code && r.phase == ReadyToExecute && r.requiresApproval
    ensures r.urls == s.urls && r.schemaFields == s.schemaFields
  {
    s.(generatedCode := code, phase := ReadyToExecute, requiresApproval := true)
  }

  /** `await_approval`: the placeholder gate approves at once. */
  function AwaitApproval(s: AgentState): (r: AgentState)
    ensures RouteAfterApproval(r.approvalStatus) == Continue && !r.requiresApproval
    ensures r.phase == s.phase && r.urls == s.urls
  {
    s.(approvalStatus := Some(DecisionApproved), requiresApproval := false)
  }

  /** The mapped type of a lower-cased type name, before any `Optional[...]`. */
  function CodegenBase(t: string): string
  {
    if t == "str" || t == "string" then "str"
    else if t == "int" || t == "integer" then "int"
    else if t == "float" then "float"
    else if t == "bool" || t == "boolean" then "bool"
    else if t == "list" then "List[str]"
    else if t == "dict" then "Dict[str, Any]"
    else "str"
  }

  /** The generated model's type for a schema type name, after lower-casing it. */
  function CodegenType(typeName: string): (r: string)
    ensures Lower(typeName) == "list" <==> r == "List[str]"
    ensures Lower(typeName) == "dict" <==> r == "Dict[str, Any]"
    ensures Lower(typeName) !in {"list", "dict"} ==> StartsWith(r, "Optional[")
    ensures Lower(typeName) !in {"int", "integer", "float", "bool", "boolean", "list", "dict"} ==> r == "Optional[str]"
    ensures Lower(typeName) in {"int", "integer"} ==> r == "Optional[int]"
    ensures Lower(typeName) == "float" ==> r == "Optional[float]"
    ensures Lower(typeName) in {"bool", "boolean"} ==> r == "Optional[bool]"
  {
    var base := CodegenBase(Lower(typeName));
    if base == "List[str]" || base == "Dict[str, Any]" then base
    else
      var r := "Optional[" + base + "]";
      assert r[0] == 'O';
      r
  }

  /** The `type_mapping` dict of `_generate_smartscraper_code`. */
  const CodegenTypeMap: map<string, string> :=
    map["str" := "str", "string" := "str", "int" := "int", "integer" := "int", "float" := "float",
        "bool" := "bool", "boolean" := "bool", "list" := "List[str]", "dict" := "Dict[str, Any]"]

  /** The type is `type_mapping.get(t.lower(), 'str')`, wrapped in `Optional[...]` unless it is a list or a dict. */
  lemma CodegenTypeIsTableLookup(typeName: string)
    ensures var t := Lower(typeName);
            var base := if t in CodegenTypeMap then CodegenTypeMap[t] else "str";
            CodegenType(typeName) == if base in {"List[str]", "Dict[str, Any]"} then base else "Optional[" + base + "]"
  {
  }

  // ---------------------------------------------------------------------
  // The reply of process_message
  // ---------------------------------------------------------------------

  /** What `process_message` hands back to its callers. */
  datatype AgentResult = AgentResult(
    response: string, phase: Phase, urls: seq<AgentUrl>, schema: Dict<string>,
    code: string, results: seq<string>, requiresApproval: bool, errors: seq<string>)

  /** The `(name, type)` pairs the comprehension assigns, in field order. */
  function FieldPairs(fields: seq<AgentField>): (r: seq<(string, string)>)
    ensures |r| == |fields| && forall i :: 0 <= i < |fields| ==> r[i] == (fields[i].name, fields[i].fieldType)
  {
    seq(|fields|, i requires 0 <= i < |fields| => (fields[i].name, fields[i].fieldType))
  }

  lemma FieldPairsKeys(fields: seq<AgentField>)
    ensures forall x :: x in Keys(FieldPairs(fields)) <==> exists i :: 0 <= i < |fields| && fields[i].name == x
  {
    var ks := Keys(FieldPairs(fields));
    forall x ensures x in ks <==> exists i :: 0 <= i < |fields| && fields[i].name == x {
      if x in ks {
        var i :| 0 <= i < |ks| && ks[i] == x;
        assert fields[i].name == x;
      }
      if exists i :: 0 <= i < |fields| && fields[i].name == x {
        var i :| 0 <= i < |fields| && fields[i].name == x;
        assert ks[i] == x;
      }
    }
  }

  /** `{field.name: field.type for field in fields}`: one entry per distinct name. */
  function SchemaDict(fields: seq<AgentField>): (r: Dict<string>)
    ensures NoDup(Keys(r))
    ensures forall x :: x in Keys(r) <==> exists i :: 0 <= i < |fields| && fields[i].name == x
  {
    var pairs := FieldPairs(fields);
    UpdateKeepsNoDup([], pairs);
    FieldPairsKeys(fields);
    Update([], pairs)
  }

  /** A name repeated in the fields keeps the type of its last mention. */
  lemma SchemaDictLastMention(fields: seq<AgentField>, i: nat)
    requires i < |fields| && forall j :: i < j < |fields| ==> fields[j].name != fields[i].name
    ensures Get(SchemaDict(fields), fields[i].name) == Some(fields[i].fieldType)
  {
    var pairs := FieldPairs(fields);
    assert Keys(pairs)[i] == fields[i].name;
    UpdateGet([], pairs, fields[i].name);
    LastValueAt(pairs, i);
  }

  /**
   * The dict `process_message` returns: from the final graph state, or the
   * error reply when running the graph raised.
   */
  function ResultOf(run: Result<AgentState, string>, lastAiMessage: Option<string>): (r: AgentResult)
    ensures run.Err? ==> r.phase == Error && r.urls == [] && r.schema == [] && r.code == ""
                         && r.errors == [run.error] && !r.requiresApproval
    ensures run.Ok? ==> r.phase == run.value.phase && r.urls == run.value.urls
                        && NoDup(Keys(r.schema)) && r.code == run.value.generatedCode
                        && r.errors == run.value.errors && r.requiresApproval == run.value.requiresApproval
  {
    match run
    case Err(msg) => AgentResult("Error processing request: " + msg, Error, [], [], "", [], false, [msg])
    case Ok(s) =>
      AgentResult(lastAiMessage.GetOr("Processing complete"), s.phase, s.urls, SchemaDict(s.schemaFields),
                  s.generatedCode, s.executionResults, s.requiresApproval, s.errors)
  }
}
