/**
 * The pipeline-context bookkeeping of the unified conversational agent
 * (`backend/app/agents/unified_agent.py`): loading or creating the
 * conversation context, the intent fallback and dispatch, merging URLs,
 * normalising schema definitions, the next-action suggestion and applying
 * optimisation suggestions. The LLM, Redis and the scraping service are
 * left out; what they return is passed in.
 */
module UnifiedAgent {
  import opened Base

  /** The JSON values an incoming context dictionary can hold, as far as the agent looks at them. */
  datatype Value =
    | Text(s: string)
    | Number(n: int)
    | TextList(items: seq<string>)
    | Mapping(entries: Dict<string>)
    | Null

  /** Python truthiness. */
  predicate Truthy(v: Value)
  {
    match v
    case Text(s) => s != ""
    case Number(n) => n != 0
    case TextList(xs) => xs != []
    case Mapping(e) => e != []
    case Null => false
  }

  datatype Context = Context(
    pipelineId: string, userId: Option<string>, urls: seq<string>, schema: Dict<string>,
    generatedCode: string, currentPhase: string, metadata: Dict<Value>)

  /** A context built from defaults only. */
  function NewContext(pipelineId: string, userId: Option<string>): Context
  {
    Context(pipelineId, userId, [], [], "", "initial", [])
  }

  // ---------------------------------------------------------------------
  // Creating a context
  // ---------------------------------------------------------------------

  const ContextFields: set<string> := {"urls", "schema", "generated_code", "current_phase", "metadata"}

  /**
   * The context field an incoming key feeds when a new context is created:
   * the five context fields stand for themselves, `phase` and `status` feed
   * `current_phase`, `code` feeds `generated_code`; every other key is dropped.
   */
  function TargetField(key: string): (t: Option<string>)
    ensures t.Some? ==> t.value in ContextFields
  {
    if key in ContextFields then Some(key)
    else if key == "phase" || key == "status" then Some("current_phase")
    else if key == "code" then Some("generated_code")
    else None
  }

  /** The filtered dictionary: entries assigned in incoming order, so a later key overrides an earlier one. */
  function FilterIncoming(incoming: Dict<Value>): (f: Dict<Value>)
    ensures forall k :: k in Keys(f) ==> k in ContextFields
    ensures NoDup(Keys(f))
  {
    if incoming == [] then []
    else
      var n := |incoming| - 1;
      var f := FilterIncoming(incoming[..n]);
      match TargetField(incoming[n].0)
      case None => f
      case Some(t) =>
        PutKeepsNoDup(f, t, incoming[n].1);
        Put(f, t, incoming[n].1)
  }

  /** The value of the last incoming entry whose key is one of `names`. */
  function LastAmong(incoming: Dict<Value>, names: set<string>): Option<Value>
  {
    if incoming == [] then None
    else if incoming[|incoming| - 1].0 in names then Some(incoming[|incoming| - 1].1)
    else LastAmong(incoming[..|incoming| - 1], names)
  }

  lemma {:induction false} FilterPicksLast(incoming: Dict<Value>, t: string, names: set<string>)
    requires forall k :: TargetField(k) == Some(t) <==> k in names
    ensures Get(FilterIncoming(incoming), t) == LastAmong(incoming, names)
  {
    if incoming != [] {
      FilterPicksLast(incoming[..|incoming| - 1], t, names);
    }
  }

  /**
   * Each context field takes the value of the last incoming key that feeds
   * it: `current_phase` from `current_phase`, `phase` or `status`,
   * `generated_code` from `generated_code` or `code`.
   */
  lemma FilterIncomingFields(incoming: Dict<Value>)
    ensures Get(FilterIncoming(incoming), "current_phase") == LastAmong(incoming, {"current_phase", "phase", "status"})
    ensures Get(FilterIncoming(incoming), "generated_code") == LastAmong(incoming, {"generated_code", "code"})
    ensures Get(FilterIncoming(incoming), "urls") == LastAmong(incoming, {"urls"})
    ensures Get(FilterIncoming(incoming), "schema") == LastAmong(incoming, {"schema"})
    ensures Get(FilterIncoming(incoming), "metadata") == LastAmong(incoming, {"metadata"})
  {
    FilterPicksLast(incoming, "current_phase", {"current_phase", "phase", "status"});
    FilterPicksLast(incoming, "generated_code", {"generated_code", "code"});
    FilterPicksLast(incoming, "urls", {"urls"});
    FilterPicksLast(incoming, "schema", {"schema"});
    FilterPicksLast(incoming, "metadata", {"metadata"});
  }

  /** Whether a value has the type the context field declares. */
  predicate Fits(field: string, v: Value)
  {
    if field == "urls" then v.TextList?
    else if field == "schema" || field == "metadata" then v.Mapping?
    else v.Text?
  }

  predicate AllFit(f: Dict<Value>)
  {
    forall i :: 0 <= i < |f| ==> Fits(f[i].0, f[i].1)
  }

  function AsMetadata(e: Dict<string>): (m: Dict<Value>)
    ensures Keys(m) == Keys(e)
  {
    seq(|e|, i requires 0 <= i < |e| => (e[i].0, Text(e[i].1)))
  }

  /** The context field `name` of the filtered dictionary, or its default when absent. */
  function TextField(f: Dict<Value>, name: string, default: string): string
  {
    var v := Get(f, name);
    if v.Some? && v.value.Text? then v.value.s else default
  }

  /**
   * The context built from a filtered dictionary, or from the defaults alone
   * when one of its values has the wrong type (construction fails and the
   * minimal context is built instead).
   */
  function FromFiltered(pipelineId: string, userId: Option<string>, f: Dict<Value>): (c: Context)
    ensures c.pipelineId == pipelineId && c.userId == userId
    ensures !AllFit(f) ==> c == NewContext(pipelineId, userId)
    ensures AllFit(f) ==>
              var phase := Get(f, "current_phase");
              var code := Get(f, "generated_code");
              var urls := Get(f, "urls");
              && (if phase.Some? then phase.value == Text(c.currentPhase) else c.currentPhase == "initial")
              && (if code.Some? then code.value == Text(c.generatedCode) else c.generatedCode == "")
              && (if urls.Some? then urls.value == TextList(c.urls) else c.urls == [])
    ensures AllFit(f) ==>
              var schema := Get(f, "schema");
              var meta := Get(f, "metadata");
              && (if schema.Some? then schema.value == Mapping(c.schema) else c.schema == [])
              && (if meta.Some? then meta.value.Mapping? && c.metadata == AsMetadata(meta.value.entries) else c.metadata == [])
  {
    if !AllFit(f) then NewContext(pipelineId, userId)
    else
      assert forall k :: k in Keys(f) ==> Fits(k, Get(f, k).value) by {
        forall k | k in Keys(f) ensures Fits(k, Get(f, k).value) {
          GetIsEntry(f, k);
        }
      }
      var urls := Get(f, "urls");
      var schema := Get(f, "schema");
      var meta := Get(f, "metadata");
      Context(pipelineId, userId,
              if urls.Some? && urls.value.TextList? then urls.value.items else [],
              if schema.Some? && schema.value.Mapping? then schema.value.entries else [],
              TextField(f, "generated_code", ""),
              TextField(f, "current_phase", "initial"),
              if meta.Some? && meta.value.Mapping? then AsMetadata(meta.value.entries) else [])
  }

  /** A new context: the filtered incoming fields over the defaults. */
  function CreateContext(pipelineId: string, userId: Option<string>, incoming: Option<Dict<Value>>): (c: Context)
    ensures c.pipelineId == pipelineId && c.userId == userId
    ensures incoming.None? ==> c == NewContext(pipelineId, userId)
    ensures incoming.Some? && !AllFit(FilterIncoming(incoming.value)) ==> c == NewContext(pipelineId, userId)
    ensures incoming.Some? && AllFit(FilterIncoming(incoming.value)) ==>
              var phase := LastAmong(incoming.value, {"current_phase", "phase", "status"});
              var code := LastAmong(incoming.value, {"generated_code", "code"});
              var urls := LastAmong(incoming.value, {"urls"});
              && (if phase.Some? then phase.value == Text(c.currentPhase) else c.currentPhase == "initial")
              && (if code.Some? then code.value == Text(c.generatedCode) else c.generatedCode == "")
              && (if urls.Some? then urls.value == TextList(c.urls) else c.urls == [])
    ensures incoming.Some? && AllFit(FilterIncoming(incoming.value)) ==>
              var schema := LastAmong(incoming.value, {"schema"});
              var meta := LastAmong(incoming.value, {"metadata"});
              && (if schema.Some? then schema.value == Mapping(c.schema) else c.schema == [])
              && (if meta.Some? then meta.value.Mapping? && c.metadata == AsMetadata(meta.value.entries) else c.metadata == [])
  {
    if incoming.None? then NewContext(pipelineId, userId)
    else
      FilterIncomingFields(incoming.value);
      FromFiltered(pipelineId, userId, FilterIncoming(incoming.value))
  }

  lemma {:induction false} GetIsEntry<V>(d: Dict<V>, k: string)
    requires k in Keys(d)
    ensures exists i :: 0 <= i < |d| && d[i] == (k, Get(d, k).value)
  {
    if d[0].0 == k {
      assert d[0] == (k, Get(d, k).value);
    } else {
      assert Keys(d) == [d[0].0] + Keys(d[1..]);
      GetIsEntry(d[1..], k);
      var i :| 0 <= i < |d[1..]| && d[1..][i] == (k, Get(d[1..], k).value);
      assert d[i + 1] == (k, Get(d, k).value);
    }
  }

  /** Incoming keys that feed no context field (collaborators, say) make no difference. */
  lemma UnknownKeysDropped(pipelineId: string, userId: Option<string>, incoming: Dict<Value>, key: string, v: Value)
    requires TargetField(key).None?
    ensures CreateContext(pipelineId, userId, Some(incoming + [(key, v)])) == CreateContext(pipelineId, userId, Some(incoming))
  {
    assert (incoming + [(key, v)])[..|incoming|] == incoming;
  }

  // ---------------------------------------------------------------------
  // Merging into a stored context
  // ---------------------------------------------------------------------

  /** An incoming value that is present and truthy. */
  function Given(incoming: Dict<Value>, key: string): (v: Option<Value>)
    ensures v.Some? ==> Truthy(v.value) && Get(incoming, key) == v
    ensures v.None? ==> Get(incoming, key).None? || !Truthy(Get(incoming, key).value)
  {
    match Get(incoming, key)
    case Some(x) => if Truthy(x) then Some(x) else None
    case None => None
  }

  /** The incoming code: `code` when truthy, else `generated_code` when truthy. */
  function GivenCode(incoming: Dict<Value>): Option<Value>
  {
    if Given(incoming, "code").Some? then Given(incoming, "code") else Given(incoming, "generated_code")
  }

  /**
   * Reloading a stored context: the incoming urls, schema and code replace
   * the stored ones only when truthy; everything else is kept. Rebuilding
   * the context raises (`None`) when a replacing value has the wrong type.
   */
  function MergeStored(stored: Context, incoming: Option<Dict<Value>>): (r: Option<Context>)
    ensures incoming.None? ==> r == Some(stored)
    ensures incoming.Some? ==>
              var u := Given(incoming.value, "urls");
              var s := Given(incoming.value, "schema");
              var c := GivenCode(incoming.value);
              && (r.None? <==> (u.Some? && !u.value.TextList?) || (s.Some? && !s.value.Mapping?)
                                || (c.Some? && !c.value.Text?))
              && (r.Some? ==>
                    && r.value.urls == (if u.Some? then u.value.items else stored.urls)
                    && r.value.schema == (if s.Some? then s.value.entries else stored.schema)
                    && r.value.generatedCode == (if c.Some? then c.value.s else stored.generatedCode)
                    && r.value == stored.(urls := r.value.urls, schema := r.value.schema,
                                          generatedCode := r.value.generatedCode))
  {
    if incoming.None? then Some(stored)
    else
      var u := Given(incoming.value, "urls");
      var s := Given(incoming.value, "schema");
      var c := GivenCode(incoming.value);
      if (u.Some? && !u.value.TextList?) || (s.Some? && !s.value.Mapping?) || (c.Some? && !c.value.Text?) then None
      else
        Some(stored.(urls := if u.Some? then u.value.items else stored.urls,
                     schema := if s.Some? then s.value.entries else stored.schema,
                     generatedCode := if c.Some? then c.value.s else stored.generatedCode))
  }

  /** `_get_or_create_context`: a stored context is reloaded and merged, otherwise a new one is created. */
  function LoadContext(stored: Option<Context>, pipelineId: string, userId: Option<string>,
                       incoming: Option<Dict<Value>>): (r: Option<Context>)
    ensures stored.None? ==> r.Some? && r.value.pipelineId == pipelineId && r.value.userId == userId
    ensures stored.Some? && r.Some? ==> r.value.pipelineId == stored.value.pipelineId
                                        && r.value.userId == stored.value.userId
                                        && r.value.currentPhase == stored.value.currentPhase
  {
    if stored.Some? then MergeStored(stored.value, incoming) else Some(CreateContext(pipelineId, userId, incoming))
  }

  /** Empty incoming values never wipe a stored context: only non-empty ones replace. */
  lemma EmptyValuesKeepStored(stored: Context, incoming: Dict<Value>)
    requires forall i :: 0 <= i < |incoming| ==> !Truthy(incoming[i].1)
    ensures MergeStored(stored, Some(incoming)) == Some(stored)
  {
    forall k | k in Keys(incoming) ensures !Truthy(Get(incoming, k).value) {
      GetIsEntry(incoming, k);
    }
  }

  // ---------------------------------------------------------------------
  // Intents
  // ---------------------------------------------------------------------

  datatype FieldItem = ItemDict(entries: Dict<string>) | ItemText(s: string) | ItemOther

  /** The `fields` entity: a list, a dict, or anything else (with its truthiness). */
  datatype FieldsInput = FieldList(items: seq<FieldItem>) | FieldDict(d: Dict<string>) | FieldOther(truthy: bool)

  datatype Entities = Entities(urls: seq<string>, searchQuery: Option<string>, fields: FieldsInput)

  datatype Intent = Intent(primaryIntent: string, confidence: real, entities: Entities,
                           suggestedActions: seq<string>, similarPipelines: seq<string>)

  const NoEntities := Entities([], None, FieldDict([]))

  /** The intent used when the intent analysis reply cannot be parsed. */
  const FallbackIntent := Intent("ask_question", 0.5, NoEntities, ["clarify_request"], [])

  datatype Handler = AddUrls | DefineSchema | GenerateCode | RunPipeline | ReusePipeline | OptimizePipeline | GeneralQuestion

  /** The intent name each handler is registered under. */
  function IntentName(h: Handler): string
  {
    match h
    case AddUrls => "add_urls"
    case DefineSchema => "define_schema"
    case GenerateCode => "generate_code"
    case RunPipeline => "run_pipeline"
    case ReusePipeline => "reuse_pipeline"
    case OptimizePipeline => "optimize_pipeline"
    case GeneralQuestion => "ask_question"
  }

  const IntentNames: set<string> :=
    {"add_urls", "define_schema", "generate_code", "run_pipeline", "reuse_pipeline", "optimize_pipeline", "ask_question"}

  /** `_process_by_intent`: the registered handler, the general-question handler for any other name. */
  function HandlerFor(intent: string): (h: Handler)
    ensures intent in IntentNames ==> IntentName(h) == intent
    ensures intent !in IntentNames ==> h == GeneralQuestion
  {
    if intent == "add_urls" then AddUrls
    else if intent == "define_schema" then DefineSchema
    else if intent == "generate_code" then GenerateCode
    else if intent == "run_pipeline" then RunPipeline
    else if intent == "reuse_pipeline" then ReusePipeline
    else if intent == "optimize_pipeline" then OptimizePipeline
    else GeneralQuestion
  }

  /** Dispatch inverts the registration: every handler is reached by its own name. */
  lemma HandlerForName(h: Handler)
    ensures HandlerFor(IntentName(h)) == h
    ensures IntentName(h) in IntentNames
  {
  }

  /** The analysed intent, its similar pipelines left empty, or the fallback when the reply could not be parsed. */
  function AnalyzeIntent(reply: Option<Intent>): (i: Intent)
    ensures reply.Some? ==> i == reply.value.(similarPipelines := [])
    ensures reply.None? ==> HandlerFor(i.primaryIntent) == GeneralQuestion && i.confidence == 0.5
                            && i.suggestedActions == ["clarify_request"]
  {
    if reply.Some? then reply.value.(similarPipelines := []) else FallbackIntent
  }

  // ---------------------------------------------------------------------
  // Adding URLs
  // ---------------------------------------------------------------------

  /** The non-empty `url` entries of the search results, in order. */
  function SearchUrls(results: seq<Option<string>>): (r: seq<string>)
    ensures forall x :: x in r <==> Some(x) in results && x != ""
  {
    if results == [] then []
    else
      assert results == [results[0]] + results[1..];
      (if results[0].Some? && results[0].value != "" then [results[0].value] else []) + SearchUrls(results[1..])
  }

  /** The search results are read in order: those of a joined list are those of each part in turn. */
  lemma {:induction false} SearchUrlsConcat(a: seq<Option<string>>, b: seq<Option<string>>)
    ensures SearchUrls(a + b) == SearchUrls(a) + SearchUrls(b)
    ensures |a| == 1 ==> SearchUrls(a) == if a[0].Some? && a[0].value != "" then [a[0].value] else []
  {
    if a == [] {
      assert a + b == b;
    } else {
      var ab := a + b;
      assert ab[0] == a[0] && ab[1..] == a[1..] + b;
      SearchUrlsConcat(a[1..], b);
      if |a| == 1 { assert a[1..] == []; }
    }
  }

  /** The URLs to add: the entity's list, or the search results when it is empty and a query is given. */
  function UrlsToAdd(e: Entities, searchResults: seq<Option<string>>): (r: seq<string>)
    ensures e.urls != [] ==> r == e.urls
    ensures e.urls == [] && (e.searchQuery.None? || e.searchQuery.value == "") ==> r == []
    ensures e.urls == [] && e.searchQuery.Some? && e.searchQuery.value != "" ==> r == SearchUrls(searchResults)
  {
    if e.searchQuery.Some? && e.searchQuery.value != "" && e.urls == [] then SearchUrls(searchResults) else e.urls
  }

  datatype UrlsAdded = UrlsAdded(context: Context, added: seq<string>)

  /**
   * `_handle_add_urls`: the URLs not yet in the context are appended in
   * order; duplicates within the incoming list are kept.
   */
  function HandleAddUrls(c: Context, toAdd: seq<string>): (r: UrlsAdded)
    ensures r.context.urls == c.urls + r.added
    ensures forall x :: x in r.added <==> x in toAdd && x !in c.urls
    ensures forall x :: x !in c.urls ==> multiset(r.added)[x] == multiset(toAdd)[x]
    ensures r.context == c.(urls := r.context.urls)
  {
    var added := KeepAbsent(toAdd, c.urls);
    UrlsAdded(c.(urls := c.urls + added), added)
  }

  /**
   * The incoming URLs are taken in order: those added from a joined list are
   * those added from each part in turn, and a single URL is added exactly
   * when the context lacks it.
   */
  lemma HandleAddUrlsConcat(c: Context, a: seq<string>, b: seq<string>)
    ensures HandleAddUrls(c, a + b).added == HandleAddUrls(c, a).added + HandleAddUrls(c, b).added
    ensures |a| == 1 ==> HandleAddUrls(c, a).added == if a[0] in c.urls then [] else [a[0]]
  {
    KeepAbsentConcat(a, b, c.urls);
  }

  // ---------------------------------------------------------------------
  // Defining a schema
  // ---------------------------------------------------------------------

  const DefaultFields: Dict<string> := [("title", "str"), ("content", "str"), ("url", "str")]

  /**
   * The pair a list item contributes: a dict with `name` gives its name and
   * type (default "str"), another dict its first pair, a string itself as a
   * "str" field; anything else nothing.
   */
  function ItemPair(item: FieldItem): Option<(string, string)>
  {
    match item
    case ItemDict(e) =>
      if "name" in Keys(e) then Some((Get(e, "name").value, Get(e, "type").GetOr("str")))
      else if e != [] then Some(e[0])
      else None
    case ItemText(s) => Some((s, "str"))
    case ItemOther => None
  }

  function ItemPairs(items: seq<FieldItem>): (ps: seq<(string, string)>)
    ensures |ps| <= |items|
  {
    if items == [] then []
    else
      var rest := ItemPairs(items[..|items| - 1]);
      match ItemPair(items[|items| - 1])
      case Some(p) => rest + [p]
      case None => rest
  }

  /** The list items are read in order: the pairs of a joined list are those of each part in turn. */
  lemma {:induction false} ItemPairsConcat(a: seq<FieldItem>, b: seq<FieldItem>)
    ensures ItemPairs(a + b) == ItemPairs(a) + ItemPairs(b)
    decreases |b|
  {
    if b == [] {
      assert a + b == a;
    } else {
      var ab, n := a + b, |b| - 1;
      assert ab[..|ab| - 1] == a + b[..n] && ab[|ab| - 1] == b[n];
      ItemPairsConcat(a, b[..n]);
    }
  }

  predicate FieldsTruthy(f: FieldsInput)
  {
    match f
    case FieldList(items) => items != []
    case FieldDict(d) => d != []
    case FieldOther(t) => t
  }

  /** The dictionary a `fields` value normalises to. */
  function Normalise(f: FieldsInput): (d: Dict<string>)
  {
    match f
    case FieldList(items) => Update([], ItemPairs(items))
    case FieldDict(d) => d
    case FieldOther(_) => DefaultFields
  }

  /** The pairs of a one-item list. */
  lemma OneItemPairs(x: FieldItem)
    ensures Normalise(FieldList([x])) == if ItemPair(x).Some? then [ItemPair(x).value] else []
  {
    assert [x][..0] == [];
    var ps := ItemPairs([x]);
    assert ps == if ItemPair(x).Some? then [ItemPair(x).value] else [];
    if ps != [] {
      assert ps[..0] == [];
      assert Update([], ps) == Put([], ps[0].0, ps[0].1);
    }
  }

  /** One list item on its own: each item kind gives the field the source describes. */
  lemma SingleItemFields(e: Dict<string>, s: string)
    ensures "name" in Keys(e) ==>
              Normalise(FieldList([ItemDict(e)])) == [(Get(e, "name").value, Get(e, "type").GetOr("str"))]
    ensures "name" !in Keys(e) && e != [] ==> Normalise(FieldList([ItemDict(e)])) == [e[0]]
    ensures "name" !in Keys(e) && e == [] ==> Normalise(FieldList([ItemDict(e)])) == []
    ensures Normalise(FieldList([ItemText(s)])) == [(s, "str")]
    ensures Normalise(FieldList([ItemOther])) == []
  {
    OneItemPairs(ItemDict(e));
    OneItemPairs(ItemText(s));
    OneItemPairs(ItemOther);
  }

  /**
   * `_handle_define_schema`: the entity's fields, or the suggested ones when
   * they are empty, normalised and laid over the context's schema.
   */
  function HandleDefineSchema(c: Context, fields: FieldsInput, suggested: Dict<string>): (r: Context)
    ensures r == c.(schema := r.schema)
    ensures forall k :: k in Keys(c.schema) ==> k in Keys(r.schema)
  {
    var chosen := if FieldsTruthy(fields) then fields else FieldDict(suggested);
    c.(schema := Update(c.schema, Normalise(chosen)))
  }

  /** New keys override and every other key keeps its value. */
  lemma DefineSchemaOverlays(c: Context, fields: FieldsInput, suggested: Dict<string>, k: string)
    requires FieldsTruthy(fields)
    ensures var n := Normalise(fields);
            Get(HandleDefineSchema(c, fields, suggested).schema, k)
            == if k in Keys(n) then LastValue(n, k) else Get(c.schema, k)
  {
    UpdateGet(c.schema, Normalise(fields), k);
  }

  /** A listed field ends up with the type of its last mention. */
  lemma ListedFieldTakesLastType(c: Context, items: seq<FieldItem>, suggested: Dict<string>, k: string)
    requires items != [] && k in Keys(ItemPairs(items))
    ensures Get(HandleDefineSchema(c, FieldList(items), suggested).schema, k) == LastValue(ItemPairs(items), k)
  {
    var n := Update([], ItemPairs(items));
    UpdateGet([], ItemPairs(items), k);
    UpdateKeepsNoDup([], ItemPairs(items));
    LastValueOfDict(n, k);
    UpdateGet(c.schema, n, k);
  }

  // ---------------------------------------------------------------------
  // Next actions and optimisations
  // ---------------------------------------------------------------------

  /** `_suggest_next_actions`: the first missing piece, or the three follow-ups once all are there. */
  function NextActions(c: Context): (r: seq<string>)
    ensures r == ["add_urls"] <==> c.urls == []
    ensures r == ["define_schema"] <==> c.urls != [] && c.schema == []
    ensures r == ["generate_code"] <==> c.urls != [] && c.schema != [] && c.generatedCode == ""
    ensures |r| == 3 <==> c.urls != [] && c.schema != [] && c.generatedCode != ""
  {
    if c.urls == [] then ["add_urls"]
    else if c.schema == [] then ["define_schema"]
    else if c.generatedCode == "" then ["generate_code"]
    else ["run_pipeline", "save_pipeline", "optimize_pipeline"]
  }

  /** Adding URLs to a context without any moves the suggestion on to the schema or later. */
  lemma AddingUrlsAdvances(c: Context, toAdd: seq<string>)
    requires c.urls == [] && toAdd != []
    ensures NextActions(HandleAddUrls(c, toAdd).context) != ["add_urls"]
  {
    assert toAdd[0] in HandleAddUrls(c, toAdd).added;
  }

  /** A non-empty schema definition on a context with URLs moves the suggestion past the schema. */
  lemma DefiningSchemaAdvances(c: Context, fields: FieldsInput, suggested: Dict<string>)
    requires c.urls != [] && FieldsTruthy(fields) && Normalise(fields) != []
    ensures NextActions(HandleDefineSchema(c, fields, suggested)) != ["define_schema"]
  {
    var k := Normalise(fields)[0].0;
    assert Keys(Normalise(fields))[0] == k;
    UpdateGet(c.schema, Normalise(fields), k);
  }

  datatype Suggestion = Suggestion(kind: Option<string>, fields: Dict<string>)

  predicate Concurrency(o: Suggestion) { o.kind == Some("add_concurrency") }

  predicate SchemaFields(o: Suggestion) { o.kind == Some("optimize_schema") && o.fields != [] }

  /** The field dictionaries of the schema suggestions, in order. */
  function SchemaFieldsOf(opts: seq<Suggestion>): seq<(string, string)>
  {
    if opts == [] then []
    else
      var n := |opts| - 1;
      SchemaFieldsOf(opts[..n]) + (if SchemaFields(opts[n]) then opts[n].fields else [])
  }

  /** Each suggestion applied in turn to the code and the schema. */
  function ApplyEach(c: Context, opts: seq<Suggestion>): (r: Context)
    ensures r == c.(generatedCode := r.generatedCode, schema := r.schema)
    ensures r.schema == Update(c.schema, SchemaFieldsOf(opts))
    ensures (forall i :: 0 <= i < |opts| ==> !Concurrency(opts[i])) ==> r.generatedCode == c.generatedCode
    ensures c.generatedCode == "" ==> r.generatedCode == ""
  {
    if opts == [] then c
    else
      var n := |opts| - 1;
      var prev := ApplyEach(c, opts[..n]);
      var o := opts[n];
      UpdateConcat(c.schema, SchemaFieldsOf(opts[..n]), if SchemaFields(o) then o.fields else []);
      if Concurrency(o) && prev.generatedCode != "" then
        prev.(generatedCode := ReplaceAll(prev.generatedCode, "max_concurrency = 1", "max_concurrency = 5"))
      else if SchemaFields(o) then prev.(schema := Update(prev.schema, o.fields))
      else prev
  }

  /**
   * `_apply_optimizations`: records how many suggestions there were and
   * merges the fields of the schema suggestions; URLs and the rest of the
   * metadata are kept.
   */
  function ApplyOptimizations(c: Context, opts: seq<Suggestion>): (r: Context)
    ensures Get(r.metadata, "optimizations_applied") == Some(Number(|opts|))
    ensures forall k :: k != "optimizations_applied" ==> Get(r.metadata, k) == Get(c.metadata, k)
    ensures r.urls == c.urls && r.pipelineId == c.pipelineId && r.currentPhase == c.currentPhase
    ensures r.schema == Update(c.schema, SchemaFieldsOf(opts))
    ensures (forall i :: 0 <= i < |opts| ==> !Concurrency(opts[i])) ==> r.generatedCode == c.generatedCode
  {
    var applied := ApplyEach(c, opts);
    applied.(metadata := Put(c.metadata, "optimizations_applied", Number(|opts|)))
  }

  /** Code without the single-worker setting is left as it is by a concurrency suggestion. */
  lemma ConcurrencyNeedsSetting(c: Context, o: Suggestion)
    requires Concurrency(o) && !Contains(c.generatedCode, "max_concurrency = 1")
    ensures ApplyOptimizations(c, [o]).generatedCode == c.generatedCode
  {
    assert [o][..0] == [];
    ReplaceAbsent(c.generatedCode, "max_concurrency = 1", "max_concurrency = 5");
  }
}
