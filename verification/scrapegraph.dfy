/**
 * The ScrapeGraph client wrapper in its two versions
 * (`backend/app/services/scrapegraph.py` and
 * `scrapecraft-repo/backend/app/services/scrapegraph.py`): the shaping of
 * the concurrent per-URL smartscraper replies into one record per URL, the
 * dynamic schema model of the second version, and the parsing of a
 * searchscraper reply into URL entries. The client calls are parameters:
 * what `asyncio.gather` handed back, or that opening the client raised.
 */
module ScrapeGraph {
  import opened Base

  /** A JSON value as the API returns it. */
  datatype Json =
    | JNull
    | JBool(b: bool)
    | JNum(n: int)
    | JText(s: string)
    | JList(items: seq<Json>)
    | JObject(fields: Dict<Json>)

  /** Python truthiness of a JSON value. */
  predicate Truthy(j: Json)
  {
    match j
    case JNull => false
    case JBool(b) => b
    case JNum(n) => n != 0
    case JText(s) => s != ""
    case JList(items) => items != []
    case JObject(fields) => fields != []
  }

  /**
   * What `for x in j` yields: the items of a list, the one-character strings
   * of a string, the keys of a dict; `None` where iterating raises
   * `TypeError` (null, booleans, numbers).
   */
  function Iterate(j: Json): (r: Option<seq<Json>>)
    ensures r.None? <==> j.JNull? || j.JBool? || j.JNum?
    ensures j.JList? ==> r == Some(j.items)
  {
    match j
    case JList(items) => Some(items)
    case JText(s) => Some(seq(|s|, i requires 0 <= i < |s| => JText([s[i]])))
    case JObject(fields) => Some(seq(|fields|, i requires 0 <= i < |fields| => JText(fields[i].0)))
    case _ => None
  }

  // ---------------------------------------------------------------------
  // Per-URL result shaping
  // ---------------------------------------------------------------------

  /** A smartscraper reply: a plain JSON value, or a Pydantic object with `model_dump`. */
  datatype Reply = JsonReply(j: Json) | ModelReply(dump: Json)

  /** One entry of `gather(..., return_exceptions=True)`: the exception's text or the reply. */
  datatype Outcome<R> = Raised(message: string) | Returned(reply: R)

  /** The whole batch: the gathered outcomes, or the text of an exception that ended the `try`. */
  datatype Batch<R> = Gathered(outcomes: seq<Outcome<R>>) | BatchFailed(message: string)

  /** `{"url", "success", "data", "error"}`; `None` for Python's `None`. */
  datatype ScrapeRecord<D> = ScrapeRecord(url: string, success: bool, data: Option<D>, error: Option<string>)

  /** `urls[i]` past the end of the list. */
  const IndexErrorMessage := "list index out of range"

  function Record<R, D>(url: string, o: Outcome<R>, data: R -> D): (r: ScrapeRecord<D>)
    ensures r.url == url
    ensures r.success <==> o.Returned?
    ensures o.Raised? ==> r.data == None && r.error == Some(o.message)
    ensures o.Returned? ==> r.data == Some(data(o.reply)) && r.error == None
  {
    match o
    case Raised(m) => ScrapeRecord(url, false, None, Some(m))
    case Returned(x) => ScrapeRecord(url, true, Some(data(x)), None)
  }

  /** Every URL failed with the same error, as the `except` branch builds it. */
  function AllFailed<D>(urls: seq<string>, message: string): (r: seq<ScrapeRecord<D>>)
    ensures |r| == |urls|
    ensures forall i :: 0 <= i < |urls| ==> r[i] == ScrapeRecord(urls[i], false, None, Some(message))
  {
    seq(|urls|, i requires 0 <= i < |urls| => ScrapeRecord(urls[i], false, None, Some(message)))
  }

  /**
   * The loop over `enumerate(raw_results)`: record `i` names `urls[i]`;
   * `None` when there are more outcomes than URLs, where `urls[i]` raises.
   */
  function ShapeRecords<R, D>(urls: seq<string>, outcomes: seq<Outcome<R>>, data: R -> D): (r: Option<seq<ScrapeRecord<D>>>)
    ensures r.None? <==> |outcomes| > |urls|
    ensures r.Some? ==> |r.value| == |outcomes|
    ensures r.Some? ==> forall i :: 0 <= i < |outcomes| ==> r.value[i] == Record(urls[i], outcomes[i], data)
  {
    if |outcomes| > |urls| then None
    else Some(seq(|outcomes|, i requires 0 <= i < |outcomes| => Record(urls[i], outcomes[i], data)))
  }

  /**
   * The first version's `data`: the `result` entry of a dict reply that has
   * one, the `model_dump()` of a Pydantic reply, the reply itself otherwise.
   */
  function Unwrap(reply: Reply): (d: Json)
    ensures reply.ModelReply? ==> d == reply.dump
    ensures reply.JsonReply? && reply.j.JObject? && "result" in Keys(reply.j.fields) ==>
              Some(d) == Get(reply.j.fields, "result")
    ensures reply.JsonReply? && !(reply.j.JObject? && "result" in Keys(reply.j.fields)) ==> d == reply.j
  {
    match reply
    case ModelReply(dump) => dump
    case JsonReply(j) =>
      if j.JObject? && "result" in Keys(j.fields) then Get(j.fields, "result").value else j
  }

  /** `execute_pipeline` of the first version. */
  function ExecutePipeline(urls: seq<string>, batch: Batch<Reply>): (r: seq<ScrapeRecord<Json>>)
    ensures |r| <= |urls| && forall i :: 0 <= i < |r| ==> r[i].url == urls[i]
    ensures batch.BatchFailed? ==> r == AllFailed(urls, batch.message)
    ensures batch.Gathered? && |batch.outcomes| == |urls| ==>
              |r| == |urls| &&
              forall i :: 0 <= i < |urls| ==>
                && (r[i].success <==> batch.outcomes[i].Returned?)
                && (batch.outcomes[i].Raised? ==> r[i].data == None && r[i].error == Some(batch.outcomes[i].message))
                && (batch.outcomes[i].Returned? ==> r[i].data == Some(Unwrap(batch.outcomes[i].reply)) && r[i].error == None)
  {
    match batch
    case BatchFailed(m) => AllFailed(urls, m)
    case Gathered(os) =>
      match ShapeRecords(urls, os, Unwrap)
      case None => AllFailed(urls, IndexErrorMessage)
      case Some(rs) => rs
  }

  // ---------------------------------------------------------------------
  // The dynamic schema model of the second version
  // ---------------------------------------------------------------------

  /** The annotation a field gets: a mapped Python type, or `NoneType` for a `null` type. */
  datatype FieldType = Typed(t: PyType) | NoneType

  /** `(Optional[annotation], default)` as handed to `create_model`. */
  datatype FieldSpec = FieldSpec(annotation: FieldType, optional: bool, default: Json)

  /** The `type_mapping` table: the six names of Python's basic types, anything else `str`. */
  function TypeFor(name: string): (t: PyType)
    ensures name == "str" || name !in {"int", "float", "bool", "list", "dict"} <==> t == PyStr
    ensures name == "int" <==> t == PyInt
    ensures name == "float" <==> t == PyFloat
    ensures name == "bool" <==> t == PyBool
    ensures name == "list" <==> t == PyList
    ensures name == "dict" <==> t == PyDict
  {
    if name == "int" then PyInt
    else if name == "float" then PyFloat
    else if name == "bool" then PyBool
    else if name == "list" then PyList
    else if name == "dict" then PyDict
    else PyStr
  }

  /**
   * The field's annotation: a type name goes through the table, and any
   * other value is used as it is, which `Optional[...]` accepts only for
   * `None` and rejects with `TypeError` (`None` here) for everything else.
   */
  function FieldTypeOf(j: Json): (r: Option<FieldType>)
    ensures r.None? <==> !j.JText? && !j.JNull?
    ensures j.JText? ==> r == Some(Typed(TypeFor(j.s)))
  {
    match j
    case JText(s) => Some(Typed(TypeFor(s)))
    case JNull => Some(NoneType)
    case _ => None
  }

  predicate AllTyped(schema: Dict<Json>)
  {
    forall i :: 0 <= i < |schema| ==> FieldTypeOf(schema[i].1).Some?
  }

  function FieldPairs(schema: Dict<Json>): (ps: seq<(string, FieldSpec)>)
    requires AllTyped(schema)
    ensures Keys(ps) == Keys(schema)
    ensures |ps| == |schema|
    ensures forall i :: 0 <= i < |schema| ==> ps[i] == (schema[i].0, FieldSpec(FieldTypeOf(schema[i].1).value, true, JNull))
  {
    var ps := seq(|schema|, i requires 0 <= i < |schema| => (schema[i].0, FieldSpec(FieldTypeOf(schema[i].1).value, true, JNull)));
    assert Keys(ps) == Keys(schema);
    ps
  }

  /**
   * `_create_pydantic_model`: every field assigned in schema order to an
   * optional annotation with default `None`; `None` where `Optional[...]`
   * raises for some field.
   */
  function PydanticFields(schema: Dict<Json>): (r: Option<Dict<FieldSpec>>)
    ensures r.Some? <==> AllTyped(schema)
    ensures r.Some? ==> forall x :: x in Keys(r.value) <==> x in Keys(schema)
  {
    if AllTyped(schema) then Some(Update([], FieldPairs(schema))) else None
  }

  /** Each field of a schema dictionary keeps its name, maps its type name, and becomes optional with default `None`. */
  lemma PydanticFieldOf(schema: Dict<Json>, i: nat)
    requires i < |schema| && NoDup(Keys(schema)) && schema[i].1.JText?
    ensures PydanticFields(schema).Some? ==>
              Get(PydanticFields(schema).value, schema[i].0) == Some(FieldSpec(Typed(TypeFor(schema[i].1.s)), true, JNull))
  {
    if AllTyped(schema) {
      var ps := FieldPairs(schema);
      UpdateFreshGet(ps, i);
    }
  }

  /** The text of the `TypeError` that `Optional[...]` raises for a value that is not a type. */
  const SchemaTypeError := "Optional[t] requires a single type."

  /**
   * `execute_pipeline` of the second version: a truthy schema is turned
   * into a model once per URL, and a failure there ends the `try` for all
   * URLs; a successful record carries the reply as it came, unwrapped.
   */
  function ExecutePipelineWithSchema(urls: seq<string>, schema: Dict<Json>, batch: Batch<Reply>): (r: seq<ScrapeRecord<Reply>>)
    ensures |r| <= |urls| && forall i :: 0 <= i < |r| ==> r[i].url == urls[i]
    ensures batch.BatchFailed? ==> r == AllFailed(urls, batch.message)
    ensures batch.Gathered? && urls != [] && schema != [] && !AllTyped(schema) ==> r == AllFailed(urls, SchemaTypeError)
    ensures batch.Gathered? && (urls == [] || schema == [] || AllTyped(schema)) && |batch.outcomes| == |urls| ==>
              |r| == |urls| &&
              forall i :: 0 <= i < |urls| ==>
                && (r[i].success <==> batch.outcomes[i].Returned?)
                && (batch.outcomes[i].Returned? ==> r[i].data == Some(batch.outcomes[i].reply) && r[i].error == None)
                && (batch.outcomes[i].Raised? ==> r[i].data == None && r[i].error == Some(batch.outcomes[i].message))
  {
    match batch
    case BatchFailed(m) => AllFailed(urls, m)
    case Gathered(os) =>
      if urls != [] && schema != [] && PydanticFields(schema).None? then AllFailed(urls, SchemaTypeError)
      else
        match ShapeRecords(urls, os, (x: Reply) => x)
        case None => AllFailed(urls, IndexErrorMessage)
        case Some(rs) => rs
  }

  /**
   * Without a schema the two versions give the same records, except that
   * the first one unwraps the data of each success.
   */
  lemma VersionsAgree(urls: seq<string>, batch: Batch<Reply>)
    ensures var a := ExecutePipeline(urls, batch);
            var b := ExecutePipelineWithSchema(urls, [], batch);
            && |a| == |b|
            && forall i :: 0 <= i < |a| ==>
                 && a[i].url == b[i].url && a[i].success == b[i].success && a[i].error == b[i].error
                 && a[i].data == (if b[i].data.Some? then Some(Unwrap(b[i].data.value)) else None)
  {
  }

  // ---------------------------------------------------------------------
  // Search replies (the same code in both versions)
  // ---------------------------------------------------------------------

  /** One `{"url", "description"}` entry of the search output. */
  datatype Found = Found(url: Json, description: Json)

  function Urls(es: seq<Found>): (r: seq<Json>)
    ensures |r| == |es| && forall i :: 0 <= i < |es| ==> r[i] == es[i].url
  {
    seq(|es|, i requires 0 <= i < |es| => es[i].url)
  }

  function SearchDefault(query: string): string { "Found via search for: " + query }

  function ReferenceDescription(query: string): string { "Reference source for: " + query }

  /** `website.get('description', website.get('name', default))`. */
  function Describe(website: Dict<Json>, query: string): (d: Json)
    ensures "description" in Keys(website) ==> Some(d) == Get(website, "description")
    ensures "description" !in Keys(website) && "name" in Keys(website) ==> Some(d) == Get(website, "name")
    ensures "description" !in Keys(website) && "name" !in Keys(website) ==> d == JText(SearchDefault(query))
  {
    Get(website, "description").GetOr(Get(website, "name").GetOr(JText(SearchDefault(query))))
  }

  predicate HasUrl(w: Json)
  {
    w.JObject? && "url" in Keys(w.fields)
  }

  /** The items that carry a URL, in order. */
  function Filtered(items: seq<Json>): (r: seq<Json>)
    ensures |r| <= |items|
    ensures forall w :: w in r <==> w in items && HasUrl(w)
    ensures forall i :: 0 <= i < |r| ==> HasUrl(r[i])
  {
    if items == [] then []
    else
      assert forall v :: v in items <==> v == items[0] || v in items[1..];
      (if HasUrl(items[0]) then [items[0]] else []) + Filtered(items[1..])
  }

  /** The output entry of a website that carries a URL. */
  function Entry(w: Json, query: string): Found
    requires HasUrl(w)
  {
    Found(Get(w.fields, "url").value, Describe(w.fields, query))
  }

  /** The loop over `websites`: one entry per dict with a `url` key, in order; anything else is skipped. */
  function WebsiteEntries(items: seq<Json>, query: string): (r: seq<Found>)
    ensures |r| <= |items|
    ensures forall w :: w in items && HasUrl(w) ==> Entry(w, query) in r
    ensures forall e :: e in r ==> exists w :: w in items && HasUrl(w) && e == Entry(w, query)
  {
    var kept := Filtered(items);
    var r := seq(|kept|, i requires 0 <= i < |kept| => Entry(kept[i], query));
    forall w | w in items && HasUrl(w) ensures Entry(w, query) in r {
      var i :| 0 <= i < |kept| && kept[i] == w;
      assert r[i] == Entry(w, query);
    }
    forall e | e in r ensures exists w :: w in items && HasUrl(w) && e == Entry(w, query) {
      var i :| 0 <= i < |r| && r[i] == e;
      assert kept[i] in kept;
    }
    r
  }

  /**
   * The reference loop: each reference URL not yet among the entries'
   * URLs (checked against the growing list) is appended with the
   * given description.
   */
  function AddReferences(entries: seq<Found>, refs: seq<Json>, description: Json): (r: seq<Found>)
    ensures |entries| <= |r| && r[..|entries|] == entries
    ensures Urls(r) == AppendNew(Urls(entries), refs)
    ensures forall i :: |entries| <= i < |r| ==> r[i].description == description
    decreases |refs|
  {
    if refs == [] then entries
    else if refs[0] in Urls(entries) then
      assert AppendNew(Urls(entries), refs) == AppendNew(Urls(entries), refs[1..]);
      AddReferences(entries, refs[1..], description)
    else
      var entries' := entries + [Found(refs[0], description)];
      assert Urls(entries') == Urls(entries) + [refs[0]];
      assert AppendNew(Urls(entries), refs) == AppendNew(Urls(entries'), refs[1..]);
      var r := AddReferences(entries', refs[1..], description);
      assert r[..|entries|] == entries by { assert r[..|entries'|][..|entries|] == entries; }
      assert forall i :: |entries| <= i < |r| ==> r[i].description == description by {
        forall i | |entries| <= i < |r| ensures r[i].description == description {
          if i < |entries'| { assert r[i] == r[..|entries'|][i] == entries'[i]; }
        }
      }
      r
  }

  /** The reference step adds no URL that is already listed, and none twice; every reference URL ends up listed. */
  lemma ReferencesAddNoDuplicates(entries: seq<Found>, refs: seq<Json>, description: Json)
    ensures var r := AddReferences(entries, refs, description);
            && (forall i :: |entries| <= i < |r| ==> r[i].url !in Urls(entries))
            && NoDup(Urls(r)[|entries|..])
            && (forall u :: u in refs ==> u in Urls(r))
  {
    var r := AddReferences(entries, refs, description);
    forall i | |entries| <= i < |r| ensures r[i].url !in Urls(entries) {
      assert Urls(r)[i] == r[i].url;
    }
  }

  /**
   * The dict branch of the searchscraper reply: entries from
   * `result.websites`, then the truthy `reference_urls`; `None` where
   * iterating either raises `TypeError`. A reply that is not a dict gives
   * no entries.
   */
  function ParseSearch(reply: Json, query: string): (r: Option<seq<Found>>)
    ensures !reply.JObject? ==> r == Some([])
  {
    if !reply.JObject? then Some([])
    else
      var f := reply.fields;
      var inner := Get(f, "result");
      var websites: Option<seq<Json>> :=
        if inner.Some? && inner.value.JObject? then Iterate(Get(inner.value.fields, "websites").GetOr(JList([])))
        else Some([]);
      if websites.None? then None
      else
        var entries := WebsiteEntries(websites.value, query);
        var refs := Get(f, "reference_urls");
        if refs.Some? && Truthy(refs.value) then
          match Iterate(refs.value)
          case None => None
          case Some(rs) => Some(AddReferences(entries, rs, JText(ReferenceDescription(query))))
        else Some(entries)
  }

  /** The smartscraper fallback's reply, with the URLs the pattern finds in `str(result['result'])`. */
  datatype FallbackCall = FallbackReplied(reply: Json, matches: seq<string>) | FallbackFailed

  /** The searchscraper call: its reply, the `AttributeError` that sends it to the fallback, or any other failure. */
  datatype SearchCall = SearchReplied(reply: Json) | NoSearchScraper(fallback: FallbackCall) | SearchFailed

  /** The fallback's entries: the first `max_results` matches when the reply is a dict with `result`. */
  function FallbackEntries(call: FallbackCall, query: string, maxResults: int): (r: seq<Found>)
    ensures maxResults >= 0 ==> |r| <= maxResults
    ensures forall i :: 0 <= i < |r| ==> r[i].description == JText(SearchDefault(query))
    ensures call.FallbackReplied? && call.reply.JObject? && "result" in Keys(call.reply.fields) && maxResults >= 0 ==>
              |r| == Min(maxResults, |call.matches|) &&
              forall i :: 0 <= i < |r| ==> r[i].url == JText(call.matches[i])
    ensures call.FallbackFailed? ==> r == []
  {
    match call
    case FallbackFailed => []
    case FallbackReplied(reply, matches) =>
      if reply.JObject? && "result" in Keys(reply.fields) then
        var kept := PySlice(matches, 0, maxResults);
        seq(|kept|, i requires 0 <= i < |kept| => Found(JText(kept[i]), JText(SearchDefault(query))))
      else []
  }

  /** `search_urls`: any exception, here or in the parsing, gives the empty list. */
  function SearchUrls(query: string, maxResults: int, call: SearchCall): (r: seq<Found>)
    ensures call.SearchFailed? ==> r == []
    ensures call.SearchReplied? ==> r == ParseSearch(call.reply, query).GetOr([])
    ensures call.NoSearchScraper? ==> r == FallbackEntries(call.fallback, query, maxResults)
    ensures call.NoSearchScraper? && maxResults >= 0 ==> |r| <= maxResults
  {
    match call
    case SearchFailed => []
    case SearchReplied(reply) => ParseSearch(reply, query).GetOr([])
    case NoSearchScraper(fallback) => FallbackEntries(fallback, query, maxResults)
  }

  /**
   * A dict reply whose `result.websites` is a list and whose
   * `reference_urls` is a list yields the URL-carrying websites in order
   * followed by the references not already listed.
   */
  lemma SearchReplyShape(f: Dict<Json>, g: Dict<Json>, websites: seq<Json>, refs: seq<Json>, query: string, maxResults: int)
    requires Get(f, "result") == Some(JObject(g)) && Get(g, "websites") == Some(JList(websites))
    requires Get(f, "reference_urls") == Some(JList(refs))
    ensures var r := SearchUrls(query, maxResults, SearchReplied(JObject(f)));
            var entries := WebsiteEntries(websites, query);
            && r == AddReferences(entries, refs, JText(ReferenceDescription(query)))
            && r[..|entries|] == entries
            && Urls(r) == AppendNew(Urls(entries), refs)
  {
    var entries := WebsiteEntries(websites, query);
    assert Iterate(JList(websites)) == Some(websites);
    if refs == [] {
      assert !Truthy(JList(refs));
      assert ParseSearch(JObject(f), query) == Some(entries);
    } else {
      assert Truthy(JList(refs));
      assert ParseSearch(JObject(f), query) == Some(AddReferences(entries, refs, JText(ReferenceDescription(query))));
    }
  }
}
