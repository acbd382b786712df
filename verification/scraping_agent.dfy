/**
 * The tool-calling agent (`scrapecraft-repo/backend/app/agents/scraping_agent.py`):
 * its state, the effect of each tool call on it, the two routing
 * decisions of its graph, the precondition of the scraping node, and the
 * run of `process_message` through analyse → tools → scraping → reply.
 * The model's replies (its tool calls and its final answer), the HEAD
 * checks of `validate_url` and the ScrapeGraph replies are parameters.
 */
module ScrapingAgent {
  import opened Base
  import Tools
  import ScrapeGraph

  /** The generated code: text handed in with the context, or what `generate_code` rendered from its schema block and URLs. */
  datatype Code = CodeText(text: string) | Rendered(schemaBlock: string, urls: seq<string>)

  datatype Message =
    | Human(content: string)
    | Ai(content: string)
    | ToolReply(tool: string, result: Tools.ToolResult)

  /**
   * `AgentState`. Schema values are type names; a type `define_schema`
   * produced is recorded by its name.
   */
  datatype AgentState = AgentState(
    messages: seq<Message>,
    pipelineId: string,
    urls: seq<string>,
    schema: Dict<string>,
    generatedCode: Code,
    executionResults: seq<ScrapeGraph.ScrapeRecord<ScrapeGraph.Reply>>,
    currentStatus: string,
    error: Option<string>)

  /** The keyword arguments a tool call passes; `None` where the call leaves one out. */
  datatype ToolArgs = ToolArgs(url: Option<string>, schemaFields: Option<seq<Dict<string>>>,
                               urls: Option<seq<string>>, extractionSchema: Option<Dict<string>>)

  datatype ToolCall = ToolCall(name: string, args: ToolArgs)

  /**
   * What escapes the graph: the `TypeError` of binding the keyword
   * arguments (an argument the tool does not take, or one it needs and
   * did not get), the `ValueError` of `list.remove`, and the `TypeError`
   * of `json.dumps` on a reply that holds Python type objects.
   */
  datatype Raised =
    | UnexpectedArgument(tool: string)
    | MissingArgument(tool: string)
    | NotInList(url: string)
    | NotSerializable(tool: string)

  const ToolNames := ["add_url", "remove_url", "validate_url", "define_schema", "generate_code", "clear_pipeline"]

  /** The keyword names a call passes. */
  function Passed(a: ToolArgs): (r: set<string>)
    ensures "url" in r <==> a.url.Some?
    ensures "schema_fields" in r <==> a.schemaFields.Some?
    ensures "urls" in r <==> a.urls.Some?
    ensures "extraction_schema" in r <==> a.extractionSchema.Some?
  {
    (if a.url.Some? then {"url"} else {})
    + (if a.schemaFields.Some? then {"schema_fields"} else {})
    + (if a.urls.Some? then {"urls"} else {})
    + (if a.extractionSchema.Some? then {"extraction_schema"} else {})
  }

  /** The parameters of each tool function, as `scrapecraft-repo/backend/app/agents/tools.py` declares them. */
  function Params(name: string): set<string>
  {
    match name
    case "add_url" => {"url"}
    case "remove_url" => {"url"}
    case "validate_url" => {"url"}
    case "define_schema" => {"schema_fields"}
    case "generate_code" => {"urls", "extraction_schema"}
    case _ => {}
  }

  function PyTypeName(t: PyType): string
  {
    match t
    case PyStr => "str"
    case PyInt => "int"
    case PyFloat => "float"
    case PyBool => "bool"
    case PyList => "list"
    case PyDict => "dict"
  }

  function TypeNames(schema: Dict<PyType>): (r: Dict<string>)
    ensures Keys(r) == Keys(schema)
    ensures forall i :: 0 <= i < |schema| ==> r[i] == (schema[i].0, PyTypeName(schema[i].1))
  {
    var r := seq(|schema|, i requires 0 <= i < |schema| => (schema[i].0, PyTypeName(schema[i].1)));
    assert Keys(r) == Keys(schema);
    r
  }

  /**
   * `tool.func(**tool_args)` for a known tool; `validate` stands for the
   * HEAD request of `validate_url`. Binding the keywords raises first for
   * an argument the function does not take, then for a parameter left out.
   */
  function RunTool(call: ToolCall, validate: string -> Tools.ToolResult): (r: Result<Tools.ToolResult, Raised>)
    requires call.name in ToolNames
    ensures r.Err? <==> Passed(call.args) != Params(call.name)
    ensures !(Passed(call.args) <= Params(call.name)) ==> r == Err(UnexpectedArgument(call.name))
    ensures Passed(call.args) < Params(call.name) ==> r == Err(MissingArgument(call.name))
    ensures Passed(call.args) == Params(call.name) ==>
              var a := call.args;
              && (call.name == "add_url" ==> r == Ok(Tools.AddUrl(a.url.value)))
              && (call.name == "remove_url" ==> r == Ok(Tools.RemoveUrl(a.url.value)))
              && (call.name == "validate_url" ==> r == Ok(validate(a.url.value)))
              && (call.name == "define_schema" ==> r == Ok(Tools.DefineSchema(a.schemaFields.value)))
              && (call.name == "generate_code" ==> r == Ok(Tools.GenerateCode(a.urls.value, a.extractionSchema.value)))
              && (call.name == "clear_pipeline" ==> r == Ok(Tools.ClearPipeline()) && r.value.Succeeded?)
  {
    var a := call.args;
    var given, params := Passed(a), Params(call.name);
    if !(given <= params) then Err(UnexpectedArgument(call.name))
    else if given != params then Err(MissingArgument(call.name))
    else
      match call.name
      case "add_url" => Ok(Tools.AddUrl(a.url.value))
      case "remove_url" => Ok(Tools.RemoveUrl(a.url.value))
      case "validate_url" => Ok(validate(a.url.value))
      case "define_schema" => Ok(Tools.DefineSchema(a.schemaFields.value))
      case "generate_code" => Ok(Tools.GenerateCode(a.urls.value, a.extractionSchema.value))
      case _ => Ok(Tools.ClearPipeline())
  }

  /** A keyword the tool does not take raises even when every parameter is given. */
  lemma ExtraArgumentRaises(url: string, fields: seq<Dict<string>>, validate: string -> Tools.ToolResult)
    ensures RunTool(ToolCall("clear_pipeline", ToolArgs(Some(url), None, None, None)), validate)
            == Err(UnexpectedArgument("clear_pipeline"))
    ensures RunTool(ToolCall("add_url", ToolArgs(Some(url), Some(fields), None, None)), validate)
            == Err(UnexpectedArgument("add_url"))
  {
    assert "url" in Passed(ToolArgs(Some(url), None, None, None));
    assert "schema_fields" in Passed(ToolArgs(Some(url), Some(fields), None, None));
  }

  /**
   * The state update after one known tool ran with result `res`, and the
   * tool's reply appended to the messages. Only successes change the
   * pipeline; removing a URL that is not listed raises.
   */
  function ApplyTool(s: AgentState, call: ToolCall, res: Tools.ToolResult): (r: Result<AgentState, Raised>)
    ensures r.Err? <==> call.name == "remove_url" && res.Succeeded? && res.payload.UrlPayload? && res.payload.url !in s.urls
    ensures r.Ok? ==>
              && r.value.messages == s.messages + [ToolReply(call.name, res)]
              && r.value.pipelineId == s.pipelineId
              && r.value.executionResults == s.executionResults
              && r.value.currentStatus == s.currentStatus
              && r.value.error == s.error
    ensures r.Ok? && res.Failed? ==> r.value == s.(messages := s.messages + [ToolReply(call.name, res)])
    ensures r.Ok? && call.name == "add_url" && res.Succeeded? && res.payload.UrlPayload? ==>
              r.value.urls == s.urls + [res.payload.url]
    ensures r.Ok? && call.name == "remove_url" && res.Succeeded? && res.payload.UrlPayload? ==>
              |r.value.urls| + 1 == |s.urls| && multiset(r.value.urls) + multiset{res.payload.url} == multiset(s.urls)
    ensures r.Ok? && call.name == "remove_url" && res.Succeeded? && res.payload.UrlPayload? ==>
              var u, i := s.urls, IndexOf(s.urls, res.payload.url);
              r.value == s.(messages := r.value.messages, urls := u[..i] + u[i + 1..])
    ensures r.Ok? && call.name == "add_url" && res.Succeeded? && res.payload.UrlPayload? ==>
              r.value == s.(messages := r.value.messages, urls := r.value.urls)
    ensures r.Ok? && call.name == "define_schema" && res.Succeeded? && res.payload.SchemaPayload? ==>
              r.value == s.(messages := r.value.messages, schema := r.value.schema)
    ensures r.Ok? && call.name == "generate_code" && res.Succeeded? && res.payload.CodePayload? ==>
              r.value == s.(messages := r.value.messages, generatedCode := r.value.generatedCode)
    ensures r.Ok? && call.name == "define_schema" && res.Succeeded? && res.payload.SchemaPayload? ==>
              Keys(r.value.schema) == Keys(res.payload.schema) && r.value.urls == s.urls
    ensures r.Ok? && call.name == "generate_code" && res.Succeeded? && res.payload.CodePayload? ==>
              r.value.generatedCode == Rendered(res.payload.schemaBlock, res.payload.urls) && r.value.urls == s.urls
    ensures r.Ok? && call.name == "clear_pipeline" && res.Succeeded? ==>
              r.value.urls == [] && r.value.schema == [] && r.value.generatedCode == CodeText("")
  {
    var s' := s.(messages := s.messages + [ToolReply(call.name, res)]);
    if res.Failed? then Ok(s')
    else
      var p := res.payload;
      if call.name == "add_url" && p.UrlPayload? then Ok(s'.(urls := s.urls + [p.url]))
      else if call.name == "remove_url" && p.UrlPayload? then
        match RemoveFirst(s.urls, p.url)
        case None => Err(NotInList(p.url))
        case Some(rest) => Ok(s'.(urls := rest))
      else if call.name == "define_schema" && p.SchemaPayload? then Ok(s'.(schema := TypeNames(p.schema)))
      else if call.name == "generate_code" && p.CodePayload? then Ok(s'.(generatedCode := Rendered(p.schemaBlock, p.urls)))
      else if call.name == "clear_pipeline" then Ok(s'.(urls := [], schema := [], generatedCode := CodeText("")))
      else Ok(s')
  }

  /**
   * The update as the code is written: the reply message is built with
   * `json.dumps(result)`, and a successful `define_schema` result maps
   * field names to type objects, which `json.dumps` rejects, so any
   * non-empty schema raises after the state was changed.
   */
  function ApplyToolAsWritten(s: AgentState, call: ToolCall, res: Tools.ToolResult): (r: Result<AgentState, Raised>)
    ensures call.name == "define_schema" && res.Succeeded? && res.payload.SchemaPayload? && res.payload.schema != [] ==>
              r == Err(NotSerializable(call.name))
    ensures !(call.name == "define_schema" && res.Succeeded?) ==> r == ApplyTool(s, call, res)
  {
    if call.name == "define_schema" && res.Succeeded? && res.payload.SchemaPayload? && res.payload.schema != [] then
      Err(NotSerializable(call.name))
    else ApplyTool(s, call, res)
  }

  /** As written, a `define_schema` call with at least one well-formed field never reaches the state. */
  lemma DefineSchemaRaisesAsWritten(s: AgentState, fields: seq<Dict<string>>)
    requires Tools.AllNamed(fields) && |fields| > 0
    ensures ApplyToolAsWritten(s, ToolCall("define_schema", ToolArgs(None, Some(fields), None, None)),
                               Tools.DefineSchema(fields)) == Err(NotSerializable("define_schema"))
  {
    Tools.DefinedNames(fields, Get(fields[0], "name").value);
  }

  /** Recording the reply by its fields, a well-formed `define_schema` call sets the schema to the defined names and types. */
  lemma DefineSchemaCall(s: AgentState, fields: seq<Dict<string>>, validate: string -> Tools.ToolResult)
    requires Tools.AllNamed(fields)
    ensures var r := CallTools(s, [ToolCall("define_schema", ToolArgs(None, Some(fields), None, None))], validate);
            && r.Ok?
            && Keys(r.value.schema) == Keys(Tools.DefineSchema(fields).payload.schema)
            && r.value.urls == s.urls && r.value.generatedCode == s.generatedCode
  {
    var call := ToolCall("define_schema", ToolArgs(None, Some(fields), None, None));
    assert call.name in ToolNames;
    assert [call][1..] == [];
  }

  /**
   * Feeding the schema `define_schema` defined, by type name, to
   * `generate_code` writes one class-body line per defined name and no
   * other line: the block reads back as that schema.
   */
  lemma GeneratedBlockListsDefinedNames(urls: seq<string>, fields: seq<Dict<string>>)
    requires Tools.AllNamed(fields)
    requires forall i :: 0 <= i < |fields| ==> PlainName(Get(fields[i], "name").value)
    ensures var schema := TypeNames(Tools.DefineSchema(fields).payload.schema);
            var read := Tools.ParseSchemaBlock(Tools.GenerateCode(urls, schema).payload.schemaBlock);
            && read == Some(schema)
            && NoDup(Keys(schema))
            && (forall x :: x in Keys(schema) <==> exists i :: 0 <= i < |fields| && Get(fields[i], "name") == Some(x))
  {
    var defined := Tools.DefineSchema(fields).payload.schema;
    var schema := TypeNames(defined);
    forall x ensures x in Keys(schema) <==> exists i :: 0 <= i < |fields| && Get(fields[i], "name") == Some(x) {
      Tools.DefinedNames(fields, x);
    }
    DefinedNamesPlain(fields);
    PlainTypeNames(defined);
    Tools.SchemaBlockRoundTrip(schema);
  }

  predicate PlainName(name: string)
  {
    ':' !in name && '\n' !in name
  }

  /** Every name the schema defines is one a field carries. */
  lemma DefinedNamesPlain(fields: seq<Dict<string>>)
    requires Tools.AllNamed(fields)
    requires forall i :: 0 <= i < |fields| ==> PlainName(Get(fields[i], "name").value)
    ensures forall k :: 0 <= k < |Tools.DefineSchema(fields).payload.schema| ==> PlainName(Tools.DefineSchema(fields).payload.schema[k].0)
  {
    var defined := Tools.DefineSchema(fields).payload.schema;
    forall k | 0 <= k < |defined| ensures PlainName(defined[k].0) {
      assert Keys(defined)[k] == defined[k].0;
      Tools.DefinedNames(fields, defined[k].0);
      var i :| 0 <= i < |fields| && Get(fields[i], "name") == Some(defined[k].0);
    }
  }

  lemma PlainTypeNames(defined: Dict<PyType>)
    requires forall k :: 0 <= k < |defined| ==> PlainName(defined[k].0)
    ensures Tools.PlainSchema(TypeNames(defined))
  {
    var schema := TypeNames(defined);
    forall k | 0 <= k < |schema| ensures '\n' !in schema[k].1 {
      assert schema[k].1 == PyTypeName(defined[k].1);
      TypeNameOneLine(defined[k].1);
    }
  }

  /** A type name is a single word. */
  lemma TypeNameOneLine(t: PyType)
    ensures '\n' !in PyTypeName(t)
  {
    var n := PyTypeName(t);
    assert forall c :: c in n ==> 'a' <= c <= 'z' by {
      match t
      case PyStr => assert n == ['s', 't', 'r'];
      case PyInt => assert n == ['i', 'n', 't'];
      case PyFloat => assert n == ['f', 'l', 'o', 'a', 't'];
      case PyBool => assert n == ['b', 'o', 'o', 'l'];
      case PyList => assert n == ['l', 'i', 's', 't'];
      case PyDict => assert n == ['d', 'i', 'c', 't'];
    }
  }

  /** `_call_tools`: each call in order; calls naming no known tool are skipped without a reply. */
  function CallTools(s: AgentState, calls: seq<ToolCall>, validate: string -> Tools.ToolResult): (r: Result<AgentState, Raised>)
    ensures r.Ok? ==>
              && r.value.pipelineId == s.pipelineId
              && r.value.executionResults == s.executionResults
              && r.value.currentStatus == s.currentStatus
              && r.value.error == s.error
              && |s.messages| <= |r.value.messages| && r.value.messages[..|s.messages|] == s.messages
    decreases |calls|
  {
    if calls == [] then Ok(s)
    else
      var c := calls[0];
      if c.name !in ToolNames then CallTools(s, calls[1..], validate)
      else
        match RunTool(c, validate)
        case Err(e) => Err(e)
        case Ok(res) =>
          match ApplyTool(s, c, res)
          case Err(e) => Err(e)
          case Ok(s') =>
            var r := CallTools(s', calls[1..], validate);
            assert r.Ok? ==> r.value.messages[..|s.messages|] == s.messages by {
              if r.Ok? {
                assert r.value.messages[..|s'.messages|][..|s.messages|] == s'.messages[..|s.messages|];
              }
            }
            r
  }

  /** Calls that name no tool leave the state exactly as it was. */
  lemma {:induction false} UnknownToolsSkipped(s: AgentState, calls: seq<ToolCall>, validate: string -> Tools.ToolResult)
    requires forall c :: c in calls ==> c.name !in ToolNames
    ensures CallTools(s, calls, validate) == Ok(s)
    decreases |calls|
  {
    if calls != [] {
      assert calls[0] in calls;
      UnknownToolsSkipped(s, calls[1..], validate);
    }
  }

  /** A successful `add_url` call appends its URL; one the tool rejects only adds its reply. */
  lemma AddUrlCall(s: AgentState, url: string, validate: string -> Tools.ToolResult)
    ensures var call := ToolCall("add_url", ToolArgs(Some(url), None, None, None));
            var r := CallTools(s, [call], validate);
            && r.Ok?
            && (Tools.AddUrl(url).Succeeded? ==> r.value.urls == s.urls + [url])
            && (Tools.AddUrl(url).Failed? ==> r.value.urls == s.urls)
            && r.value.messages == s.messages + [ToolReply("add_url", Tools.AddUrl(url))]
  {
    var call := ToolCall("add_url", ToolArgs(Some(url), None, None, None));
    assert call.name in ToolNames;
    assert [call][1..] == [];
  }

  // ---------------------------------------------------------------------
  // Routing and scraping
  // ---------------------------------------------------------------------

  /** `_should_use_tools`: the model's reply asked for at least one tool. */
  function ShouldUseTools(calls: seq<ToolCall>): (b: bool)
    ensures b <==> calls != []
  {
    |calls| > 0
  }

  /** The content of the most recent human message. */
  function LastHuman(messages: seq<Message>): (r: Option<string>)
    ensures r.None? <==> forall i :: 0 <= i < |messages| ==> !messages[i].Human?
  {
    if messages == [] then None
    else if messages[|messages| - 1].Human? then Some(messages[|messages| - 1].content)
    else LastHuman(messages[..|messages| - 1])
  }

  /** The message `LastHuman` reports is a human one with none after it. */
  lemma {:induction false} LastHumanIsLast(messages: seq<Message>)
    requires LastHuman(messages).Some?
    ensures exists i :: 0 <= i < |messages| && messages[i] == Human(LastHuman(messages).value)
                        && forall j :: i < j < |messages| ==> !messages[j].Human?
  {
    var n := |messages| - 1;
    if messages[n].Human? {
      assert messages[n] == Human(LastHuman(messages).value);
    } else {
      var front := messages[..n];
      LastHumanIsLast(front);
      var i :| 0 <= i < |front| && front[i] == Human(LastHuman(front).value)
               && forall j :: i < j < |front| ==> !front[j].Human?;
      assert messages[i] == front[i];
      assert forall j :: i < j < |messages| ==> !messages[j].Human? by {
        forall j | i < j < |messages| ensures !messages[j].Human? {
          if j < n { assert messages[j] == front[j]; }
        }
      }
    }
  }

  const ExecutionKeywords := ["execute", "run", "scrape", "start scraping"]

  /**
   * `_should_execute_scraping`: the last human message, lower-cased,
   * names an execution keyword, and the pipeline has URLs and a schema.
   */
  function ShouldExecuteScraping(s: AgentState): (b: bool)
    ensures b <==> LastHuman(s.messages).Some? && ContainsAny(Lower(LastHuman(s.messages).value), ExecutionKeywords)
                   && s.urls != [] && s.schema != []
  {
    var last := LastHuman(s.messages);
    last.Some? && ContainsAny(Lower(last.value), ExecutionKeywords) && s.urls != [] && s.schema != []
  }

  const NothingToScrape := "No URLs or schema defined"

  function SchemaAsJson(schema: Dict<string>): (r: Dict<ScrapeGraph.Json>)
    ensures Keys(r) == Keys(schema)
    ensures forall i :: 0 <= i < |schema| ==> r[i] == (schema[i].0, ScrapeGraph.JText(schema[i].1))
  {
    var r := seq(|schema|, i requires 0 <= i < |schema| => (schema[i].0, ScrapeGraph.JText(schema[i].1)));
    assert Keys(r) == Keys(schema);
    r
  }

  /**
   * `_execute_scraping`: without URLs or schema it records the error and
   * nothing else; otherwise it stores the service's records and marks the
   * run completed (the service catches its own failures, so the `except`
   * here is never reached).
   */
  function ExecuteScraping(s: AgentState, batch: ScrapeGraph.Batch<ScrapeGraph.Reply>): (r: AgentState)
    ensures s.urls == [] || s.schema == [] ==> r == s.(error := Some(NothingToScrape))
    ensures s.urls != [] && s.schema != [] ==>
              && r == s.(executionResults := r.executionResults, currentStatus := "completed")
              && r.executionResults == ScrapeGraph.ExecutePipelineWithSchema(s.urls, SchemaAsJson(s.schema), batch)
              && |r.executionResults| <= |s.urls|
              && forall i :: 0 <= i < |r.executionResults| ==> r.executionResults[i].url == s.urls[i]
  {
    if s.urls == [] || s.schema == [] then s.(error := Some(NothingToScrape))
    else s.(executionResults := ScrapeGraph.ExecutePipelineWithSchema(s.urls, SchemaAsJson(s.schema), batch),
            currentStatus := "completed")
  }

  /**
   * The type tables of `define_schema` and of the service's schema model
   * agree on every name but `dict`, which the tool turns into `str`.
   */
  lemma ToolTypesMatchServiceTypes(name: string)
    ensures name != "dict" ==> Tools.ToolType(name) == ScrapeGraph.TypeFor(name)
    ensures Tools.ToolType("dict") == PyStr && ScrapeGraph.TypeFor("dict") == PyDict
  {
  }

  // ---------------------------------------------------------------------
  // process_message
  // ---------------------------------------------------------------------

  /** The context dict a caller passes: `urls`, `schema` and `generated_code`, `None` where absent. */
  datatype Context = Context(urls: Option<seq<string>>, schema: Option<Dict<string>>, code: Option<string>)

  /** The initial state: the context's pipeline, or an empty one when there is no context. */
  function InitialState(message: string, pipelineId: string, context: Option<Context>): (s: AgentState)
    ensures s.messages == [Human(message)] && s.pipelineId == pipelineId
    ensures s.executionResults == [] && s.currentStatus == "processing" && s.error == None
    ensures context.None? ==> s.urls == [] && s.schema == [] && s.generatedCode == CodeText("")
    ensures context.Some? && context.value.urls.Some? ==> s.urls == context.value.urls.value
    ensures context.Some? && context.value.schema.Some? ==> s.schema == context.value.schema.value
  {
    var c := context.GetOr(Context(None, None, None));
    AgentState([Human(message)], pipelineId, c.urls.GetOr([]), c.schema.GetOr([]),
               CodeText(c.code.GetOr("")), [], "processing", None)
  }

  /** The model's first reply: its text and the tools it asks for. */
  datatype Analysis = Analysis(content: string, toolCalls: seq<ToolCall>)

  datatype Output = Output(response: string, urls: seq<string>, schema: Dict<string>, code: Code,
                           results: seq<ScrapeGraph.ScrapeRecord<ScrapeGraph.Reply>>, status: string, error: Option<string>)

  /**
   * `process_message`: analyse, run the tools when asked, scrape when the
   * user asked for it and the pipeline allows, then answer with `reply`.
   */
  function ProcessMessage(message: string, pipelineId: string, context: Option<Context>, analysis: Analysis,
                          validate: string -> Tools.ToolResult, batch: ScrapeGraph.Batch<ScrapeGraph.Reply>,
                          reply: string): (r: Result<Output, Raised>)
    ensures r.Ok? ==> r.value.response == reply && r.value.status in {"processing", "completed"}
    ensures r.Ok? && r.value.status == "completed" ==>
              && analysis.toolCalls != [] && r.value.urls != [] && r.value.schema != []
              && |r.value.results| <= |r.value.urls| && r.value.error == None
    ensures analysis.toolCalls == [] ==>
              r == Ok(Output(reply, InitialState(message, pipelineId, context).urls, InitialState(message, pipelineId, context).schema,
                             InitialState(message, pipelineId, context).generatedCode, [], "processing", None))
  {
    var s0 := InitialState(message, pipelineId, context);
    var s1 := s0.(messages := s0.messages + [Ai(analysis.content)]);
    if !ShouldUseTools(analysis.toolCalls) then
      Ok(Output(reply, s1.urls, s1.schema, s1.generatedCode, s1.executionResults, s1.currentStatus, s1.error))
    else
      match CallTools(s1, analysis.toolCalls, validate)
      case Err(e) => Err(e)
      case Ok(s2) =>
        var s3 := if ShouldExecuteScraping(s2) then ExecuteScraping(s2, batch) else s2;
        Ok(Output(reply, s3.urls, s3.schema, s3.generatedCode, s3.executionResults, s3.currentStatus, s3.error))
  }

  /** Scraping runs only for a message that names an execution keyword. */
  lemma NoKeywordNoScraping(message: string, pipelineId: string, context: Option<Context>, analysis: Analysis,
                            validate: string -> Tools.ToolResult, batch: ScrapeGraph.Batch<ScrapeGraph.Reply>, reply: string)
    requires !ContainsAny(Lower(message), ExecutionKeywords)
    ensures var r := ProcessMessage(message, pipelineId, context, analysis, validate, batch, reply);
            r.Ok? ==> r.value.status == "processing" && r.value.results == []
  {
    var s0 := InitialState(message, pipelineId, context);
    var s1 := s0.(messages := s0.messages + [Ai(analysis.content)]);
    if ShouldUseTools(analysis.toolCalls) {
      var r := CallTools(s1, analysis.toolCalls, validate);
      if r.Ok? {
        var s2 := r.value;
        OnlyHumanMessageIsFirst(s1, analysis.toolCalls, validate);
        assert LastHuman(s2.messages) == Some(message);
      }
    }
  }

  /** The tools add only tool replies, so the last human message stays the user's. */
  lemma OnlyHumanMessageIsFirst(s: AgentState, calls: seq<ToolCall>, validate: string -> Tools.ToolResult)
    requires |s.messages| > 0 && s.messages[0].Human?
    requires forall i :: 1 <= i < |s.messages| ==> !s.messages[i].Human?
    requires CallTools(s, calls, validate).Ok?
    ensures LastHuman(CallTools(s, calls, validate).value.messages) == Some(s.messages[0].content)
  {
    var ms := CallTools(s, calls, validate).value.messages;
    ToolRepliesOnly(s, calls, validate);
    LastHumanIsFirst(ms);
  }

  /** Every message the tools add is a tool reply. */
  lemma {:induction false} ToolRepliesOnly(s: AgentState, calls: seq<ToolCall>, validate: string -> Tools.ToolResult)
    requires CallTools(s, calls, validate).Ok?
    ensures var ms := CallTools(s, calls, validate).value.messages;
            forall i :: |s.messages| <= i < |ms| ==> ms[i].ToolReply?
    decreases |calls|
  {
    if calls != [] && calls[0].name in ToolNames {
      var res := RunTool(calls[0], validate).value;
      var s' := ApplyTool(s, calls[0], res).value;
      ToolRepliesOnly(s', calls[1..], validate);
    } else if calls != [] {
      ToolRepliesOnly(s, calls[1..], validate);
    }
  }

  lemma {:induction false} LastHumanIsFirst(ms: seq<Message>)
    requires |ms| > 0 && ms[0].Human?
    requires forall i :: 1 <= i < |ms| ==> !ms[i].Human?
    ensures LastHuman(ms) == Some(ms[0].content)
    decreases |ms|
  {
    if |ms| > 1 {
      LastHumanIsFirst(ms[..|ms| - 1]);
    }
  }
}
