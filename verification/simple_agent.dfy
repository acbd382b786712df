/**
 * The keyword-driven agent (`backend/app/agents/simple_agent.py`): one
 * message is matched, lower-cased, against five commands in a fixed order;
 * only "add url" and "generate code" change the pipeline context, and the
 * reply echoes the context with status `idle`.
 */
module SimpleAgent {
  import opened Base

  /** The generated code: text from the context, or the script `_generate_simple_code` writes for these URLs and fields. */
  datatype Code = CodeText(text: string) | SimpleCode(urls: seq<string>, fields: seq<string>)

  /** The context dict; `None` for a key it lacks. */
  datatype Context = Context(urls: Option<seq<string>>, schema: Option<Dict<string>>, code: Option<Code>)

  const DefaultContext := Context(Some([]), Some([]), Some(CodeText("")))

  datatype Command = AddUrlCommand | ListUrlsCommand | SchemaCommand | GenerateCommand | RunCommand | NoCommand

  const AddUrlKey := "add url"

  /** The `if`/`elif` chain over the lower-cased message: the first phrase found decides. */
  function CommandOf(lower: string): (c: Command)
    ensures c == AddUrlCommand <==> Contains(lower, AddUrlKey)
    ensures c == ListUrlsCommand <==> !Contains(lower, AddUrlKey) && Contains(lower, "list urls")
    ensures c == SchemaCommand <==>
              !Contains(lower, AddUrlKey) && !Contains(lower, "list urls")
              && (Contains(lower, "define schema") || Contains(lower, "add field"))
    ensures c == GenerateCommand <==>
              !Contains(lower, AddUrlKey) && !Contains(lower, "list urls") && !Contains(lower, "define schema")
              && !Contains(lower, "add field") && Contains(lower, "generate code")
    ensures c == RunCommand <==>
              !Contains(lower, AddUrlKey) && !Contains(lower, "list urls") && !Contains(lower, "define schema")
              && !Contains(lower, "add field") && !Contains(lower, "generate code")
              && (Contains(lower, "run") || Contains(lower, "execute"))
  {
    if Contains(lower, AddUrlKey) then AddUrlCommand
    else if Contains(lower, "list urls") then ListUrlsCommand
    else if Contains(lower, "define schema") || Contains(lower, "add field") then SchemaCommand
    else if Contains(lower, "generate code") then GenerateCommand
    else if Contains(lower, "run") || Contains(lower, "execute") then RunCommand
    else NoCommand
  }

  /** The replies, by the branch that produced them. */
  datatype Reply =
    | Help
    | Added(url: string, total: nat)
    | Listed(urls: seq<string>)
    | NoUrlsYet
    | SchemaHelp(fields: seq<string>)
    | CodeGenerated
    | NeedUrlsAndSchema
    | Starting

  /** `repr` of a list of strings, for strings without quotes or escapes. */
  function ListRepr(xs: seq<string>): string
  {
    "[" + Join(seq(|xs|, i requires 0 <= i < |xs| => "'" + xs[i] + "'"), ", ") + "]"
  }

  /** The text of each reply. */
  function Render(r: Reply): string
  {
    match r
    case Help =>
      "I can help you build a web scraping pipeline. Try these commands:\n"
      + "- 'add url <url>': Add a URL to scrape\n"
      + "- 'list urls': Show all URLs\n"
      + "- 'define schema': Define data fields to extract\n"
      + "- 'generate code': Generate Python code\n"
      + "- 'run pipeline': Execute the scraping"
    case Added(url, total) => "\U{2705} Added URL: " + url + "\nTotal URLs: " + IntToString(total)
    case Listed(urls) => "\U{1F4CB} Current URLs:\n" + Join(seq(|urls|, i requires 0 <= i < |urls| => "- " + urls[i]), "\n")
    case NoUrlsYet => "No URLs added yet. Use 'add url <url>' to add one."
    case SchemaHelp(fields) =>
      "To define schema fields, use:\n"
      + "'add field <name> <type>' where type is: str, int, float, bool, list\n"
      + "Current fields: " + ListRepr(fields)
    case CodeGenerated => "\U{2705} Generated Python code for your pipeline. Check the Code tab!"
    case NeedUrlsAndSchema => "\U{274C} Please add URLs and define schema fields first."
    case Starting => "\U{1F680} Starting pipeline execution..."
  }

  datatype Output = Output(reply: Reply, urls: seq<string>, schema: Dict<string>, code: Code,
                           results: seq<string>, status: string, error: Option<string>)

  /** The `IndexError` of a failed split and the `KeyError` of a context without `urls`. */
  datatype Failure = SplitFailed | MissingKey(key: string)

  /**
   * `process_message`, given `rest`: the text after the "add url" phrase,
   * `None` where extracting it fails.
   */
  function Respond(message: string, context: Option<Context>, rest: Option<string>): (r: Result<Output, Failure>)
    ensures r.Ok? ==> r.value.results == [] && r.value.status == "idle" && r.value.error == None
    ensures r.Ok? ==> r.value.schema == context.GetOr(DefaultContext).schema.GetOr([])
    ensures context.GetOr(DefaultContext).urls.None? ==> r.Err?
    ensures r.Err? ==> r.error == (if CommandOf(Lower(message)) == AddUrlCommand && rest.None? then SplitFailed else MissingKey("urls"))
  {
    var c := context.GetOr(DefaultContext);
    var cmd := CommandOf(Lower(message));
    if cmd == AddUrlCommand && rest.None? then Err(SplitFailed)
    else if c.urls.None? then Err(MissingKey("urls"))
    else
      var urls := c.urls.value;
      var schema := c.schema.GetOr([]);
      var code := c.code.GetOr(CodeText(""));
      var ready := urls != [] && c.schema.Some? && c.schema.value != [];
      var (reply, urls', code') :=
        match cmd
        case AddUrlCommand =>
          var url := Strip(rest.value);
          if url != "" then (Added(url, |urls| + 1), urls + [url], code) else (Help, urls, code)
        case ListUrlsCommand => (if urls != [] then Listed(urls) else NoUrlsYet, urls, code)
        case SchemaCommand => (SchemaHelp(Keys(schema)), urls, code)
        case GenerateCommand =>
          if ready then (CodeGenerated, urls, SimpleCode(urls, Keys(schema))) else (NeedUrlsAndSchema, urls, code)
        case RunCommand => (if ready then Starting else NeedUrlsAndSchema, urls, code)
        case NoCommand => (Help, urls, code);
      Ok(Output(reply, urls', schema, code', [], "idle", None))
  }

  // ---------------------------------------------------------------------
  // Extracting the URL
  // ---------------------------------------------------------------------

  /**
   * As written, the URL is what follows "add url" in the ORIGINAL message,
   * while the test was made on the lower-cased one: a message that says
   * "Add URL" passes the test and then fails the split.
   */
  function UrlTextAsWritten(message: string): (r: Option<string>)
    ensures r.Some? <==> Contains(message, AddUrlKey)
  {
    AfterFirst(message, AddUrlKey)
  }

  /** What follows the first "add url" of the lower-cased message, cut from the original message so its case is kept. */
  function UrlText(message: string): (r: Option<string>)
    ensures r.Some? <==> Contains(Lower(message), AddUrlKey)
    ensures r.Some? ==> |r.value| <= |message| && message[|message| - |r.value|..] == r.value
    ensures r.Some? ==> Lower(r.value) == AfterFirst(Lower(message), AddUrlKey).value
  {
    match AfterFirst(Lower(message), AddUrlKey)
    case None => None
    case Some(after) =>
      var k := |message| - |after|;
      assert Lower(message)[k..] == after;
      LowerSuffix(message, k);
      Some(message[k..])
  }

  function ProcessMessageAsWritten(message: string, context: Option<Context>): (r: Result<Output, Failure>)
    ensures CommandOf(Lower(message)) == AddUrlCommand && !Contains(message, AddUrlKey) ==> r == Err(SplitFailed)
  {
    Respond(message, context, UrlTextAsWritten(message))
  }

  /** `process_message`, with the URL cut out by the position of the phrase in the lower-cased message. */
  function ProcessMessage(message: string, context: Option<Context>): (r: Result<Output, Failure>)
    ensures r.Err? <==> context.GetOr(DefaultContext).urls.None?
    ensures r.Err? ==> r.error == MissingKey("urls")
  {
    Respond(message, context, UrlText(message))
  }

  /** "Add URL x" is an add-url command that the code as written cannot complete. */
  lemma CapitalisedAddUrlFails()
    ensures CommandOf(Lower("Add URL x")) == AddUrlCommand
    ensures ProcessMessageAsWritten("Add URL x", None) == Err(SplitFailed)
    ensures ProcessMessage("Add URL x", None).Ok?
  {
    var m := "Add URL x";
    assert Lower(m) == "add url x";
    assert StartsWith(Lower(m), AddUrlKey);
    assert 'a' !in m;
    if Contains(m, AddUrlKey) {
      ContainsHead(m, AddUrlKey);
    }
  }

  /** For a message already in lower case the two versions agree. */
  lemma AgreeOnLowerCase(message: string, context: Option<Context>)
    requires Lower(message) == message
    ensures ProcessMessageAsWritten(message, context) == ProcessMessage(message, context)
  {
    if Contains(message, AddUrlKey) {
      assert UrlText(message) == UrlTextAsWritten(message);
    }
  }

  // ---------------------------------------------------------------------
  // Properties of process_message
  // ---------------------------------------------------------------------

  /**
   * An add-url command appends the stripped URL once when there is one,
   * and otherwise answers with the help text and changes nothing.
   */
  lemma AddUrlAppendsOnce(message: string, urls: seq<string>, schema: Option<Dict<string>>, code: Option<Code>)
    requires Contains(Lower(message), AddUrlKey)
    ensures var r := ProcessMessage(message, Some(Context(Some(urls), schema, code)));
            var url := Strip(UrlText(message).value);
            && r.Ok?
            && (url != "" ==> r.value.urls == urls + [url] && r.value.reply == Added(url, |urls| + 1))
            && (url == "" ==> r.value.urls == urls && r.value.reply == Help)
            && r.value.code == code.GetOr(CodeText(""))
  {
  }

  /** Code is generated only on the generate-code command, and only when both URLs and schema are present. */
  lemma GenerateNeedsUrlsAndSchema(message: string, context: Option<Context>)
    requires ProcessMessage(message, context).Ok?
    ensures var c := context.GetOr(DefaultContext);
            var out := ProcessMessage(message, context).value;
            out.code != c.code.GetOr(CodeText("")) ==>
              && CommandOf(Lower(message)) == GenerateCommand
              && c.urls.value != [] && c.schema.Some? && c.schema.value != []
              && out.code == SimpleCode(c.urls.value, Keys(c.schema.value))
  {
  }

  /** Every command but add url and generate code echoes the context unchanged. */
  lemma OtherCommandsEchoContext(message: string, context: Option<Context>)
    requires CommandOf(Lower(message)) !in {AddUrlCommand, GenerateCommand}
    requires ProcessMessage(message, context).Ok?
    ensures var c := context.GetOr(DefaultContext);
            var out := ProcessMessage(message, context).value;
            && out.urls == c.urls.value && out.schema == c.schema.GetOr([]) && out.code == c.code.GetOr(CodeText(""))
  {
  }

  /** A message naming no command gets the help text. */
  lemma NoCommandHelps(message: string, context: Option<Context>)
    requires CommandOf(Lower(message)) == NoCommand
    requires context.GetOr(DefaultContext).urls.Some?
    ensures ProcessMessage(message, context).Ok? && ProcessMessage(message, context).value.reply == Help
  {
  }
}
