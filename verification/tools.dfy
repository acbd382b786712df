/**
 * The agent's tools (`scrapecraft-repo/backend/app/agents/tools.py`): URL
 * validation in `add_url`, the type table of `define_schema`, the schema
 * block `generate_code` writes into its template, and the tools that
 * always succeed. `validate_url` makes a network request and is a
 * parameter of its caller.
 */
module Tools {
  import opened Base

  /** What a tool hands back besides `success`. */
  datatype Payload =
    | UrlPayload(url: string)
    | SchemaPayload(schema: Dict<PyType>, fieldCount: nat)
    | CodePayload(schemaBlock: string, urls: seq<string>)
    | NoPayload

  /** `{"success": True, ...}` or `{"success": False, "error": ...}`. */
  datatype ToolResult = Succeeded(payload: Payload) | Failed(error: string)

  const InvalidFormat := "Invalid URL format"
  const WrongScheme := "URL must start with http:// or https://"

  /**
   * `add_url`: a URL without a scheme or a netloc is rejected first; then
   * a scheme other than http or https (as `urlparse` lower-cases it).
   */
  function AddUrl(url: string): (r: ToolResult)
    ensures r.Succeeded? <==>
              SplitUrl(url).scheme in {"http", "https"} && |SplitUrl(url).netloc| > 0
    ensures r.Succeeded? ==> r.payload == UrlPayload(url)
    ensures r.Failed? && (SplitUrl(url).scheme == "" || SplitUrl(url).netloc == "") ==> r.error == InvalidFormat
    ensures r.Failed? && SplitUrl(url).scheme != "" && SplitUrl(url).netloc != "" ==> r.error == WrongScheme
  {
    var p := SplitUrl(url);
    if p.scheme == "" || p.netloc == "" then Failed(InvalidFormat)
    else if p.scheme !in {"http", "https"} then Failed(WrongScheme)
    else Succeeded(UrlPayload(url))
  }

  /** A URL without a colon has no scheme, so it fails the first check. */
  lemma NoColonRejected(url: string)
    requires ':' !in url
    ensures AddUrl(url) == Failed(InvalidFormat)
  {
    assert Find(url, ':') == |url|;
  }

  /** An accepted URL holds the `//` that introduces its authority. */
  lemma AcceptedHasAuthority(url: string)
    requires AddUrl(url).Succeeded?
    ensures Contains(url, "//")
  {
  }

  /** `remove_url` reports success whatever the URL; the caller does the removing. */
  function RemoveUrl(url: string): (r: ToolResult)
    ensures r == Succeeded(UrlPayload(url))
  {
    Succeeded(UrlPayload(url))
  }

  /** `clear_pipeline` reports success; the caller does the clearing. */
  function ClearPipeline(): (r: ToolResult)
    ensures r.Succeeded?
  {
    Succeeded(NoPayload)
  }

  // ---------------------------------------------------------------------
  // define_schema
  // ---------------------------------------------------------------------

  /** The `if`/`elif` chain of `define_schema`: five type names, everything else `str` (`dict` included). */
  function ToolType(name: string): (t: PyType)
    ensures t != PyDict
    ensures name in {"int", "float", "bool", "list"} ==> t != PyStr
    ensures t == PyStr <==> name !in {"int", "float", "bool", "list"}
  {
    if name == "int" then PyInt
    else if name == "float" then PyFloat
    else if name == "bool" then PyBool
    else if name == "list" then PyList
    else PyStr
  }

  /** A field dictionary's `type`, `'str'` when it has none. */
  function TypeOfField(field: Dict<string>): string
  {
    Get(field, "type").GetOr("str")
  }

  predicate AllNamed(fields: seq<Dict<string>>)
  {
    forall i :: 0 <= i < |fields| ==> "name" in Keys(fields[i])
  }

  /** The first field without a `name`. */
  function FirstUnnamed(fields: seq<Dict<string>>): (i: nat)
    requires !AllNamed(fields)
    ensures i < |fields| && "name" !in Keys(fields[i]) && AllNamed(fields[..i])
  {
    if "name" !in Keys(fields[0]) then 0
    else
      var j := FirstUnnamed(fields[1..]);
      assert fields[..j + 1] == [fields[0]] + fields[1..][..j];
      j + 1
  }

  /** The `(name, type)` assignments, in field order. */
  function SchemaPairs(fields: seq<Dict<string>>): (ps: seq<(string, PyType)>)
    requires AllNamed(fields)
    ensures |ps| == |fields|
    ensures forall i :: 0 <= i < |fields| ==>
              Some(ps[i].0) == Get(fields[i], "name") && ps[i].1 == ToolType(TypeOfField(fields[i]))
  {
    seq(|fields|, i requires 0 <= i < |fields| => (Get(fields[i], "name").value, ToolType(TypeOfField(fields[i]))))
  }

  /**
   * `define_schema`: each field's name is assigned its mapped type, a
   * later field with the same name overriding an earlier one; a field
   * without `name` raises `KeyError`, caught into a failure.
   */
  function DefineSchema(fields: seq<Dict<string>>): (r: ToolResult)
    ensures r.Succeeded? <==> AllNamed(fields)
    ensures r.Failed? ==> r.error == "'name'"
    ensures r.Succeeded? ==>
              && r.payload.SchemaPayload?
              && r.payload.fieldCount == |fields|
              && NoDup(Keys(r.payload.schema))
  {
    if !AllNamed(fields) then Failed("'name'")
    else
      var ps := SchemaPairs(fields);
      UpdateKeepsNoDup([], ps);
      Succeeded(SchemaPayload(Update([], ps), |fields|))
  }

  /** The schema defines exactly the names the fields carry. */
  lemma DefinedNames(fields: seq<Dict<string>>, x: string)
    requires AllNamed(fields)
    ensures x in Keys(DefineSchema(fields).payload.schema) <==> exists i :: 0 <= i < |fields| && Get(fields[i], "name") == Some(x)
  {
    var ps := SchemaPairs(fields);
    assert DefineSchema(fields).payload.schema == Update([], ps);
    if x in Keys(ps) {
      var i :| 0 <= i < |ps| && Keys(ps)[i] == x;
      assert Get(fields[i], "name") == Some(x);
    }
    if exists i :: 0 <= i < |fields| && Get(fields[i], "name") == Some(x) {
      var i :| 0 <= i < |fields| && Get(fields[i], "name") == Some(x);
      assert Keys(ps)[i] == x;
    }
  }

  /** The type a name ends up with is the mapped type of the last field carrying that name. */
  lemma DefinedType(fields: seq<Dict<string>>, i: nat)
    requires i < |fields| && AllNamed(fields)
    requires forall j :: i < j < |fields| ==> Get(fields[j], "name") != Get(fields[i], "name")
    ensures Get(DefineSchema(fields).payload.schema, Get(fields[i], "name").value) == Some(ToolType(TypeOfField(fields[i])))
  {
    var ps := SchemaPairs(fields);
    var k := Get(fields[i], "name").value;
    assert Keys(ps)[i] == k;
    UpdateGet([], ps, k);
    LastValueAt(ps, i);
  }

  // ---------------------------------------------------------------------
  // generate_code
  // ---------------------------------------------------------------------

  /** One class-body line per schema entry: four spaces, the name, a colon, the type's text. */
  function SchemaLines(schema: Dict<string>): (lines: seq<string>)
    ensures |lines| == |schema|
    ensures forall i :: 0 <= i < |schema| ==> lines[i] == "    " + schema[i].0 + ": " + schema[i].1
  {
    seq(|schema|, i requires 0 <= i < |schema| => "    " + schema[i].0 + ": " + schema[i].1)
  }

  const PassLine := "    pass"

  /**
   * The block `generate_code` puts into the `DataSchema` class: the lines
   * joined by newlines, or `pass` for an empty schema, so the class body
   * is never empty.
   */
  function SchemaBlock(schema: Dict<string>): (block: string)
    ensures schema == [] <==> block == PassLine
    ensures schema != [] ==> block == Join(SchemaLines(schema), "\n")
    ensures schema != [] ==> StartsWith(block, SchemaLines(schema)[0])
  {
    var lines := SchemaLines(schema);
    if lines == [] then PassLine
    else
      JoinStartsWith(lines, "\n");
      var first := lines[0];
      assert first[4 + |schema[0].0|] == ':';
      assert Join(lines, "\n")[4 + |schema[0].0|] == ':';
      assert ':' !in PassLine;
      Join(lines, "\n")
  }

  lemma {:induction false} JoinStartsWith(parts: seq<string>, sep: string)
    requires |parts| > 0
    ensures StartsWith(Join(parts, sep), parts[0])
  {
    if |parts| > 1 {
      assert Join(parts, sep) == parts[0] + sep + Join(parts[1..], sep);
      assert (parts[0] + sep + Join(parts[1..], sep))[..|parts[0]|] == parts[0];
    }
  }

  /** Reading one class-body line back: drop the indent, split at the first colon, skip the space after it. */
  function ParseSchemaLine(line: string): (r: Option<(string, string)>)
    ensures r.Some? ==> line == "    " + r.value.0 + ": " + r.value.1 && ':' !in r.value.0
  {
    if |line| < 4 || line[..4] != "    " then None
    else
      var rest := line[4..];
      var i := Find(rest, ':');
      if i + 1 < |rest| && rest[i + 1] == ' ' then
        assert rest == rest[..i] + ": " + rest[i + 2..];
        Some((rest[..i], rest[i + 2..]))
      else None
  }

  /** Reading every line back, or `None` when one of them is not a schema line. */
  function ParseSchemaLines(lines: seq<string>): (r: Option<Dict<string>>)
    ensures r.Some? ==> |r.value| == |lines|
  {
    if lines == [] then Some([])
    else
      match (ParseSchemaLine(lines[0]), ParseSchemaLines(lines[1..]))
      case (Some(e), Some(es)) => Some([e] + es)
      case _ => None
  }

  /** Reading a schema block back: `pass` is the empty schema, otherwise one entry per line. */
  function ParseSchemaBlock(block: string): Option<Dict<string>>
  {
    if block == PassLine then Some([]) else ParseSchemaLines(Split(block, '\n'))
  }

  /** Names without a colon or a newline, and type texts without a newline. */
  predicate PlainSchema(schema: Dict<string>)
  {
    forall i :: 0 <= i < |schema| ==> ':' !in schema[i].0 && '\n' !in schema[i].0 && '\n' !in schema[i].1
  }

  /** A line written for a name without a colon reads back as its name and type. */
  lemma SchemaLineRoundTrip(name: string, typeText: string)
    requires ':' !in name
    ensures ParseSchemaLine("    " + name + ": " + typeText) == Some((name, typeText))
  {
    var line := "    " + name + ": " + typeText;
    var rest := line[4..];
    assert rest == name + [':'] + (" " + typeText);
    assert rest[..|name|] == name && rest[|name|] == ':';
    assert Find(rest, ':') == |name|;
  }

  lemma {:induction false} SchemaLinesRoundTrip(schema: Dict<string>)
    requires PlainSchema(schema)
    ensures ParseSchemaLines(SchemaLines(schema)) == Some(schema)
  {
    if schema != [] {
      var lines := SchemaLines(schema);
      SchemaLineRoundTrip(schema[0].0, schema[0].1);
      assert lines[1..] == SchemaLines(schema[1..]);
      assert PlainSchema(schema[1..]) by {
        forall i | 0 <= i < |schema| - 1 ensures schema[1..][i] == schema[i + 1] { }
      }
      SchemaLinesRoundTrip(schema[1..]);
      assert schema == [schema[0]] + schema[1..];
    }
  }

  /** The schema block reads back as the schema it was written from. */
  lemma SchemaBlockRoundTrip(schema: Dict<string>)
    requires PlainSchema(schema)
    ensures ParseSchemaBlock(SchemaBlock(schema)) == Some(schema)
  {
    if schema != [] {
      var lines := SchemaLines(schema);
      forall i | 0 <= i < |lines| ensures '\n' !in lines[i] {
        assert lines[i] == "    " + schema[i].0 + ": " + schema[i].1;
      }
      SplitJoin(lines, '\n');
      SchemaLinesRoundTrip(schema);
    }
  }

  /** `generate_code`: always succeeds, with the schema block and the URL list of the template. */
  function GenerateCode(urls: seq<string>, schema: Dict<string>): (r: ToolResult)
    ensures r.Succeeded? && r.payload.CodePayload?
    ensures r.payload.urls == urls
    ensures r.payload.schemaBlock == SchemaBlock(schema)
  {
    Succeeded(CodePayload(SchemaBlock(schema), urls))
  }
}
