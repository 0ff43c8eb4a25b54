/** The MCP tool bridge: turns the tool catalogs of several MCP servers into
    one flat list of function tools with strict input schemas, and folds each
    tool call's result content into one string. */
module ToolBridge {
  import opened Common
  import opened Text
  import opened Json

  const AdditionalPropertiesKey := "additionalProperties"
  const RequiredKey := "required"
  const PropertiesKey := "properties"
  const TypeKey := "type"

  // ---------------------------------------------------------------------------
  // Schema normalisation
  // ---------------------------------------------------------------------------

  /** Python raises AttributeError on `.keys()` of a `properties` value that is
      not an object; the bridge's server loop then skips that server. */
  const NonObjectPropertiesError := "'properties' has no attribute 'keys'"

  /** `_make_strict_schema`: a copy of the schema that forbids additional
      properties unless the schema already says otherwise, and that requires
      every declared property unless the schema already lists `required`. */
  function MakeStrictSchema(input: Schema): (r: Result<Schema>)
    ensures r.Err? <==>
      PropertiesKey in input && RequiredKey !in input && !input[PropertiesKey].Object?
    ensures r.Ok? ==>
      && AdditionalPropertiesKey in r.value
      && r.value[AdditionalPropertiesKey] ==
           (if AdditionalPropertiesKey in input then input[AdditionalPropertiesKey] else Bool(false))
    ensures r.Ok? && RequiredKey in input ==>
      RequiredKey in r.value && r.value[RequiredKey] == input[RequiredKey]
    ensures r.Ok? && RequiredKey !in input ==>
      (RequiredKey in r.value <==> PropertiesKey in input)
    ensures r.Ok? && RequiredKey !in input && PropertiesKey in input ==>
      r.value[RequiredKey] == KeyArray(input[PropertiesKey].keys)
    ensures r.Ok? ==> forall k :: k != AdditionalPropertiesKey && k != RequiredKey ==>
      (k in r.value <==> k in input) && (k in input ==> r.value[k] == input[k])
  {
    var schema := if AdditionalPropertiesKey in input then input
                  else input[AdditionalPropertiesKey := Bool(false)];
    if PropertiesKey in schema && RequiredKey !in schema then
      match schema[PropertiesKey]
      case Object(keys, _) => Ok(schema[RequiredKey := KeyArray(keys)])
      case _ => Err(NonObjectPropertiesError)
    else
      Ok(schema)
  }

  /** Normalising an already normalised schema changes nothing. */
  lemma MakeStrictSchemaIdempotent(input: Schema)
    requires MakeStrictSchema(input).Ok?
    ensures MakeStrictSchema(MakeStrictSchema(input).value) == MakeStrictSchema(input)
  {
  }

  /** For a dict of properties, the added `required` names every property
      exactly once. */
  lemma StrictRequiredNamesEachProperty(input: Schema)
    requires PropertiesKey in input && RequiredKey !in input
    requires WellFormedObject(input[PropertiesKey])
    ensures MakeStrictSchema(input).Ok?
    ensures
      var req := MakeStrictSchema(input).value[RequiredKey];
      && req.Array?
      && (forall i, j :: 0 <= i < j < |req.items| ==> req.items[i] != req.items[j])
      && (forall k :: k in input[PropertiesKey].fields <==> Str(k) in req.items)
  {
    var props := input[PropertiesKey];
    var req := MakeStrictSchema(input).value[RequiredKey];
    forall k
      ensures k in props.fields <==> Str(k) in req.items
    {
      if Str(k) in req.items {
        var i :| 0 <= i < |req.items| && req.items[i] == Str(k);
        assert props.keys[i] == k;
      }
      if k in props.fields {
        var i :| 0 <= i < |props.keys| && props.keys[i] == k;
        assert req.items[i] == Str(k);
      }
    }
  }

  /** A schema with `properties: {a, b}` and no `required` gains
      `required: [a, b]` and `additionalProperties: false`. */
  lemma {:induction false} MakeStrictSchemaExample(a: Value, b: Value)
    ensures
      var props := Object(["a", "b"], map["a" := a, "b" := b]);
      var input := map[TypeKey := Str("object"), PropertiesKey := props];
      MakeStrictSchema(input) == Ok(map[
        TypeKey := Str("object"), PropertiesKey := props,
        AdditionalPropertiesKey := Bool(false),
        RequiredKey := Array([Str("a"), Str("b")])])
  {
    var props := Object(["a", "b"], map["a" := a, "b" := b]);
    var input := map[TypeKey := Str("object"), PropertiesKey := props];
    var r := MakeStrictSchema(input).value;
    assert KeyArray(["a", "b"]).items == [Str("a"), Str("b")];
    assert r.Keys == {TypeKey, PropertiesKey, AdditionalPropertiesKey, RequiredKey};
  }

  // ---------------------------------------------------------------------------
  // Tool descriptors
  // ---------------------------------------------------------------------------

  /** One entry of an MCP server's `list_tools` reply; None and the empty
      value both stand for a missing (falsy) field. */
  datatype ToolDef = ToolDef(name: string, description: Option<string>, inputSchema: Option<Schema>)

  /** A bridged function tool; `server` names the session that executes it. */
  datatype Tool = Tool(name: string, description: string, schema: Schema, server: string)

  /** `{"type": "object", "properties": {}}` */
  const DefaultSchema: Schema := map[TypeKey := Str("object"), PropertiesKey := EmptyObject]

  function DescriptionOf(def: ToolDef): string
  {
    match def.description
    case Some(d) => if d != "" then d else "MCP tool: " + def.name
    case None => "MCP tool: " + def.name
  }

  function SchemaOf(def: ToolDef): Schema
  {
    match def.inputSchema
    case Some(s) => if s != map[] then s else DefaultSchema
    case None => DefaultSchema
  }

  /** The loop body of `_create_tools_from_session`: defaults, then strict schema. */
  function ToolFromDef(server: string, def: ToolDef): (r: Result<Tool>)
    ensures r.Ok? ==> r.value.name == def.name && r.value.server == server
    ensures r.Ok? && def.description.Some? && def.description.value != "" ==>
      r.value.description == def.description.value
    ensures r.Ok? && (def.description.None? || def.description.value == "") ==>
      r.value.description == "MCP tool: " + def.name
    ensures def.inputSchema.Some? && def.inputSchema.value != map[] ==>
      r.Ok? == MakeStrictSchema(def.inputSchema.value).Ok?
      && (r.Ok? ==> Ok(r.value.schema) == MakeStrictSchema(def.inputSchema.value))
    ensures def.inputSchema.None? || def.inputSchema.value == map[] ==>
      r.Ok? && Ok(r.value.schema) == MakeStrictSchema(DefaultSchema)
    ensures r.Err? ==> r.error == NonObjectPropertiesError
  {
    match MakeStrictSchema(SchemaOf(def))
    case Ok(schema) => Ok(Tool(def.name, DescriptionOf(def), schema, server))
    case Err(e) => Err(e)
  }

  /** A tool listed without a schema gets `required: []` and
      `additionalProperties: false`; one without a description gets
      "MCP tool: <name>". */
  lemma ToolDefaults(server: string, name: string)
    ensures
      var r := ToolFromDef(server, ToolDef(name, None, None));
      && r.Ok?
      && r.value.description == "MCP tool: " + name
      && r.value.schema == map[
           TypeKey := Str("object"), PropertiesKey := EmptyObject,
           RequiredKey := Array([]), AdditionalPropertiesKey := Bool(false)]
  {
  }

  /** The tools of one server's catalog, in catalog order; one schema that
      cannot be normalised makes the whole listing fail. */
  function BuildTools(server: string, defs: seq<ToolDef>): (r: Result<seq<Tool>>)
    ensures r.Ok? ==> |r.value| == |defs|
    ensures r.Ok? ==> forall i :: 0 <= i < |defs| ==> ToolFromDef(server, defs[i]) == Ok(r.value[i])
    ensures r.Err? <==> exists i :: 0 <= i < |defs| && ToolFromDef(server, defs[i]).Err?
  {
    if |defs| == 0 then Ok([])
    else
      var prefix := BuildTools(server, defs[..|defs| - 1]);
      var last := ToolFromDef(server, defs[|defs| - 1]);
      if prefix.Err? then
        assert defs[..|defs| - 1] <= defs;
        prefix
      else if last.Err? then Err(last.error)
      else Ok(prefix.value + [last.value])
  }

  /** `_create_tools_from_session` after `list_tools` returned `defs`. */
  method CreateToolsFromSession(server: string, defs: seq<ToolDef>) returns (r: Result<seq<Tool>>)
    ensures r == BuildTools(server, defs)
  {
    var tools: seq<Tool> := [];
    var i := 0;
    while i < |defs|
      invariant 0 <= i <= |defs|
      invariant BuildTools(server, defs[..i]) == Ok(tools)
    {
      var t := ToolFromDef(server, defs[i]);
      assert defs[..i + 1][..i] == defs[..i];
      if t.Err? {
        assert BuildTools(server, defs[..i + 1]).Err?;
        BuildToolsErrExtends(server, defs[..i + 1], defs);
        return Err(t.error);
      }
      tools := tools + [t.value];
      i := i + 1;
    }
    assert defs[..i] == defs;
    r := Ok(tools);
  }

  /** Once some prefix of a catalog fails, the whole catalog fails with the
      same exception. */
  lemma {:induction false} BuildToolsErrExtends(server: string, prefix: seq<ToolDef>, defs: seq<ToolDef>)
    requires prefix <= defs
    requires BuildTools(server, prefix).Err?
    ensures BuildTools(server, defs) == BuildTools(server, prefix)
    decreases |defs|
  {
    if |defs| > |prefix| {
      assert prefix <= defs[..|defs| - 1];
      BuildToolsErrExtends(server, prefix, defs[..|defs| - 1]);
    } else {
      assert prefix == defs;
    }
  }

  // ---------------------------------------------------------------------------
  // Server loop
  // ---------------------------------------------------------------------------

  /** What connecting to one configured server amounted to. `Unreachable` is
      `_connect_server` returning None (the HTTP probe failed);
      `ConnectRaised` is an exception from the transport or the handshake;
      `Connected` carries the outcome of `list_tools`. */
  datatype Connection =
    | Unreachable
    | ConnectRaised(message: string)
    | Connected(listing: Result<seq<ToolDef>>)

  datatype ServerEntry = ServerEntry(name: string, connection: Connection)

  /** The tools one server contributes: none unless it connected, listed its
      tools and every schema normalised. */
  function ServerTools(e: ServerEntry): seq<Tool>
  {
    match e.connection
    case Connected(Ok(defs)) =>
      (match BuildTools(e.name, defs) case Ok(ts) => ts case Err(_) => [])
    case _ => []
  }

  /** Session opened for a server: one per successful connect, kept even if
      listing its tools then fails. */
  function ServerSessions(e: ServerEntry): seq<string>
  {
    if e.connection.Connected? then [e.name] else []
  }

  /** The contributions of the servers, concatenated in server order. */
  function Gather<T>(servers: seq<ServerEntry>, part: ServerEntry -> seq<T>): seq<T>
  {
    if |servers| == 0 then []
    else Gather(servers[..|servers| - 1], part) + part(servers[|servers| - 1])
  }

  /** The flat catalog `get_tools` builds, and the sessions it opens. */
  function Catalog(servers: seq<ServerEntry>): seq<Tool>
  {
    Gather(servers, ServerTools)
  }

  function Sessions(servers: seq<ServerEntry>): seq<string>
  {
    Gather(servers, ServerSessions)
  }

  lemma GatherStep<T>(servers: seq<ServerEntry>, part: ServerEntry -> seq<T>, i: nat)
    requires i < |servers|
    ensures Gather(servers[..i + 1], part) == Gather(servers[..i], part) + part(servers[i])
  {
    assert servers[..i + 1][..i] == servers[..i];
  }

  lemma {:induction false} GatherConcat<T>(a: seq<ServerEntry>, b: seq<ServerEntry>, part: ServerEntry -> seq<T>)
    ensures Gather(a + b, part) == Gather(a, part) + Gather(b, part)
    decreases |b|
  {
    if |b| > 0 {
      assert (a + b)[..|a + b| - 1] == a + b[..|b| - 1];
      GatherConcat(a, b[..|b| - 1], part);
    } else {
      assert a + b == a;
    }
  }

  lemma {:induction false} GatherSkip<T>(before: seq<ServerEntry>, e: ServerEntry, after: seq<ServerEntry>,
                                         part: ServerEntry -> seq<T>)
    requires part(e) == []
    ensures Gather(before + [e] + after, part) == Gather(before + after, part)
  {
    assert [e][..0] == [];
    GatherConcat(before + [e], after, part);
    GatherConcat(before, [e], part);
    GatherConcat(before, after, part);
  }

  lemma {:induction false} GatherMembership<T>(servers: seq<ServerEntry>, part: ServerEntry -> seq<T>, x: T)
    ensures x in Gather(servers, part) <==> exists i :: 0 <= i < |servers| && x in part(servers[i])
    decreases |servers|
  {
    if |servers| > 0 {
      var n := |servers| - 1;
      var init := servers[..n];
      GatherMembership(init, part, x);
      assert forall i :: 0 <= i < n ==> servers[i] == init[i];
    }
  }

  /** A server that is unreachable or whose connect raises contributes no
      tool and no session; the servers around it are unaffected. */
  lemma {:induction false} FailedServerSkipped(before: seq<ServerEntry>, e: ServerEntry, after: seq<ServerEntry>)
    requires !e.connection.Connected?
    ensures Catalog(before + [e] + after) == Catalog(before + after)
    ensures Sessions(before + [e] + after) == Sessions(before + after)
  {
    GatherSkip(before, e, after, ServerTools);
    GatherSkip(before, e, after, ServerSessions);
  }

  /** A tool is in the catalog exactly when some server contributed it. */
  lemma {:induction false} CatalogMembership(servers: seq<ServerEntry>, t: Tool)
    ensures t in Catalog(servers) <==> exists i :: 0 <= i < |servers| && t in ServerTools(servers[i])
  {
    GatherMembership(servers, ServerTools, t);
  }

  /** Of three servers, a middle one contributing nothing leaves the first's
      and the third's contributions, in order. */
  lemma {:induction false} GatherThree<T>(a: ServerEntry, b: ServerEntry, c: ServerEntry,
                                          part: ServerEntry -> seq<T>)
    requires part(b) == []
    ensures Gather([a, b, c], part) == part(a) + part(c)
  {
    GatherSkip([a], b, [c], part);
    assert [a] + [b] + [c] == [a, b, c];
    assert [a] + [c] == [a, c];
    GatherConcat([a], [c], part);
    assert [a][..0] == [] && [c][..0] == [];
  }

  /** Of three servers, an unreachable one in the middle is skipped and the
      other two contribute their tools in order. */
  lemma {:induction false} ThreeServersOneUnreachable(a: ServerEntry, b: ServerEntry, c: ServerEntry)
    requires b.connection == Unreachable
    ensures Catalog([a, b, c]) == ServerTools(a) + ServerTools(c)
    ensures Sessions([a, b, c]) == ServerSessions(a) + ServerSessions(c)
  {
    GatherThree(a, b, c, ServerTools);
    GatherThree(a, b, c, ServerSessions);
  }

  lemma AppendAssoc<T>(a: seq<T>, b: seq<T>, c: seq<T>)
    ensures a + b + c == a + (b + c)
  {
  }

  /** `MCPToolBridge`: the sessions it has opened and the tools gathered so
      far. `get_tools` appends to both and returns a copy of the tools. */
  class MCPToolBridge {
    var sessions: seq<string>
    var tools: seq<Tool>

    constructor ()
      ensures sessions == [] && tools == []
    {
      sessions := [];
      tools := [];
    }

    method GetTools(servers: seq<ServerEntry>) returns (r: seq<Tool>)
      modifies this
      ensures sessions == old(sessions) + Sessions(servers)
      ensures tools == old(tools) + Catalog(servers)
      ensures r == tools
    {
      var i := 0;
      while i < |servers|
        invariant 0 <= i <= |servers|
        invariant sessions == old(sessions) + Sessions(servers[..i])
        invariant tools == old(tools) + Catalog(servers[..i])
      {
        var e := servers[i];
        GatherStep(servers, ServerTools, i);
        GatherStep(servers, ServerSessions, i);
        var newSessions: seq<string> := [];
        var newTools: seq<Tool> := [];
        match e.connection {
          case Connected(listing) =>
            newSessions := [e.name];
            if listing.Ok? {
              var built := CreateToolsFromSession(e.name, listing.value);
              if built.Ok? {
                newTools := built.value;
              }
            }
          case Unreachable =>
          case ConnectRaised(_) =>
        }
        assert newSessions == ServerSessions(e) && newTools == ServerTools(e);
        AppendAssoc(old(sessions), Sessions(servers[..i]), newSessions);
        AppendAssoc(old(tools), Catalog(servers[..i]), newTools);
        sessions := sessions + newSessions;
        tools := tools + newTools;
        i := i + 1;
      }
      assert servers[..i] == servers;
      r := tools;
    }
  }

  // ---------------------------------------------------------------------------
  // Tool invocation
  // ---------------------------------------------------------------------------

  /** What `json.loads` made of a non-empty argument string. */
  datatype ArgsParse = Parsed(value: Value) | DecodeError

  /** Empty or undecodable arguments become `{}` instead of raising. */
  function DecodeArgs(argsJson: string, parse: string -> ArgsParse): (r: Value)
    ensures argsJson == "" || parse(argsJson).DecodeError? ==> r == EmptyObject
    ensures argsJson != "" && parse(argsJson).Parsed? ==> r == parse(argsJson).value
  {
    if argsJson == "" then EmptyObject
    else match parse(argsJson)
      case Parsed(v) => v
      case DecodeError => EmptyObject
  }

  /** One item of an MCP call result: text-bearing or not. */
  datatype ContentItem = TextContent(text: string) | OtherContent

  /** The outcome of `session.call_tool`. */
  datatype CallOutcome = Returned(content: seq<ContentItem>) | Raised(message: string)

  /** The texts of the text-bearing items, in order. */
  function Texts(content: seq<ContentItem>): seq<string>
  {
    if |content| == 0 then []
    else Texts(content[..|content| - 1])
         + (match content[|content| - 1] case TextContent(t) => [t] case OtherContent => [])
  }

  lemma {:induction false} TextsConcat(a: seq<ContentItem>, b: seq<ContentItem>)
    ensures Texts(a + b) == Texts(a) + Texts(b)
    decreases |b|
  {
    if |b| > 0 {
      assert (a + b)[..|a + b| - 1] == a + b[..|b| - 1];
      TextsConcat(a, b[..|b| - 1]);
    } else {
      assert a + b == a;
    }
  }

  /** Every text of the result is the text of some item, and every
      text-bearing item contributes: the texts are exactly the items' texts. */
  lemma {:induction false} TextsMembership(content: seq<ContentItem>, t: string)
    ensures t in Texts(content) <==> TextContent(t) in content
    decreases |content|
  {
    if |content| > 0 {
      var init := content[..|content| - 1];
      TextsMembership(init, t);
      assert content == init + [content[|content| - 1]];
    }
  }

  const NoTextOutput := "Tool executed successfully (no text output)"
  const NoOutput := "Tool executed successfully (no output)"

  function CallErrorText(name: string, message: string): string
  {
    "Error calling MCP tool '" + name + "': " + message
  }

  /** `on_invoke_tool`: decode the arguments, call the tool over its session
      and fold the result into one string; a failed call becomes text. */
  method InvokeTool(name: string, argsJson: string, parse: string -> ArgsParse,
                    call: (string, Value) -> CallOutcome) returns (out: string)
    ensures call(name, DecodeArgs(argsJson, parse)).Raised? ==>
      out == CallErrorText(name, call(name, DecodeArgs(argsJson, parse)).message)
    ensures call(name, DecodeArgs(argsJson, parse)).Returned? ==>
      var content := call(name, DecodeArgs(argsJson, parse)).content;
      && (content == [] ==> out == NoOutput)
      && (content != [] && Texts(content) == [] ==> out == NoTextOutput)
      && (Texts(content) != [] ==> out == Join(Texts(content), "\n"))
  {
    var args := if argsJson == "" then EmptyObject
                else match parse(argsJson) case Parsed(v) => v case DecodeError => EmptyObject;
    var result := call(name, args);
    match result {
      case Raised(message) =>
        out := CallErrorText(name, message);
      case Returned(content) =>
        if content == [] {
          out := NoOutput;
        } else {
          var textParts: seq<string> := [];
          var i := 0;
          while i < |content|
            invariant 0 <= i <= |content|
            invariant textParts == Texts(content[..i])
          {
            assert content[..i + 1][..i] == content[..i];
            match content[i] {
              case TextContent(t) => textParts := textParts + [t];
              case OtherContent =>
            }
            i := i + 1;
          }
          assert content[..i] == content;
          out := if textParts != [] then Join(textParts, "\n") else NoTextOutput;
        }
    }
  }

  /** When no text contains a newline, the lines of a tool's output are
      exactly the texts of its result, in order. */
  lemma {:induction false} ToolOutputLines(content: seq<ContentItem>)
    requires Texts(content) != []
    requires forall t :: TextContent(t) in content ==> '\n' !in t
    ensures Split(Join(Texts(content), "\n"), '\n') == Texts(content)
  {
    var ts := Texts(content);
    forall i | 0 <= i < |ts| ensures '\n' !in ts[i] {
      TextsMembership(content, ts[i]);
    }
    SplitJoin(ts, '\n');
  }
}
