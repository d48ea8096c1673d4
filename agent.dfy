/** The tool-calling agent: schemas derived from the signatures of the
    registered tools, dispatch of the tool calls the model asks for, and the
    assembly of the result of one invocation. The HTTP round trip, the JSON
    decoder and the output-schema class are parameters. */
module Agent {
  import opened Common

  // ---------------------------------------------------------------------
  // Decoded JSON

  /** A decoded JSON value (numbers are integers in this model). An object's
      fields are meant to have distinct keys (`Common.DistinctKeys`), as a
      dict returned by `json.loads` has. */
  datatype Json =
    | JNull
    | JBool(b: bool)
    | JNum(n: int)
    | JStr(s: string)
    | JList(items: seq<Json>)
    | JObject(fields: seq<(string, Json)>)

  /** The name of the Python type a JSON value decodes to. */
  function PyType(j: Json): string {
    match j
    case JNull => "NoneType"
    case JBool(_) => "bool"
    case JNum(_) => "int"
    case JStr(_) => "str"
    case JList(_) => "list"
    case JObject(_) => "dict"
  }

  /** Python truthiness of a decoded value. */
  predicate Truthy(j: Json) {
    match j
    case JNull => false
    case JBool(b) => b
    case JNum(n) => n != 0
    case JStr(s) => s != ""
    case JList(items) => items != []
    case JObject(fields) => fields != []
  }

  /** `value[key]`, or the text of the exception it raises: a `KeyError` on a
      dict without the key, a `TypeError` on anything else. */
  function Field(j: Json, key: string): (r: Result<Json>)
    ensures r.Ok? <==> j.JObject? && Get(j.fields, key).Some?
    ensures r.Ok? ==> (key, r.value) in j.fields
    ensures r.Err? && j.JObject? ==> r.message == "'" + key + "'"
  {
    match j
    case JObject(fields) =>
      (match Get(fields, key)
       case Some(v) => Ok(v)
       case None => Err("'" + key + "'"))
    case JList(_) => Err("list indices must be integers or slices, not str")
    case JStr(_) => Err("string indices must be integers, not 'str'")
    case _ => Err("'" + PyType(j) + "' object is not subscriptable")
  }

  /** `for x in value`: a list yields its items, a dict its keys and a string
      its characters; anything else raises `TypeError`. */
  function Elements(j: Json): (r: Result<seq<Json>>)
    ensures r.Ok? <==> j.JList? || j.JObject? || j.JStr?
    ensures j.JList? ==> r == Ok(j.items)
    ensures r.Ok? ==> (|r.value| == 0 <==> !Truthy(j))
  {
    match j
    case JList(items) => Ok(items)
    case JObject(fields) => Ok(seq(|fields|, i requires 0 <= i < |fields| => JStr(fields[i].0)))
    case JStr(s) => Ok(seq(|s|, i requires 0 <= i < |s| => JStr([s[i]])))
    case _ => Err("'" + PyType(j) + "' object is not iterable")
  }

  /** Decimal digits of a natural number. */
  function NatToString(n: nat): (s: string)
    ensures |s| >= 1
    decreases n
  {
    var d := "0123456789"[n % 10];
    if n < 10 then [d] else NatToString(n / 10) + [d]
  }

  /** `str(value)` for the scalar values a tool name can be; lists and dicts
      are rendered by a placeholder. */
  function Show(j: Json): string {
    match j
    case JStr(s) => s
    case JNull => "None"
    case JBool(b) => if b then "True" else "False"
    case JNum(n) => if n < 0 then "-" + NatToString(-n) else NatToString(n)
    case JList(_) => "[...]"
    case JObject(_) => "{...}"
  }

  // ---------------------------------------------------------------------
  // Tools and their schemas

  /** A parameter annotation, as far as the schema distinguishes them. */
  datatype Annotation = Unannotated | IntType | FloatType | BoolType | ListType | OtherType(name: string)

  /** One parameter of a tool's signature, in signature order. */
  datatype Param = Param(name: string, annotation: Annotation, hasDefault: bool)

  /** What calling a tool with keyword arguments does: return a value or
      raise an exception with a message. */
  datatype Outcome = Returned(value: Json) | Raised(message: string)

  /** A registered tool: its `__name__`, its cleaned docstring (`""` when
      it has none), its signature and its behaviour on an argument map. */
  datatype Tool = Tool(name: string, doc: string, params: seq<Param>, call: Json -> Outcome)

  /** An entry of a schema's `properties`. */
  datatype Property = Property(name: string, typ: string, description: string)

  /** A tool schema: `{"type": "function", "function": {name, description,
      "parameters": {"type": "object", properties, required}}}`. */
  datatype ToolSchema = ToolSchema(name: string, description: string, properties: seq<Property>, required: seq<string>)

  /** The JSON-schema type named for an annotation: only exactly `int`,
      `float`, `bool` and `list` are recognised, everything else is a string. */
  function TypeName(a: Annotation): (t: string)
    ensures t == "integer" <==> a == IntType
    ensures t == "number" <==> a == FloatType
    ensures t == "boolean" <==> a == BoolType
    ensures t == "array" <==> a == ListType
    ensures t == "string" <==> a.Unannotated? || a.OtherType?
  {
    match a
    case IntType => "integer"
    case FloatType => "number"
    case BoolType => "boolean"
    case ListType => "array"
    case _ => "string"
  }

  /** `doc.split('\n')[0]`: the text before the first line break. */
  function FirstLine(doc: string): (line: string)
    ensures line <= doc
    ensures '\n' !in line
    ensures |line| < |doc| ==> doc[|line|] == '\n'
  {
    if doc == [] || doc[0] == '\n' then []
    else [doc[0]] + FirstLine(doc[1..])
  }

  /** The schema description: the first docstring line, or `Function <name>`
      for a tool without a docstring. */
  function Description(tool: Tool): string {
    if tool.doc == "" then "Function " + tool.name else FirstLine(tool.doc)
  }

  function PropertyFor(p: Param): Property {
    Property(p.name, TypeName(p.annotation), "Parameter " + p.name)
  }

  /** One property per parameter, in signature order. */
  function Properties(params: seq<Param>): (props: seq<Property>)
    ensures |props| == |params|
    ensures forall k :: 0 <= k < |params| ==> props[k] == PropertyFor(params[k])
  {
    if params == [] then []
    else Properties(params[..|params| - 1]) + [PropertyFor(params[|params| - 1])]
  }

  /** The names of the parameters without a default, in signature order. */
  function RequiredNames(params: seq<Param>): seq<string> {
    if params == [] then []
    else
      var last := params[|params| - 1];
      RequiredNames(params[..|params| - 1]) + (if last.hasDefault then [] else [last.name])
  }

  /** A name is required exactly when some parameter of that name has no
      default, and no more names are required than there are parameters. */
  lemma {:induction false} RequiredNamesIff(params: seq<Param>, x: string)
    ensures x in RequiredNames(params) <==> exists k :: 0 <= k < |params| && params[k].name == x && !params[k].hasDefault
    ensures |RequiredNames(params)| <= |params|
  {
    if params != [] {
      var init := params[..|params| - 1];
      RequiredNamesIff(init, x);
      assert forall k :: 0 <= k < |init| ==> init[k] == params[k];
    }
  }

  function SchemaFor(tool: Tool): ToolSchema {
    ToolSchema(tool.name, Description(tool), Properties(tool.params), RequiredNames(tool.params))
  }

  /** The schema of one tool, built as the source builds it: properties are
      filled and required names appended parameter by parameter. */
  method BuildSchema(tool: Tool) returns (schema: ToolSchema)
    ensures schema == SchemaFor(tool)
  {
    var description := if tool.doc != "" then FirstLine(tool.doc) else "Function " + tool.name;
    var properties: seq<Property> := [];
    var required: seq<string> := [];
    for j := 0 to |tool.params|
      invariant properties == Properties(tool.params[..j])
      invariant required == RequiredNames(tool.params[..j])
    {
      var p := tool.params[j];
      assert tool.params[..j + 1][..j] == tool.params[..j] && tool.params[..j + 1][j] == p;
      properties := properties + [Property(p.name, TypeName(p.annotation), "Parameter " + p.name)];
      if !p.hasDefault {
        required := required + [p.name];
      }
    }
    assert tool.params[..|tool.params|] == tool.params;
    schema := ToolSchema(tool.name, description, properties, required);
  }

  /** `_generate_tool_schemas`: one schema per tool, in registration order. */
  method GenerateToolSchemas(tools: seq<Tool>) returns (schemas: seq<ToolSchema>)
    ensures |schemas| == |tools|
    ensures forall i :: 0 <= i < |tools| ==> schemas[i] == SchemaFor(tools[i])
  {
    schemas := [];
    for i := 0 to |tools|
      invariant |schemas| == i
      invariant forall k :: 0 <= k < i ==> schemas[k] == SchemaFor(tools[k])
    {
      var schema := BuildSchema(tools[i]);
      schemas := schemas + [schema];
    }
  }

  // ---------------------------------------------------------------------
  // Dispatch

  /** The result of `_execute_tool`: the first registered tool whose name
      equals the requested one is called; its exception becomes an
      `Error executing` string and a name no tool has a `not found` string. */
  function Dispatch(tools: seq<Tool>, name: Json, arguments: Json): Json {
    if tools == [] then JStr("Tool " + Show(name) + " not found")
    else if JStr(tools[0].name) == name then
      match tools[0].call(arguments)
      case Returned(v) => v
      case Raised(msg) => JStr("Error executing " + tools[0].name + ": " + msg)
    else Dispatch(tools[1..], name, arguments)
  }

  /** With several tools of the requested name, the earliest registered one
      runs. */
  lemma {:induction false} DispatchFirstMatch(tools: seq<Tool>, name: Json, arguments: Json, i: nat)
    requires i < |tools| && JStr(tools[i].name) == name
    requires forall k :: 0 <= k < i ==> JStr(tools[k].name) != name
    ensures Dispatch(tools, name, arguments) ==
      match tools[i].call(arguments)
      case Returned(v) => v
      case Raised(msg) => JStr("Error executing " + tools[i].name + ": " + msg)
  {
    if i > 0 {
      assert tools[1..][i - 1] == tools[i];
      DispatchFirstMatch(tools[1..], name, arguments, i - 1);
    }
  }

  /** A name no tool carries yields the `not found` string, whatever the
      arguments. */
  lemma {:induction false} DispatchNotFound(tools: seq<Tool>, name: Json, arguments: Json)
    requires forall k :: 0 <= k < |tools| ==> JStr(tools[k].name) != name
    ensures Dispatch(tools, name, arguments) == JStr("Tool " + Show(name) + " not found")
  {
    if tools != [] {
      assert forall k :: 0 <= k < |tools| - 1 ==> tools[1..][k] == tools[k + 1];
      DispatchNotFound(tools[1..], name, arguments);
    }
  }

  // ---------------------------------------------------------------------
  // Requests and results

  /** The output-schema class: its name, its `model_json_schema()`, and its
      construction from keyword arguments, which fails with a validation
      message. */
  datatype OutputSchema = OutputSchema(name: string, jsonSchema: Json, construct: seq<(string, Json)> -> Result<Json>)

  datatype Message = Message(role: string, content: string)

  /** The request body; `tools` and `format` are absent when `None`. */
  datatype Request = Request(model: string, messages: seq<Message>, stream: bool, tools: Option<seq<ToolSchema>>, format: Option<Json>)

  /** One entry of the result's `tool_calls`. */
  datatype ToolCallRecord = ToolCallRecord(tool: Json, arguments: Json, result: Json)

  /** The dict `invoke` returns; `error` is present only on failure. */
  datatype InvokeResult = InvokeResult(error: Option<string>, message: Json, toolCalls: seq<ToolCallRecord>, structuredOutput: Json)

  const DefaultEndpoint := "http://localhost:11434/api/chat"
  const NoProxies: seq<(string, string)> := [("http", ""), ("https", "")]
  const ParseFailure := "Failed to parse structured output: "

  /** The request body: one user message holding the prompt, no streaming,
      the schemas only when there are any, a format only with an output
      schema. */
  function BuildRequest(model: string, prompt: string, schemas: seq<ToolSchema>, outputSchema: Option<OutputSchema>): (r: Request)
    ensures r.model == model && r.messages == [Message("user", prompt)] && !r.stream
    ensures r.tools.Some? <==> schemas != []
    ensures r.tools.Some? ==> r.tools.value == schemas
    ensures r.format.Some? <==> outputSchema.Some?
    ensures r.format.Some? ==> r.format.value == outputSchema.value.jsonSchema
  {
    Request(model, [Message("user", prompt)], false,
            if schemas != [] then Some(schemas) else None,
            if outputSchema.Some? then Some(outputSchema.value.jsonSchema) else None)
  }

  /** The result when an exception escapes: the error text, no message, no
      tool calls, no structured output. */
  function Failed(reason: string): InvokeResult {
    InvokeResult(Some("Failed to invoke model: " + reason), JNull, [], JNull)
  }

  /** The tool calls of a response message (that has a `content`): none
      without a `tool_calls` key, else whatever iterating its value yields. */
  function CallsOf(message: Json): Result<seq<Json>>
    requires message.JObject?
  {
    match Get(message.fields, "tool_calls")
    case None => Ok([])
    case Some(calls) => Elements(calls)
  }

  /** One tool call: read its function name and arguments and dispatch. */
  function CallRecord(tools: seq<Tool>, call: Json): Result<ToolCallRecord> {
    match Field(call, "function")
    case Err(e) => Err(e)
    case Ok(f) =>
      match Field(f, "name")
      case Err(e) => Err(e)
      case Ok(name) =>
        match Field(f, "arguments")
        case Err(e) => Err(e)
        case Ok(arguments) => Ok(ToolCallRecord(name, arguments, Dispatch(tools, name, arguments)))
  }

  /** Apply a step that may raise to each element in order, collecting the
      results; the first exception ends the loop. */
  function Collect<A, B>(step: A -> Result<B>, xs: seq<A>): Result<seq<B>> {
    if xs == [] then Ok([])
    else
      match Collect(step, xs[..|xs| - 1])
      case Err(e) => Err(e)
      case Ok(ys) =>
        match step(xs[|xs| - 1])
        case Err(e) => Err(e)
        case Ok(y) => Ok(ys + [y])
  }

  /** Once a step has raised, later elements change nothing. */
  lemma {:induction false} CollectStopped<A, B>(step: A -> Result<B>, xs: seq<A>, k: nat)
    requires k <= |xs| && Collect(step, xs[..k]).Err?
    ensures Collect(step, xs) == Collect(step, xs[..k])
    decreases |xs| - k
  {
    if k < |xs| {
      assert xs[..k + 1][..k] == xs[..k];
      CollectStopped(step, xs, k + 1);
    } else {
      assert xs[..k] == xs;
    }
  }

  /** The loop completes exactly when no step raises, and then yields one
      result per element, in order. */
  lemma {:induction false} CollectAt<A, B>(step: A -> Result<B>, xs: seq<A>)
    ensures Collect(step, xs).Ok? <==> forall k :: 0 <= k < |xs| ==> step(xs[k]).Ok?
    ensures Collect(step, xs).Ok? ==>
      |Collect(step, xs).value| == |xs| &&
      forall k :: 0 <= k < |xs| ==> step(xs[k]) == Ok(Collect(step, xs).value[k])
  {
    if xs != [] {
      var init := xs[..|xs| - 1];
      CollectAt(step, init);
      assert forall k :: 0 <= k < |init| ==> init[k] == xs[k];
    }
  }

  /** The tool calls in response order; the first malformed call raises. */
  function CallRecords(tools: seq<Tool>, calls: seq<Json>): Result<seq<ToolCallRecord>> {
    Collect(call => CallRecord(tools, call), calls)
  }

  /** The tool calls succeed exactly when every call is well formed, and
      then give one record per call, in order, each the dispatch of that
      call. */
  lemma CallRecordsAt(tools: seq<Tool>, calls: seq<Json>)
    ensures CallRecords(tools, calls).Ok? <==> forall k :: 0 <= k < |calls| ==> CallRecord(tools, calls[k]).Ok?
    ensures CallRecords(tools, calls).Ok? ==>
      |CallRecords(tools, calls).value| == |calls| &&
      forall k :: 0 <= k < |calls| ==> CallRecord(tools, calls[k]) == Ok(CallRecords(tools, calls).value[k])
  {
    CollectAt(call => CallRecord(tools, call), calls);
  }

  /** The structured output: `None` without an output schema or with an
      empty message; a decoding or validation failure becomes a string; a
      non-string message or a decoded value that is not an object raises
      `TypeError`, which escapes. */
  function Structured(outputSchema: Option<OutputSchema>, content: Json, decode: string -> Result<Json>): Result<Json> {
    if outputSchema.None? || !Truthy(content) then Ok(JNull)
    else if !content.JStr? then Err("the JSON object must be str, bytes or bytearray, not " + PyType(content))
    else
      match decode(content.s)
      case Err(e) => Ok(JStr(ParseFailure + e))
      case Ok(parsed) =>
        if !parsed.JObject? then Err(outputSchema.value.name + "() argument after ** must be a mapping, not " + PyType(parsed))
        else
          match outputSchema.value.construct(parsed.fields)
          case Err(e) => Ok(JStr(ParseFailure + e))
          case Ok(v) => Ok(v)
  }

  /** The result of `invoke` for the outcome of the HTTP round trip (`Err`
      for a transport failure, an HTTP error status or a body that is not
      JSON). */
  function Assemble(response: Result<Json>, tools: seq<Tool>, outputSchema: Option<OutputSchema>, decode: string -> Result<Json>): InvokeResult {
    match response
    case Err(e) => Failed(e)
    case Ok(body) =>
      match Field(body, "message")
      case Err(e) => Failed(e)
      case Ok(message) =>
        match Field(message, "content")
        case Err(e) => Failed(e)
        case Ok(content) =>
          match CallsOf(message)
          case Err(e) => Failed(e)
          case Ok(calls) =>
            match CallRecords(tools, calls)
            case Err(e) => Failed(e)
            case Ok(records) =>
              match Structured(outputSchema, content, decode)
              case Err(e) => Failed(e)
              case Ok(structured) => InvokeResult(None, content, records, structured)
  }

  /** A result that carries an error carries nothing else. */
  lemma FailureShape(response: Result<Json>, tools: seq<Tool>, outputSchema: Option<OutputSchema>, decode: string -> Result<Json>)
    ensures var r := Assemble(response, tools, outputSchema, decode);
      r.error.Some? ==> r.message == JNull && r.toolCalls == [] && r.structuredOutput == JNull
  {
  }

  /** A result without an error carries the response's message content, one
      record per tool call of the response in order, and a structured output
      that is `None` unless an output schema is set and the message is
      non-empty. */
  lemma SuccessShape(body: Json, message: Json, calls: seq<Json>, tools: seq<Tool>, outputSchema: Option<OutputSchema>, decode: string -> Result<Json>)
    requires Field(body, "message") == Ok(message) && message.JObject? && CallsOf(message) == Ok(calls)
    requires Assemble(Ok(body), tools, outputSchema, decode).error.None?
    ensures var r := Assemble(Ok(body), tools, outputSchema, decode);
      && Field(message, "content") == Ok(r.message)
      && |r.toolCalls| == |calls|
      && (forall k :: 0 <= k < |calls| ==> CallRecord(tools, calls[k]) == Ok(r.toolCalls[k]))
      && (outputSchema.None? || !Truthy(r.message) ==> r.structuredOutput == JNull)
  {
    var r := Assemble(Ok(body), tools, outputSchema, decode);
    assert CallRecords(tools, calls) == Ok(r.toolCalls);
    CallRecordsAt(tools, calls);
  }

  /** Each record names the tool asked for, the arguments given, and the
      dispatch of that name on those arguments. */
  lemma CallRecordFields(tools: seq<Tool>, call: Json, record: ToolCallRecord)
    requires CallRecord(tools, call) == Ok(record)
    ensures Field(call, "function").Ok?
    ensures Field(Field(call, "function").value, "name") == Ok(record.tool)
    ensures Field(Field(call, "function").value, "arguments") == Ok(record.arguments)
    ensures record.result == Dispatch(tools, record.tool, record.arguments)
  {
  }

  /** A transport failure yields an error and no tool calls. */
  lemma TransportFailure(reason: string, tools: seq<Tool>, outputSchema: Option<OutputSchema>, decode: string -> Result<Json>)
    ensures Assemble(Err(reason), tools, outputSchema, decode) == Failed(reason)
    ensures Assemble(Err(reason), tools, outputSchema, decode).error.Some?
    ensures Assemble(Err(reason), tools, outputSchema, decode).toolCalls == []
  {
  }

  /** With an output schema and a non-empty message, and whatever tool calls
      the response holds, the structured output is the constructed object;
      a decoding failure or a validation failure does not fail the
      invocation but is reported as a string in `structured_output`; only a
      decoded value that is not an object makes the invocation fail. */
  lemma StructuredOutputReported(body: Json, message: Json, text: string, records: seq<ToolCallRecord>,
                                 tools: seq<Tool>, schema: OutputSchema, decode: string -> Result<Json>)
    requires Field(body, "message") == Ok(message) && message.JObject?
    requires Field(message, "content") == Ok(JStr(text)) && text != ""
    requires CallsOf(message).Ok? && CallRecords(tools, CallsOf(message).value) == Ok(records)
    ensures var r := Assemble(Ok(body), tools, Some(schema), decode);
      match decode(text)
      case Err(reason) => r == InvokeResult(None, JStr(text), records, JStr(ParseFailure + reason))
      case Ok(parsed) =>
        if !parsed.JObject? then r.error.Some? && r.toolCalls == []
        else
          match schema.construct(parsed.fields)
          case Err(reason) => r == InvokeResult(None, JStr(text), records, JStr(ParseFailure + reason))
          case Ok(v) => r == InvokeResult(None, JStr(text), records, v)
  {
  }

  // ---------------------------------------------------------------------
  // The agent

  /** An agent: its configuration is fixed at construction and the tool
      schemas are computed once from the tools. */
  class OllamaAgent {
    const modelName: string
    const tools: seq<Tool>
    const outputSchema: Option<OutputSchema>
    const endpoint: string
    const proxies: seq<(string, string)>
    const toolSchemas: seq<ToolSchema>

    /** Without explicit proxies every scheme is mapped to the empty proxy. */
    constructor (modelName: string, tools: seq<Tool>, outputSchema: Option<OutputSchema> := None,
                 endpoint: string := DefaultEndpoint, proxies: Option<seq<(string, string)>> := None)
      ensures this.modelName == modelName && this.tools == tools && this.outputSchema == outputSchema
      ensures this.endpoint == endpoint
      ensures this.proxies == if proxies.Some? then proxies.value else NoProxies
      ensures |toolSchemas| == |tools|
      ensures forall i :: 0 <= i < |tools| ==> toolSchemas[i] == SchemaFor(tools[i])
    {
      this.modelName := modelName;
      this.tools := tools;
      this.outputSchema := outputSchema;
      this.endpoint := endpoint;
      this.proxies := if proxies.Some? then proxies.value else NoProxies;
      var schemas := GenerateToolSchemas(tools);
      this.toolSchemas := schemas;
    }

    /** `_execute_tool`: a linear search with an early return. */
    method ExecuteTool(toolName: Json, arguments: Json) returns (result: Json)
      ensures result == Dispatch(tools, toolName, arguments)
    {
      for i := 0 to |tools|
        invariant Dispatch(tools[i..], toolName, arguments) == Dispatch(tools, toolName, arguments)
      {
        assert tools[i..][0] == tools[i] && tools[i..][1..] == tools[i + 1..];
        if JStr(tools[i].name) == toolName {
          var outcome := tools[i].call(arguments);
          match outcome
          case Returned(v) => return v;
          case Raised(msg) => return JStr("Error executing " + Show(toolName) + ": " + msg);
        }
      }
      return JStr("Tool " + Show(toolName) + " not found");
    }

    /** `invoke`: post the request, then read the message, run the tool calls
      in order and parse the structured output; every exception that escapes
      becomes the error result. */
    method Invoke(prompt: string, post: (string, Request, seq<(string, string)>) -> Result<Json>, decode: string -> Result<Json>)
      returns (result: InvokeResult)
      ensures result == Assemble(post(endpoint, BuildRequest(modelName, prompt, toolSchemas, outputSchema), proxies), tools, outputSchema, decode)
    {
      var request := BuildRequest(modelName, prompt, toolSchemas, outputSchema);
      var response := post(endpoint, request, proxies);
      if response.Err? {
        return Failed(response.message);
      }
      var message := Field(response.value, "message");
      if message.Err? {
        return Failed(message.message);
      }
      var content := Field(message.value, "content");
      if content.Err? {
        return Failed(content.message);
      }
      var calls := CallsOf(message.value);
      if calls.Err? {
        return Failed(calls.message);
      }
      var records: seq<ToolCallRecord> := [];
      var step := (call: Json) => CallRecord(tools, call);
      for k := 0 to |calls.value|
        invariant Collect(step, calls.value[..k]) == Ok(records)
      {
        var call := calls.value[k];
        assert calls.value[..k + 1][..k] == calls.value[..k] && calls.value[..k + 1][k] == call;
        var fn := Field(call, "function");
        if fn.Err? {
          CollectStopped(step, calls.value, k + 1);
          return Failed(fn.message);
        }
        var name := Field(fn.value, "name");
        if name.Err? {
          CollectStopped(step, calls.value, k + 1);
          return Failed(name.message);
        }
        var arguments := Field(fn.value, "arguments");
        if arguments.Err? {
          CollectStopped(step, calls.value, k + 1);
          return Failed(arguments.message);
        }
        var toolResult := ExecuteTool(name.value, arguments.value);
        records := records + [ToolCallRecord(name.value, arguments.value, toolResult)];
      }
      assert calls.value[..|calls.value|] == calls.value;
      var structured := Structured(outputSchema, content.value, decode);
      if structured.Err? {
        return Failed(structured.message);
      }
      result := InvokeResult(None, content.value, records, structured.value);
    }
  }

  // ---------------------------------------------------------------------
  // The example tools

  /** A non-empty string of decimal digits. */
  predicate IsDecimal(s: string) {
    s != [] && forall i :: 0 <= i < |s| ==> '0' <= s[i] <= '9'
  }

  /** The value of a string of decimal digits. */
  function DigitsValue(s: string): nat
    requires forall i :: 0 <= i < |s| ==> '0' <= s[i] <= '9'
    decreases |s|
  {
    if s == [] then 0 else DigitsValue(s[..|s| - 1]) * 10 + (s[|s| - 1] as int - '0' as int)
  }

  /** `int(x)` for a decoded value: an integer is itself, a boolean is 0 or
      1, a string of decimal digits is its value; anything else raises. */
  function IntOf(j: Json): (r: Result<int>)
    ensures r.Ok? <==> j.JNum? || j.JBool? || (j.JStr? && IsDecimal(j.s))
    ensures j.JNum? ==> r == Ok(j.n)
    ensures j.JBool? ==> r == Ok(if j.b then 1 else 0)
  {
    match j
    case JNum(n) => Ok(n)
    case JBool(b) => Ok(if b then 1 else 0)
    case JStr(s) =>
      if IsDecimal(s) then Ok(DigitsValue(s))
      else Err("invalid literal for int() with base 10: '" + s + "'")
    case _ => Err("int() argument must be a string, a bytes-like object or a real number, not '" + PyType(j) + "'")
  }

  /** The digits of a natural number read back give the number. */
  lemma {:induction false} DigitsValueOfNat(n: nat)
    ensures IsDecimal(NatToString(n)) && DigitsValue(NatToString(n)) == n
    decreases n
  {
    var s := NatToString(n);
    var d := "0123456789"[n % 10];
    assert d as int - '0' as int == n % 10;
    if n >= 10 {
      DigitsValueOfNat(n / 10);
      assert s[..|s| - 1] == NatToString(n / 10) && s[|s| - 1] == d;
    }
  }

  /** `int(str(n))` is `n` for a natural number. */
  lemma IntOfShow(n: nat)
    ensures IntOf(JStr(Show(JNum(n)))) == Ok(n)
  {
    DigitsValueOfNat(n);
  }

  /** The first keyword other than `a` and `b`. */
  function Unexpected(fields: seq<(string, Json)>): (r: Option<string>)
    ensures r.None? <==> forall i :: 0 <= i < |fields| ==> fields[i].0 == "a" || fields[i].0 == "b"
    ensures r.Some? ==> r.value != "a" && r.value != "b" && exists i :: 0 <= i < |fields| && fields[i].0 == r.value
  {
    if fields == [] then None
    else if fields[0].0 != "a" && fields[0].0 != "b" then Some(fields[0].0)
    else
      assert forall j :: 1 <= j < |fields| ==> fields[1..][j - 1] == fields[j];
      Unexpected(fields[1..])
  }

  /** `tool(**arguments)` for a tool with the two parameters `a` and `b`:
      the arguments must be a mapping holding both names and no other. */
  function BindAB(tool: string, arguments: Json): (r: Result<(Json, Json)>)
    ensures r.Ok? <==> arguments.JObject? && Unexpected(arguments.fields).None?
                       && Get(arguments.fields, "a").Some? && Get(arguments.fields, "b").Some?
    ensures r.Ok? ==> r.value == (Get(arguments.fields, "a").value, Get(arguments.fields, "b").value)
  {
    if !arguments.JObject? then Err(tool + "() argument after ** must be a mapping, not " + PyType(arguments))
    else
      var fields := arguments.fields;
      match Unexpected(fields)
      case Some(k) => Err(tool + "() got an unexpected keyword argument '" + k + "'")
      case None =>
        match (Get(fields, "a"), Get(fields, "b"))
        case (None, None) => Err(tool + "() missing 2 required positional arguments: 'a' and 'b'")
        case (None, _) => Err(tool + "() missing 1 required positional argument: 'a'")
        case (_, None) => Err(tool + "() missing 1 required positional argument: 'b'")
        case (Some(a), Some(b)) => Ok((a, b))
  }

  /** `x + y` on decoded values: numbers (booleans count as 0 and 1) add,
      strings and lists concatenate, and any other pair raises `TypeError`. */
  function Plus(x: Json, y: Json): (r: Result<Json>)
    ensures r.Ok? <==> ((x.JNum? || x.JBool?) && (y.JNum? || y.JBool?)) || (x.JStr? && y.JStr?) || (x.JList? && y.JList?)
    ensures x.JNum? && y.JNum? ==> r == Ok(JNum(x.n + y.n))
    ensures x.JStr? && y.JStr? ==> r == Ok(JStr(x.s + y.s))
  {
    if (x.JNum? || x.JBool?) && (y.JNum? || y.JBool?) then Ok(JNum(IntOf(x).value + IntOf(y).value))
    else if x.JStr? && y.JStr? then Ok(JStr(x.s + y.s))
    else if x.JList? && y.JList? then Ok(JList(x.items + y.items))
    else if x.JStr? || x.JList? then Err("can only concatenate " + PyType(x) + " (not \"" + PyType(y) + "\") to " + PyType(x))
    else Err("unsupported operand type(s) for +: '" + PyType(x) + "' and '" + PyType(y) + "'")
  }

  /** `get_product(a, b)`: `int(a) * int(b)`. */
  function ProductCall(arguments: Json): Outcome {
    match BindAB("get_product", arguments)
    case Err(e) => Raised(e)
    case Ok((a, b)) =>
      match (IntOf(a), IntOf(b))
      case (Err(e), _) => Raised(e)
      case (_, Err(e)) => Raised(e)
      case (Ok(x), Ok(y)) => Returned(JNum(x * y))
  }

  /** `calculate_sum(a, b)`: `a + b`. */
  function SumCall(arguments: Json): Outcome {
    match BindAB("calculate_sum", arguments)
    case Err(e) => Raised(e)
    case Ok((a, b)) =>
      match Plus(a, b)
      case Err(e) => Raised(e)
      case Ok(v) => Returned(v)
  }

  /** The arguments `a` and `b`, in that order. */
  function ArgsAB(a: Json, b: Json): Json {
    JObject([("a", a), ("b", b)])
  }

  /** On two integers the tools return their product and their sum. */
  lemma ToolsOnIntegers(m: int, n: int)
    ensures ProductCall(ArgsAB(JNum(m), JNum(n))) == Returned(JNum(m * n))
    ensures SumCall(ArgsAB(JNum(m), JNum(n))) == Returned(JNum(m + n))
  {
    var fields := ArgsAB(JNum(m), JNum(n)).fields;
    assert Get(fields, "a") == Some(JNum(m));
    assert "a"[0] != "b"[0];
    GetAt(fields, 1);
  }

  /** On two digit strings `get_product` converts and multiplies, while
      `calculate_sum` concatenates the strings. */
  lemma ToolsOnDigitStrings(m: nat, n: nat)
    ensures ProductCall(ArgsAB(JStr(Show(JNum(m))), JStr(Show(JNum(n))))) == Returned(JNum(m * n))
    ensures SumCall(ArgsAB(JStr(Show(JNum(m))), JStr(Show(JNum(n))))) == Returned(JStr(Show(JNum(m)) + Show(JNum(n))))
  {
    var fields := ArgsAB(JStr(Show(JNum(m))), JStr(Show(JNum(n)))).fields;
    assert Get(fields, "a") == Some(JStr(Show(JNum(m))));
    assert "a"[0] != "b"[0];
    GetAt(fields, 1);
    IntOfShow(m);
    IntOfShow(n);
  }

  /** The example numbers passed as strings. */
  lemma ExampleDigitStrings()
    ensures ProductCall(ArgsAB(JStr("11"), JStr("22"))) == Returned(JNum(242))
    ensures SumCall(ArgsAB(JStr("11"), JStr("22"))) == Returned(JStr("1122"))
  {
    assert Show(JNum(11)) == "11" && Show(JNum(22)) == "22" && "11" + "22" == "1122";
    ToolsOnDigitStrings(11, 22);
  }

  const GetProduct := Tool("get_product", "Computes the product of two numbers.",
                           [Param("a", IntType, false), Param("b", IntType, false)], ProductCall)
  const CalculateSum := Tool("calculate_sum", "Calculate the sum of two numbers." + "\n" + "\nArgs:\n    a: First number\n    b: Second number",
                             [Param("a", IntType, false), Param("b", IntType, false)], SumCall)

  /** The first line of a text with a line break is the text before it. */
  lemma {:induction false} FirstLineOf(head: string, rest: string)
    requires '\n' !in head
    ensures FirstLine(head + "\n" + rest) == head
  {
    var doc := head + "\n" + rest;
    if head == [] {
      assert doc[0] == '\n';
    } else {
      assert doc[0] == head[0] && doc[1..] == head[1..] + "\n" + rest;
      FirstLineOf(head[1..], rest);
    }
  }

  /** The schema of a documented tool with two integer parameters. */
  lemma CalculateSumSchema()
    ensures SchemaFor(CalculateSum) ==
      ToolSchema("calculate_sum", "Calculate the sum of two numbers.",
                 [Property("a", "integer", "Parameter a"), Property("b", "integer", "Parameter b")], ["a", "b"])
  {
    FirstLineOf("Calculate the sum of two numbers.", "\nArgs:\n    a: First number\n    b: Second number");
    assert Description(CalculateSum) == "Calculate the sum of two numbers.";
    var params := CalculateSum.params;
    assert PropertyFor(params[0]) == Property("a", "integer", "Parameter a");
    assert PropertyFor(params[1]) == Property("b", "integer", "Parameter b");
    assert Properties(params) == [Property("a", "integer", "Parameter a"), Property("b", "integer", "Parameter b")];
    assert params[..1] == [params[0]] && params[..1][..0] == [];
    assert RequiredNames(params[..1]) == ["a"];
    assert params[..|params| - 1] == params[..1];
    assert RequiredNames(params) == ["a", "b"];
  }

  const ExampleArgs := JObject([("a", JNum(11)), ("b", JNum(22))])

  function ExampleCall(name: string): Json {
    JObject([("function", JObject([("name", JStr(name)), ("arguments", ExampleArgs)]))])
  }

  const ExampleRecords := [ToolCallRecord(JStr("calculate_sum"), ExampleArgs, JNum(33)),
                           ToolCallRecord(JStr("get_product"), ExampleArgs, JNum(242))]

  /** Both example tools run on the arguments the model gave. */
  lemma ExampleCallRecords()
    ensures CallRecords([GetProduct, CalculateSum], [ExampleCall("calculate_sum"), ExampleCall("get_product")]) == Ok(ExampleRecords)
  {
    var tools := [GetProduct, CalculateSum];
    var calls := [ExampleCall("calculate_sum"), ExampleCall("get_product")];
    assert tools[1..] == [CalculateSum];
    assert Dispatch(tools, JStr("calculate_sum"), ExampleArgs) == JNum(33);
    assert Dispatch(tools, JStr("get_product"), ExampleArgs) == JNum(242);
    assert CallRecord(tools, calls[0]) == Ok(ExampleRecords[0]);
    assert CallRecord(tools, calls[1]) == Ok(ExampleRecords[1]);
    CallRecordsAt(tools, calls);
    assert CallRecords(tools, calls).value == ExampleRecords;
  }

  /** A response asking for both example tools yields both results, in the
      order asked. */
  lemma ExampleInvocation(decode: string -> Result<Json>)
    ensures
      var calls := [ExampleCall("calculate_sum"), ExampleCall("get_product")];
      var body := JObject([("message", JObject([("content", JStr("")), ("tool_calls", JList(calls))]))]);
      Assemble(Ok(body), [GetProduct, CalculateSum], None, decode) == InvokeResult(None, JStr(""), ExampleRecords, JNull)
  {
    var calls := [ExampleCall("calculate_sum"), ExampleCall("get_product")];
    var message := JObject([("content", JStr("")), ("tool_calls", JList(calls))]);
    var body := JObject([("message", message)]);
    assert Field(body, "message") == Ok(message);
    assert Field(message, "content") == Ok(JStr(""));
    assert "content"[0] != "tool_calls"[0];
    GetAt(message.fields, 1);
    assert CallsOf(message) == Ok(calls);
    ExampleCallRecords();
  }

  /** The agent of the usage example: the two example tools, no output
      schema, the local endpoint and no proxies. */
  method ExampleAgent() returns (agent: OllamaAgent)
    ensures agent.modelName == "llama3.2:1b" && agent.outputSchema.None?
    ensures agent.endpoint == "http://localhost:11434/api/chat" && agent.proxies == [("http", ""), ("https", "")]
    ensures |agent.toolSchemas| == 2 && agent.toolSchemas[1] ==
      ToolSchema("calculate_sum", "Calculate the sum of two numbers.",
                 [Property("a", "integer", "Parameter a"), Property("b", "integer", "Parameter b")], ["a", "b"])
  {
    agent := new OllamaAgent("llama3.2:1b", [GetProduct, CalculateSum]);
    CalculateSumSchema();
  }

  /** With two tools of the same name, the first registered one runs. */
  lemma DuplicateNameFirstWins()
    ensures
      var impostor := Tool("get_product", "", [], SumCall);
      Dispatch([GetProduct, impostor], JStr("get_product"), JObject([("a", JNum(2)), ("b", JNum(3))])) == JNum(6)
  {
  }
}
