/**
 * The LLM-driven math client `LLMMathClient`: the function-calling schema it
 * offers the model, its `call_tool`, and the message-building loop of
 * `process_natural_language`.
 *
 * The chat model is an oracle `complete(messages, tools)` (tools `None` for
 * the follow-up request, which offers none); the MCP server is an oracle
 * `server(name, arguments)`; `decode` stands for `json.loads`.
 */
module LlmClient {
  import opened Results
  import opened PyValue
  import opened McpTypes
  import Maths
  import McpClient

  // ---------------------------------------------------------------------
  // The fixed function-calling schemas

  datatype Property = Property(name: string, typ: string, description: string)

  /** One entry of the `schemas` table: name, description, parameters and their required list. */
  datatype FunctionSchema = FunctionSchema(name: string, description: string,
                                           properties: seq<Property>, required: seq<string>)

  /** `{"type": "function", "function": schema}` */
  datatype ToolSpec = ToolSpec(kind: string, schema: FunctionSchema)

  function PropertyNames(ps: seq<Property>): seq<string> {
    seq(|ps|, i requires 0 <= i < |ps| => ps[i].name)
  }

  /** A schema whose parameters are all required. */
  function AllRequired(name: string, description: string, properties: seq<Property>): FunctionSchema {
    FunctionSchema(name, description, properties, PropertyNames(properties))
  }

  /** The wrapper whose tool a key of the `schemas` table names. */
  function Keyed(name: string): (op: Option<McpClient.Operation>)
    ensures op.Some? ==> McpClient.ToolName(op.value) == name
  {
    if name == "add_numbers" then Some(McpClient.Add)
    else if name == "subtract_numbers" then Some(McpClient.Subtract)
    else if name == "multiply_numbers" then Some(McpClient.Multiply)
    else if name == "divide_numbers" then Some(McpClient.Divide)
    else if name == "power" then Some(McpClient.Power)
    else if name == "square_root" then Some(McpClient.SquareRoot)
    else if name == "factorial" then Some(McpClient.Factorial)
    else None
  }

  /** The description the table gives each wrapper's tool. */
  function Description(op: McpClient.Operation): string {
    match op
    case Add => "Add two numbers together"
    case Subtract => "Subtract the second number from the first"
    case Multiply => "Multiply two numbers"
    case Divide => "Divide the first number by the second"
    case Power => "Raise base to the power of exponent"
    case SquareRoot => "Calculate the square root of a number"
    case Factorial => "Calculate the factorial of a non-negative integer"
  }

  /** The parameters the table lists for each wrapper's tool. */
  function Parameters(op: McpClient.Operation): seq<Property> {
    match op
    case Add => [Property("num1", "number", "First number"), Property("num2", "number", "Second number")]
    case Subtract =>
      [Property("num1", "number", "Number to subtract from"), Property("num2", "number", "Number to subtract")]
    case Multiply => [Property("num1", "number", "First number"), Property("num2", "number", "Second number")]
    case Divide =>
      [Property("num1", "number", "Number to divide (numerator)"),
       Property("num2", "number", "Number to divide by (denominator)")]
    case Power => [Property("base", "number", "Base number"), Property("exponent", "number", "Exponent")]
    case SquareRoot => [Property("number", "number", "Number to find square root of")]
    case Factorial => [Property("number", "integer", "Non-negative integer to calculate factorial of")]
  }

  /** The schema the table holds for a wrapper's tool: every listed parameter is required. */
  function SchemaOf(op: McpClient.Operation): FunctionSchema {
    AllRequired(McpClient.ToolName(op), Description(op), Parameters(op))
  }

  /** The `schemas` table of `get_tools_schema`, by key. */
  function SchemaFor(name: string): Option<FunctionSchema> {
    match Keyed(name)
    case Some(op) => Some(SchemaOf(op))
    case None => None
  }

  /** Every wrapper's tool name is a key of the table, holding that wrapper's schema. */
  lemma KeyedToolName(op: McpClient.Operation)
    ensures Keyed(McpClient.ToolName(op)) == Some(op)
    ensures SchemaFor(McpClient.ToolName(op)) == Some(SchemaOf(op))
  {
    match op {
      case Add =>
      case Subtract =>
      case Multiply =>
      case Divide =>
      case Power =>
      case SquareRoot =>
      case Factorial =>
    }
  }

  /** The table covers exactly the tools of the seven wrappers. */
  lemma FixedSchemaNames(name: string)
    ensures SchemaFor(name).Some? <==> exists op :: McpClient.ToolName(op) == name
  {
    if op :| McpClient.ToolName(op) == name {
      KeyedToolName(op);
    }
  }

  /**
   * Each wrapper's schema carries its tool name, lists exactly the wrapper's
   * argument keys in order, requires all of them, and types them `number`,
   * except factorial's `integer`.
   */
  lemma SchemaOfOperation(op: McpClient.Operation)
    ensures var s := SchemaOf(op);
      && s.name == McpClient.ToolName(op)
      && PropertyNames(s.properties) == McpClient.ArgumentKeys(op)
      && s.required == McpClient.ArgumentKeys(op)
      && (forall k :: 0 <= k < |s.properties| ==>
            s.properties[k].typ == (if op == McpClient.Factorial then "integer" else "number"))
  {
    var ps := Parameters(op);
    match op {
      case Add => assert PropertyNames(ps) == ["num1", "num2"];
      case Subtract => assert PropertyNames(ps) == ["num1", "num2"];
      case Multiply => assert PropertyNames(ps) == ["num1", "num2"];
      case Divide => assert PropertyNames(ps) == ["num1", "num2"];
      case Power => assert PropertyNames(ps) == ["base", "exponent"];
      case SquareRoot => assert PropertyNames(ps) == ["number"];
      case Factorial => assert PropertyNames(ps) == ["number"];
    }
  }

  /** A schema table: the schema, if any, that a tool name is offered under. */
  type SchemaTable = string -> Option<FunctionSchema>

  /** A table that files every schema under the schema's own name. */
  ghost predicate NamesMatch(table: SchemaTable) {
    forall n :: table(n).Some? ==> table(n).value.name == n
  }

  /** The `schemas` table of `get_tools_schema` files each schema under its own name. */
  lemma SchemaNamed()
    ensures NamesMatch(SchemaFor)
  {
    forall n | SchemaFor(n).Some?
      ensures SchemaFor(n).value.name == n
    {
      KeyedToolName(Keyed(n).value);
      SchemaOfOperation(Keyed(n).value);
    }
  }

  /** What `get_tools_schema` returns from `table` for tool names discovered in `order`. */
  function Offered(table: SchemaTable, order: seq<string>): (offered: seq<ToolSpec>)
    ensures forall k :: 0 <= k < |offered| ==> offered[k].kind == "function"
    decreases |order|
  {
    if order == [] then []
    else Offered(table, order[..|order| - 1]) + Entry(table, order[|order| - 1])
  }

  /** The entry a discovered name contributes: its schema as a function tool, or nothing. */
  function Entry(table: SchemaTable, name: string): (r: seq<ToolSpec>)
    ensures r == [] <==> table(name).None?
    ensures r != [] ==> r == [ToolSpec("function", table(name).value)]
  {
    match table(name)
    case Some(s) => [ToolSpec("function", s)]
    case None => []
  }

  /** An entry as `get_tools_schema` emits it: a function tool carrying the table's schema for its name. */
  predicate Emitted(table: SchemaTable, e: ToolSpec) {
    e.kind == "function" && table(e.schema.name) == Some(e.schema)
  }

  /** At most one entry per discovered name. */
  lemma {:induction false} OfferedLength(table: SchemaTable, order: seq<string>)
    ensures |Offered(table, order)| <= |order|
    decreases |order|
  {
    if order != [] {
      OfferedLength(table, order[..|order| - 1]);
    }
  }

  /** Every entry is a function tool with the table's schema, unchanged, for a discovered name. */
  lemma {:induction false} OfferedSound(table: SchemaTable, order: seq<string>)
    requires NamesMatch(table)
    ensures forall k :: 0 <= k < |Offered(table, order)| ==>
              Emitted(table, Offered(table, order)[k]) && Offered(table, order)[k].schema.name in order
    decreases |order|
  {
    if order != [] {
      var init := order[..|order| - 1];
      var last := order[|order| - 1];
      OfferedSound(table, init);
      var before := Offered(table, init);
      var added := Entry(table, last);
      var all := Offered(table, order);
      assert all == before + added;
      forall k | 0 <= k < |all|
        ensures Emitted(table, all[k]) && all[k].schema.name in order
      {
        if k < |before| {
          assert all[k] == before[k];
          assert before[k].schema.name in init;
        } else {
          assert all[k] == added[0] == ToolSpec("function", table(last).value);
        }
      }
    }
  }

  /** Every discovered name with a schema gets its entry; names without one are dropped. */
  lemma {:induction false} OfferedComplete(table: SchemaTable, order: seq<string>)
    ensures forall k :: 0 <= k < |order| && table(order[k]).Some? ==>
              ToolSpec("function", table(order[k]).value) in Offered(table, order)
    decreases |order|
  {
    if order != [] {
      var init := order[..|order| - 1];
      var last := order[|order| - 1];
      OfferedComplete(table, init);
      var before := Offered(table, init);
      var all := Offered(table, order);
      assert all == before + Entry(table, last);
      forall k | 0 <= k < |order| && table(order[k]).Some?
        ensures ToolSpec("function", table(order[k]).value) in all
      {
        if k < |init| {
          assert init[k] == order[k];
          assert ToolSpec("function", table(init[k]).value) in before;
        } else {
          assert all[|before|] == ToolSpec("function", table(last).value);
        }
      }
    }
  }

  /** When every discovered name has a schema, the entries follow the discovery order one to one. */
  lemma {:induction false} OfferedInOrder(table: SchemaTable, order: seq<string>)
    requires forall k :: 0 <= k < |order| ==> table(order[k]).Some?
    ensures |Offered(table, order)| == |order|
    ensures forall k :: 0 <= k < |order| ==> Offered(table, order)[k] == ToolSpec("function", table(order[k]).value)
    decreases |order|
  {
    if order != [] {
      var init := order[..|order| - 1];
      OfferedInOrder(table, init);
      var all := Offered(table, order);
      assert all == Offered(table, init) + [ToolSpec("function", table(order[|order| - 1]).value)];
      forall k | 0 <= k < |order|
        ensures all[k] == ToolSpec("function", table(order[k]).value)
      {
        if k < |init| {
          assert init[k] == order[k];
        }
      }
    }
  }

  /** The positions in `order` of the discovered names that have a schema, ascending, and all of them. */
  function KnownAt(table: SchemaTable, order: seq<string>): (at: seq<nat>)
    ensures forall j :: 0 <= j < |at| ==> at[j] < |order| && table(order[at[j]]).Some?
    ensures forall j, l :: 0 <= j < l < |at| ==> at[j] < at[l]
    ensures forall i :: 0 <= i < |order| && table(order[i]).Some? ==> i in at
    decreases |order|
  {
    if order == [] then []
    else
      var init := order[..|order| - 1];
      assert forall i :: 0 <= i < |init| ==> init[i] == order[i];
      KnownAt(table, init) + (if table(order[|order| - 1]).Some? then [|order| - 1] else [])
  }

  /**
   * With known and unknown names mixed, the entries are exactly the schemas of
   * the known names, one each, in discovery order.
   */
  lemma {:induction false} OfferedKnown(table: SchemaTable, order: seq<string>)
    ensures |Offered(table, order)| == |KnownAt(table, order)|
    ensures forall j :: 0 <= j < |KnownAt(table, order)| ==>
              Offered(table, order)[j] == ToolSpec("function", table(order[KnownAt(table, order)[j]]).value)
    decreases |order|
  {
    if order != [] {
      var init := order[..|order| - 1];
      var last := order[|order| - 1];
      OfferedKnown(table, init);
      var before := KnownAt(table, init);
      var at := KnownAt(table, order);
      var all := Offered(table, order);
      assert all == Offered(table, init) + Entry(table, last);
      forall j | 0 <= j < |at|
        ensures all[j] == ToolSpec("function", table(order[at[j]]).value)
      {
        if j < |before| {
          assert at[j] == before[j] && init[before[j]] == order[before[j]];
        }
      }
    }
  }

  /** Against `math_mcp` the model is offered exactly the add, subtract and multiply schemas, in that order. */
  lemma MathServerSchemas()
    ensures Offered(SchemaFor, McpClient.Index(Maths.Listing()).order)
            == [ToolSpec("function", SchemaOf(McpClient.Add)),
                ToolSpec("function", SchemaOf(McpClient.Subtract)),
                ToolSpec("function", SchemaOf(McpClient.Multiply))]
  {
    McpClient.MathServerTable();
    MathSchemas();
    OfferedThree(SchemaFor, ["add_numbers", "subtract_numbers", "multiply_numbers"]);
  }

  /** The schemas filed under the math server's three tool names. */
  lemma MathSchemas()
    ensures SchemaFor("add_numbers") == Some(SchemaOf(McpClient.Add))
    ensures SchemaFor("subtract_numbers") == Some(SchemaOf(McpClient.Subtract))
    ensures SchemaFor("multiply_numbers") == Some(SchemaOf(McpClient.Multiply))
  {
    KeyedToolName(McpClient.Add);
    KeyedToolName(McpClient.Subtract);
    KeyedToolName(McpClient.Multiply);
  }

  /** Three discovered names, each with a schema, are offered in order. */
  lemma OfferedThree(table: SchemaTable, order: seq<string>)
    requires |order| == 3 && table(order[0]).Some? && table(order[1]).Some? && table(order[2]).Some?
    ensures Offered(table, order) == [ToolSpec("function", table(order[0]).value),
                                      ToolSpec("function", table(order[1]).value),
                                      ToolSpec("function", table(order[2]).value)]
  {
    OfferedInOrder(table, order);
  }

  // ---------------------------------------------------------------------
  // The conversation

  /** A tool call the model asks for; `arguments` is JSON text. */
  datatype ToolCall = ToolCall(id: string, name: string, arguments: string)

  /** The content of a tool message: `str(tool_result)`, or the error text. */
  datatype ToolContent = ResultText(result: McpClient.Extracted) | ErrorText(text: string)

  datatype Message =
    | SystemMessage                                   // the fixed system prompt
    | UserMessage(text: string)
    | AssistantMessage(reply: Option<string>, toolCalls: seq<ToolCall>)
    | ToolMessage(toolCallId: string, output: ToolContent)

  /** The model's message: its text, if any, and the tool calls it requests. */
  datatype ModelReply = ModelReply(content: Option<string>, toolCalls: seq<ToolCall>)

  /** What `process_natural_language` caught, rendered as "❌ Error processing request: …". */
  datatype Failure = ModelFailed(message: string) | UndecodableArguments(arguments: string)

  /** What `process_natural_language` returns: the reply text (None when the model gave none) or the failure. */
  datatype Answer = Answered(text: Option<string>) | FailedRequest(failure: Failure)

  const Fallback := "I understand your request, but I'm not sure how to help with that specific calculation."

  /** The tool message for one call whose arguments decoded to `arguments`. */
  function ToolContentFor(call: ToolCall, reply: Result<McpClient.Extracted, string>): ToolContent {
    match reply
    case Ok(result) => ResultText(result)
    case Err(e) => ErrorText("Error executing " + call.name + ": " + e)
  }

  /**
   * The tool messages the loop appends for `calls`, in order, or the
   * arguments text of the first call whose arguments are not JSON (that
   * exception is not caught inside the loop).
   */
  function ToolMessages(calls: seq<ToolCall>, decode: string -> Option<Value>,
                        server: (string, Value) -> Result<CallOutcome, string>): (r: Result<seq<Message>, string>)
    ensures r.Ok? ==> forall k :: 0 <= k < |calls| ==> decode(calls[k].arguments).Some?
    ensures r.Err? ==> exists k :: 0 <= k < |calls| && decode(calls[k].arguments).None? && r.error == calls[k].arguments
                                   && forall j :: 0 <= j < k ==> decode(calls[j].arguments).Some?
    decreases |calls|
  {
    if calls == [] then Ok([])
    else
      var last := calls[|calls| - 1];
      assert forall j :: 0 <= j < |calls| - 1 ==> calls[..|calls| - 1][j] == calls[j];
      match ToolMessages(calls[..|calls| - 1], decode, server)
      case Err(bad) => Err(bad)
      case Ok(ms) =>
        match decode(last.arguments)
        case None => Err(last.arguments)
        case Some(arguments) =>
          Ok(ms + [ToolMessage(last.id, ToolContentFor(last, McpClient.Extract(decode, server(last.name, arguments))))])
  }

  /**
   * Exactly one tool message per tool call, in the calls' order, each carrying
   * its call's id; a failing call yields its error text and the rest still run.
   * The loop is cut short only by arguments that are not JSON.
   */
  lemma {:induction false} ToolMessagesSpec(calls: seq<ToolCall>, decode: string -> Option<Value>,
                                            server: (string, Value) -> Result<CallOutcome, string>)
    ensures ToolMessages(calls, decode, server).Ok?
            <==> forall k :: 0 <= k < |calls| ==> decode(calls[k].arguments).Some?
    ensures ToolMessages(calls, decode, server).Ok? ==>
      var ms := ToolMessages(calls, decode, server).value;
      && |ms| == |calls|
      && forall k :: 0 <= k < |calls| ==>
           var reply := server(calls[k].name, decode(calls[k].arguments).value);
           && ms[k] == ToolMessage(calls[k].id, ToolContentFor(calls[k], McpClient.Extract(decode, reply)))
           && (reply.Err? ==> ms[k].output == ErrorText("Error executing " + calls[k].name + ": " + reply.error))
    decreases |calls|
  {
    if calls != [] {
      var init := calls[..|calls| - 1];
      ToolMessagesSpec(init, decode, server);
      assert forall k :: 0 <= k < |init| ==> init[k] == calls[k];
    }
  }

  class Assistant {
    var availableTools: McpClient.ToolTable
    const decode: string -> Option<Value>

    constructor (decode: string -> Option<Value>)
      ensures availableTools == McpClient.EmptyTable && this.decode == decode
    {
      availableTools := McpClient.EmptyTable;
      this.decode := decode;
    }

    /** `connect_and_discover`: replace the cache with the listed tools. */
    method ConnectAndDiscover(listing: seq<Tool>)
      modifies this`availableTools
      ensures availableTools == McpClient.Index(listing)
    {
      availableTools := McpClient.Index(listing);
    }

    /** `get_tools_schema`: one entry per cached tool that has a schema, in cache order. */
    method GetToolsSchema() returns (schema: seq<ToolSpec>)
      ensures schema == Offered(SchemaFor, availableTools.order)
    {
      var order := availableTools.order;
      schema := [];
      for i := 0 to |order|
        invariant schema == Offered(SchemaFor, order[..i])
      {
        assert order[..i + 1][..i] == order[..i];
        assert Offered(SchemaFor, order[..i + 1]) == schema + Entry(SchemaFor, order[i]);
        var found := SchemaFor(order[i]);
        if found.Some? {
          schema := schema + [ToolSpec("function", found.value)];
        }
      }
      assert order[..|order|] == order;
    }

    /** `call_tool`: no cache check; the result is extracted as the MCP client extracts it. */
    method CallTool(name: string, arguments: Value, server: (string, Value) -> Result<CallOutcome, string>)
      returns (r: Result<McpClient.Extracted, string>)
      ensures r.Ok? <==> server(name, arguments).Ok?
      ensures r.Ok? ==> r.value == McpClient.ExtractResult(decode, server(name, arguments).value)
      ensures r.Err? ==> r.error == server(name, arguments).error
    {
      match server(name, arguments) {
        case Ok(outcome) => r := Ok(McpClient.ExtractResult(decode, outcome));
        case Err(e) => r := Err(e);
      }
    }

    /**
     * The loop over the model's tool calls: call each tool in order and
     * collect one tool message per call, until a call's arguments are not JSON.
     */
    method RunToolCalls(calls: seq<ToolCall>, server: (string, Value) -> Result<CallOutcome, string>)
      returns (r: Result<seq<Message>, string>)
      ensures r == ToolMessages(calls, decode, server)
    {
      var ms: seq<Message> := [];
      for i := 0 to |calls|
        invariant ToolMessages(calls[..i], decode, server) == Ok(ms)
      {
        assert calls[..i + 1][..i] == calls[..i];
        var arguments := decode(calls[i].arguments);
        if arguments.None? {
          ToolMessagesStaysFailed(calls, i + 1, decode, server);
          return Err(calls[i].arguments);
        }
        var result := CallTool(calls[i].name, arguments.value, server);
        ms := ms + [ToolMessage(calls[i].id, ToolContentFor(calls[i], result))];
      }
      assert calls[..|calls|] == calls;
      return Ok(ms);
    }

    /**
     * `process_natural_language`: ask the model with the tool schemas; with no
     * tool calls answer its text (or the fallback sentence); otherwise record
     * its request, append one tool message per call, and answer the model's
     * follow-up. `messages` is the conversation sent on the follow-up.
     */
    method ProcessNaturalLanguage(userInput: string,
                                  complete: (seq<Message>, Option<seq<ToolSpec>>) -> Result<ModelReply, string>,
                                  server: (string, Value) -> Result<CallOutcome, string>)
      returns (answer: Answer, messages: seq<Message>)
      ensures var initial := [SystemMessage, UserMessage(userInput)];
        match complete(initial, Some(Offered(SchemaFor, availableTools.order)))
        case Err(e) => answer == FailedRequest(ModelFailed(e))
        case Ok(reply) =>
          if reply.toolCalls == [] then
            && messages == initial
            && answer == Answered(Some(if reply.content.Some? && reply.content.value != []
                                       then reply.content.value else Fallback))
          else
            var request := initial + [AssistantMessage(reply.content, reply.toolCalls)];
            match ToolMessages(reply.toolCalls, decode, server)
            case Err(bad) => answer == FailedRequest(UndecodableArguments(bad))
            case Ok(ms) =>
              && messages == request + ms
              && answer == (match complete(messages, None)
                            case Ok(final) => Answered(final.content)
                            case Err(e) => FailedRequest(ModelFailed(e)))
    {
      var tools := GetToolsSchema();
      messages := [SystemMessage, UserMessage(userInput)];
      var first := complete(messages, Some(tools));
      if first.Err? {
        return FailedRequest(ModelFailed(first.error)), messages;
      }
      var reply := first.value;
      if reply.toolCalls == [] {
        var text := if reply.content.Some? && reply.content.value != [] then reply.content.value else Fallback;
        return Answered(Some(text)), messages;
      }
      messages := messages + [AssistantMessage(reply.content, reply.toolCalls)];
      var toolMessages := RunToolCalls(reply.toolCalls, server);
      if toolMessages.Err? {
        return FailedRequest(UndecodableArguments(toolMessages.error)), messages;
      }
      messages := messages + toolMessages.value;
      var final := complete(messages, None);
      match final {
        case Ok(m) => answer := Answered(m.content);
        case Err(e) => answer := FailedRequest(ModelFailed(e));
      }
    }
  }

  /** Once a prefix of the calls fails to decode, so do the calls as a whole, with the same arguments text. */
  lemma {:induction false} ToolMessagesStaysFailed(calls: seq<ToolCall>, n: nat, decode: string -> Option<Value>,
                                                    server: (string, Value) -> Result<CallOutcome, string>)
    requires n <= |calls|
    requires ToolMessages(calls[..n], decode, server).Err?
    ensures ToolMessages(calls, decode, server) == ToolMessages(calls[..n], decode, server)
    decreases |calls| - n
  {
    if n < |calls| {
      assert calls[..n + 1][..n] == calls[..n];
      ToolMessagesStaysFailed(calls, n + 1, decode, server);
    } else {
      assert calls[..n] == calls;
    }
  }
}
