/**
 * The stdio MCP math client `MCPMathClient`: its tool cache `available_tools`,
 * `call_tool` with result extraction, the seven operation wrappers and the
 * command loop of `interactive_mode`.
 *
 * The MCP server behind the session is an oracle: `listing` is what its
 * `list_tools` returns, `server` what its `call_tool` returns (or the text of
 * what it raises). `decode` stands for `json.loads` (None when it raises
 * JSONDecodeError), `asFloat` for `float()` on a command token.
 */
module McpClient {
  import opened Results
  import opened PyValue
  import opened McpTypes
  import Maths

  // ---------------------------------------------------------------------
  // The tool cache

  /** `available_tools`: a dict from tool name to tool; `order` is its key order. */
  datatype ToolTable = ToolTable(order: seq<string>, byName: map<string, Tool>)

  const EmptyTable := ToolTable([], map[])

  /** Keys listed once each, and exactly the keys of the dict. */
  predicate WellFormed(t: ToolTable) {
    && (forall i, j :: 0 <= i < j < |t.order| ==> t.order[i] != t.order[j])
    && t.byName.Keys == set n | n in t.order
  }

  /** `d[tool.name] = tool`: a new key goes last, an existing key keeps its place. */
  function Insert(t: ToolTable, tool: Tool): ToolTable {
    if tool.name in t.byName then ToolTable(t.order, t.byName[tool.name := tool])
    else ToolTable(t.order + [tool.name], t.byName[tool.name := tool])
  }

  /** `{tool.name: tool for tool in tools}` */
  function Index(tools: seq<Tool>): (t: ToolTable)
    ensures forall n :: n in t.byName ==> t.byName[n].name == n
    ensures |t.order| <= |tools|
    decreases |tools|
  {
    if tools == [] then EmptyTable else Insert(Index(tools[..|tools| - 1]), tools[|tools| - 1])
  }

  function Names(tools: seq<Tool>): seq<string> {
    seq(|tools|, i requires 0 <= i < |tools| => tools[i].name)
  }

  lemma InsertSpec(t: ToolTable, tool: Tool)
    requires WellFormed(t)
    ensures WellFormed(Insert(t, tool))
    ensures Insert(t, tool).byName.Keys == t.byName.Keys + {tool.name}
    ensures Insert(t, tool).byName[tool.name] == tool
    ensures forall n :: n in t.byName && n != tool.name ==> Insert(t, tool).byName[n] == t.byName[n]
    ensures Insert(t, tool).order == if tool.name in t.byName then t.order else t.order + [tool.name]
  {
    var u := Insert(t, tool);
    assert u.byName.Keys == set n | n in u.order;
  }

  /** The names of the listed tools, as a set. */
  function NameSet(tools: seq<Tool>): set<string> {
    set i | 0 <= i < |tools| :: tools[i].name
  }

  predicate DistinctNames(tools: seq<Tool>) {
    forall i, j :: 0 <= i < j < |tools| ==> tools[i].name != tools[j].name
  }

  lemma NameSetSnoc(tools: seq<Tool>)
    requires tools != []
    ensures NameSet(tools) == NameSet(tools[..|tools| - 1]) + {tools[|tools| - 1].name}
  {
    var init := tools[..|tools| - 1];
    forall x | x in NameSet(tools) ensures x in NameSet(init) + {tools[|tools| - 1].name} {
      var i :| 0 <= i < |tools| && tools[i].name == x;
      if i < |init| { assert init[i].name == x; }
    }
    forall x | x in NameSet(init) ensures x in NameSet(tools) {
      var i :| 0 <= i < |init| && init[i].name == x;
      assert tools[i].name == x;
    }
  }

  /** The dict comprehension's keys are exactly the listed names, each listed once. */
  lemma {:induction false} IndexKeys(tools: seq<Tool>)
    ensures WellFormed(Index(tools))
    ensures Index(tools).byName.Keys == NameSet(tools)
    decreases |tools|
  {
    if tools != [] {
      var init := tools[..|tools| - 1];
      IndexKeys(init);
      InsertSpec(Index(init), tools[|tools| - 1]);
      NameSetSnoc(tools);
    }
  }

  /** A name maps to the last tool listed under it (a later duplicate overwrites). */
  lemma {:induction false} IndexLastWins(tools: seq<Tool>, i: nat)
    requires i < |tools|
    requires forall j :: i < j < |tools| ==> tools[j].name != tools[i].name
    ensures tools[i].name in Index(tools).byName
    ensures Index(tools).byName[tools[i].name] == tools[i]
    decreases |tools|
  {
    var init := tools[..|tools| - 1];
    var last := tools[|tools| - 1];
    var before := Index(init).byName;
    assert Index(tools).byName == before[last.name := last];
    if i < |init| {
      assert init[i] == tools[i];
      assert forall j :: i < j < |init| ==> init[j] == tools[j];
      IndexLastWins(init, i);
      assert last.name != tools[i].name;
    }
  }

  /** With distinct names the key order is the listing order. */
  lemma {:induction false} IndexOrder(tools: seq<Tool>)
    requires DistinctNames(tools)
    ensures Index(tools).order == Names(tools)
    decreases |tools|
  {
    if tools != [] {
      var init := tools[..|tools| - 1];
      var last := tools[|tools| - 1];
      assert DistinctNames(init) by {
        forall i, j | 0 <= i < j < |init| ensures init[i].name != init[j].name {
          assert init[i] == tools[i] && init[j] == tools[j];
        }
      }
      IndexOrder(init);
      IndexKeys(init);
      assert last.name !in NameSet(init) by {
        forall i | 0 <= i < |init| ensures init[i].name != last.name {
          assert init[i] == tools[i];
        }
      }
      assert Index(tools).order == Index(init).order + [last.name];
      assert Names(tools) == Names(init) + [last.name];
    }
  }

  // ---------------------------------------------------------------------
  // Result extraction

  /** What `call_tool` hands back after extracting the tool result. */
  datatype Extracted =
    | Decoded(value: Value)            // json.loads of the first item's text
    | RawText(text: string)            // the first item's text, not JSON
    | ItemString(item: ContentItem)    // str(content) of a first item without text
    | ContentAsIs(content: Value)      // result.content itself, when it is not a list
    | ResultString(result: CallOutcome) // str(result), when there is no content

  /** Whether the result has non-empty list content (the branch that looks at the first item). */
  predicate HasItems(result: CallOutcome) {
    result.Reply? && result.content.Items? && result.content.items != []
  }

  /**
   * The extraction in `call_tool`: the first content item's text, JSON-decoded
   * when it parses; `str` of a first item without text; non-list content as it
   * is; `str(result)` when the result or its content is empty.
   */
  function ExtractResult(decode: string -> Option<Value>, result: CallOutcome): (r: Extracted)
    ensures r.Decoded? <==> HasItems(result) && result.content.items[0].TextItem?
                            && decode(result.content.items[0].text).Some?
    ensures r.Decoded? ==> decode(result.content.items[0].text) == Some(r.value)
    ensures r.RawText? <==> HasItems(result) && result.content.items[0].TextItem?
                            && decode(result.content.items[0].text).None?
    ensures r.RawText? ==> r.text == result.content.items[0].text
    ensures r.ItemString? <==> HasItems(result) && result.content.items[0].NonTextItem?
    ensures r.ItemString? ==> r.item == result.content.items[0]
    ensures r.ContentAsIs? <==> result.Reply? && result.content.NonList? && Truthy(result.content.v)
    ensures r.ContentAsIs? ==> r.content == result.content.v
    ensures r.ResultString? ==> r.result == result
  {
    match result
    case NoResult => ResultString(result)
    case Reply(content) =>
      match content
      case NoContent => ResultString(result)
      case Items(items) =>
        if items == [] then ResultString(result)
        else
          (match items[0]
           case TextItem(text) =>
             (match decode(text)
              case Some(v) => Decoded(v)
              case None => RawText(text))
           case NonTextItem(_) => ItemString(items[0]))
      case NonList(v) => if Truthy(v) then ContentAsIs(v) else ResultString(result)
  }

  /** Only the first content item matters: later items never change what is extracted. */
  lemma ExtractionIgnoresLaterItems(decode: string -> Option<Value>, first: ContentItem, rest: seq<ContentItem>)
    ensures ExtractResult(decode, Reply(Items([first] + rest))) == ExtractResult(decode, Reply(Items([first])))
  {
  }

  // ---------------------------------------------------------------------
  // The operation wrappers

  datatype Operation = Add | Subtract | Multiply | Divide | Power | SquareRoot | Factorial

  function Arity(op: Operation): nat {
    if op == SquareRoot || op == Factorial then 1 else 2
  }

  /** The tool each wrapper calls. */
  function ToolName(op: Operation): string {
    match op
    case Add => "add_numbers"
    case Subtract => "subtract_numbers"
    case Multiply => "multiply_numbers"
    case Divide => "divide_numbers"
    case Power => "power"
    case SquareRoot => "square_root"
    case Factorial => "factorial"
  }

  /** The argument keys each wrapper uses, in parameter order. */
  function ArgumentKeys(op: Operation): seq<string> {
    match op
    case Power => ["base", "exponent"]
    case SquareRoot => ["number"]
    case Factorial => ["number"]
    case _ => ["num1", "num2"]
  }

  /** The tool call a wrapper makes: its fixed tool name, each operand under its key. */
  function WrapperRequest(op: Operation, operands: seq<Value>): (req: (string, map<string, Value>))
    requires |operands| == Arity(op)
    ensures req.0 == ToolName(op)
    ensures |ArgumentKeys(op)| == |operands|
    ensures req.1.Keys == set i | 0 <= i < |operands| :: ArgumentKeys(op)[i]
    ensures forall i :: 0 <= i < |operands| ==> req.1[ArgumentKeys(op)[i]] == operands[i]
  {
    var keys := ArgumentKeys(op);
    if |operands| == 1 then
      (ToolName(op), map[keys[0] := operands[0]])
    else
      (ToolName(op), map[keys[0] := operands[0], keys[1] := operands[1]])
  }

  /**
   * The tool table learnt from `math_mcp` holds the tools of the add, subtract
   * and multiply wrappers and none of the other four.
   */
  lemma MathServerTools(op: Operation)
    ensures ToolName(op) in Index(Maths.Listing()).byName <==> op in {Add, Subtract, Multiply}
    ensures Index(Maths.Listing()).order == ["add_numbers", "subtract_numbers", "multiply_numbers"]
  {
    MathServerTable();
    match op {
      case Add =>
      case Subtract =>
      case Multiply =>
      case Divide => assert "divide_numbers"[0] !in {'a', 's', 'm'};
      case Power => assert "power"[0] !in {'a', 's', 'm'};
      case SquareRoot => assert "square_root"[1] !in {'d', 'u'};
      case Factorial => assert "factorial"[0] !in {'a', 's', 'm'};
    }
  }

  /** The cache built from `math_mcp`'s listing: its three names, keyed and ordered as registered. */
  lemma MathServerTable()
    ensures Index(Maths.Listing()).order == ["add_numbers", "subtract_numbers", "multiply_numbers"]
    ensures Index(Maths.Listing()).byName.Keys == {"add_numbers", "subtract_numbers", "multiply_numbers"}
  {
    var l := Maths.Listing();
    ListingNames();
    IndexKeys(l);
    IndexOrder(l);
  }

  /** `math_mcp` registers three distinct names. */
  lemma ListingNames()
    ensures DistinctNames(Maths.Listing())
    ensures Names(Maths.Listing()) == ["add_numbers", "subtract_numbers", "multiply_numbers"]
    ensures NameSet(Maths.Listing()) == {"add_numbers", "subtract_numbers", "multiply_numbers"}
  {
    var l := Maths.Listing();
    assert l[0].name == "add_numbers" && l[1].name == "subtract_numbers" && l[2].name == "multiply_numbers";
    assert "add_numbers"[0] == 'a' && "subtract_numbers"[0] == 's' && "multiply_numbers"[0] == 'm';
  }

  // ---------------------------------------------------------------------
  // The client object

  /** What the client sends over an MCP session. */
  datatype Request = ListToolsRequest | CallToolRequest(name: string, arguments: map<string, Value>)

  datatype ClientError =
    | ToolNotFound(name: string, available: seq<string>)  // the ValueError raised by call_tool
    | SessionError(message: string)                      // whatever the session raised

  /** The server's reply to a tool call, its result extracted as `call_tool` does it. */
  function Extract(decode: string -> Option<Value>, reply: Result<CallOutcome, string>): Result<Extracted, string> {
    match reply
    case Ok(outcome) => Ok(ExtractResult(decode, outcome))
    case Err(e) => Err(e)
  }

  /** The call `call_tool` makes once the name is known, with a session failure as the client's error. */
  function CallAndExtract(decode: string -> Option<Value>, reply: Result<CallOutcome, string>): Result<Extracted, ClientError> {
    match Extract(decode, reply)
    case Ok(v) => Ok(v)
    case Err(e) => Err(SessionError(e))
  }

  class MathClient {
    var availableTools: ToolTable
    /** Every request sent to the server, in order. */
    var sent: seq<Request>
    const decode: string -> Option<Value>

    constructor (decode: string -> Option<Value>)
      ensures availableTools == EmptyTable && sent == [] && this.decode == decode
    {
      availableTools := EmptyTable;
      sent := [];
      this.decode := decode;
    }

    /** `connect_and_discover`: list the tools and replace the cache with them. */
    method ConnectAndDiscover(listing: seq<Tool>)
      modifies this`availableTools, this`sent
      ensures availableTools == Index(listing)
      ensures sent == old(sent) + [ListToolsRequest]
    {
      sent := sent + [ListToolsRequest];
      availableTools := Index(listing);
    }

    /**
     * `call_tool`: re-list the tools only when `name` is not cached; raise
     * ValueError, without calling, when it is still not there; otherwise call
     * the tool and extract its result.
     */
    method CallTool(name: string, arguments: map<string, Value>, listing: seq<Tool>,
                    server: (string, map<string, Value>) -> Result<CallOutcome, string>)
      returns (r: Result<Extracted, ClientError>)
      modifies this`availableTools, this`sent
      ensures name in old(availableTools.byName) ==> availableTools == old(availableTools)
      ensures name !in old(availableTools.byName) ==> availableTools == Index(listing)
      ensures var relisted := if name in old(availableTools.byName) then [] else [ListToolsRequest];
              if name in availableTools.byName then
                && sent == old(sent) + relisted + [CallToolRequest(name, arguments)]
                && r == CallAndExtract(decode, server(name, arguments))
              else
                && sent == old(sent) + relisted
                && r == Err(ToolNotFound(name, availableTools.order))
    {
      if name !in availableTools.byName {
        sent := sent + [ListToolsRequest];
        availableTools := Index(listing);
      }
      if name !in availableTools.byName {
        return Err(ToolNotFound(name, availableTools.order));
      }
      sent := sent + [CallToolRequest(name, arguments)];
      r := CallAndExtract(decode, server(name, arguments));
    }

    /** The wrappers `add` … `factorial`: `call_tool` with the wrapper's fixed name and keys. */
    method Invoke(op: Operation, operands: seq<Value>, listing: seq<Tool>,
                  server: (string, map<string, Value>) -> Result<CallOutcome, string>)
      returns (r: Result<Extracted, ClientError>)
      requires |operands| == Arity(op)
      modifies this`availableTools, this`sent
      ensures var (name, arguments) := WrapperRequest(op, operands);
              && (name in old(availableTools.byName) ==> availableTools == old(availableTools))
              && (name !in old(availableTools.byName) ==> availableTools == Index(listing))
              && var relisted := if name in old(availableTools.byName) then [] else [ListToolsRequest];
                 if name in availableTools.byName then
                   && sent == old(sent) + relisted + [CallToolRequest(name, arguments)]
                   && r == CallAndExtract(decode, server(name, arguments))
                 else
                   && sent == old(sent) + relisted
                   && r == Err(ToolNotFound(name, availableTools.order))
    {
      var (name, arguments) := WrapperRequest(op, operands);
      r := CallTool(name, arguments, listing, server);
    }

    /**
     * One command of `interactive_mode` that calls a tool: convert the tokens
     * in order, stopping at the first that does not convert, then call the
     * operation's wrapper and report its result or the error it raised.
     */
    method RunOperation(op: Operation, tokens: seq<string>, listing: seq<Tool>,
                        server: (string, map<string, Value>) -> Result<CallOutcome, string>,
                        asFloat: string -> Option<int>)
      returns (out: Output)
      requires |tokens| == Arity(op)
      modifies this`availableTools, this`sent
      ensures Exchange(out, availableTools, sent) ==
                Operate(decode, old(availableTools), old(sent), op, tokens, listing, server, asFloat)
    {
      var operands: seq<Value> := [];
      var i := 0;
      while i < |tokens|
        invariant 0 <= i <= |tokens| && |operands| == i
        invariant forall k :: 0 <= k < i ==>
                    Convert(op, tokens[k], asFloat).Some? && operands[k] == Int(Convert(op, tokens[k], asFloat).value)
      {
        var n := Convert(op, tokens[i], asFloat);
        if n.None? {
          assert ConvertTokens(op, tokens, asFloat).None?;
          assert FirstUnconverted(op, tokens, asFloat) == i;
          out := BadNumber(tokens[i]);
          return;
        }
        operands := operands + [Int(n.value)];
        i := i + 1;
      }
      ghost var converted := ConvertTokens(op, tokens, asFloat);
      assert converted.Some? && operands == converted.value;
      var r := Invoke(op, operands, listing, server);
      out := Report(op, tokens, r);
    }

    /**
     * `interactive_mode`: discover the tools, then answer each input line in
     * turn until the first quit command, which is answered and ends the loop.
     */
    method InteractiveMode(lines: seq<string>, listing: seq<Tool>,
                           server: (string, map<string, Value>) -> Result<CallOutcome, string>,
                           asFloat: string -> Option<int>)
      returns (transcript: seq<Output>)
      modifies this`availableTools, this`sent
      ensures Transcript(transcript, availableTools, sent) ==
                Conversation(decode, Index(listing), old(sent) + [ListToolsRequest], Parsed(lines), listing, server, asFloat)
    {
      ConnectAndDiscover(listing);
      transcript := [];
      ghost var commands := Parsed(lines);
      ParsedWell(lines);
      ghost var whole := Conversation(decode, availableTools, sent, commands, listing, server, asFloat);
      var i := 0;
      while i < |lines|
        invariant 0 <= i <= |lines| && WellParsed(commands[i..])
        invariant var rest := Conversation(decode, availableTools, sent, commands[i..], listing, server, asFloat);
                  whole == Transcript(transcript + rest.outs, rest.table, rest.sent)
      {
        assert commands[i..][0] == ParseCommand(lines[i]) && commands[i..][1..] == commands[i + 1..];
        ghost var before := transcript;
        var out := HandleLine(lines[i], listing, server, asFloat);
        transcript := transcript + [out];
        if out == Goodbye {
          return;
        }
        ghost var rest := Conversation(decode, availableTools, sent, commands[i + 1..], listing, server, asFloat);
        assert before + ([out] + rest.outs) == transcript + rest.outs;
        i := i + 1;
      }
      assert commands[i..] == [];
      assert transcript + [] == transcript;
    }

    /** One pass of the loop body: answer one input line. */
    method HandleLine(line: string, listing: seq<Tool>,
                         server: (string, map<string, Value>) -> Result<CallOutcome, string>,
                         asFloat: string -> Option<int>)
      returns (out: Output)
      modifies this`availableTools, this`sent
      ensures Exchange(out, availableTools, sent) ==
                LineEffect(decode, old(availableTools), old(sent), ParseCommand(line), listing, server, asFloat)
    {
      match ParseCommand(line) {
        case Quit => out := Goodbye;
        case ShowTools => out := ToolList(availableTools.order);
        case TooFewTokens => out := FormatHint;
        case Unrecognised => out := InvalidHint;
        case Binary(op, x, y) => out := RunOperation(op, [x, y], listing, server, asFloat);
        case Unary(op, x) => out := RunOperation(op, [x], listing, server, asFloat);
      }
    }
  }

  // ---------------------------------------------------------------------
  // Command parsing for interactive_mode

  datatype Command =
    | Quit
    | ShowTools
    | TooFewTokens
    | Binary(op: Operation, x: string, y: string)
    | Unary(op: Operation, x: string)
    | Unrecognised

  /** What the loop prints for one line. */
  datatype Output =
    | Goodbye
    | ToolList(names: seq<string>)
    | FormatHint                                         // "Invalid command. Use format: ..."
    | InvalidHint                                        // "Invalid command or wrong number of arguments."
    | Computed(op: Operation, tokens: seq<string>, result: Extracted)
    | BadNumber(token: string)                           // ValueError from float()/int()
    | Failed(error: ClientError)                         // ValueError from call_tool
    | UnexpectedError(message: string)

  /** `input().strip().lower()` */
  function Normalize(line: string): string {
    Lower(Strip(line))
  }

  predicate IsQuitWord(s: string) {
    s == "quit" || s == "exit" || s == "q"
  }

  /** The operations that take two tokens, by keyword. */
  function BinaryKeyword(word: string): Option<Operation> {
    if word == "add" then Some(Add)
    else if word == "subtract" then Some(Subtract)
    else if word == "multiply" then Some(Multiply)
    else if word == "divide" then Some(Divide)
    else if word == "power" then Some(Power)
    else None
  }

  /** The operations that take one token, by keyword (`sqrt` and `square_root` are synonyms). */
  function UnaryKeyword(word: string): Option<Operation> {
    if word == "sqrt" || word == "square_root" then Some(SquareRoot)
    else if word == "factorial" then Some(Factorial)
    else None
  }

  /**
   * The command a line stands for: quit words and `list` as whole lines, fewer
   * than two tokens rejected, binary operations with exactly three tokens and
   * unary ones with exactly two; anything else is unrecognised.
   */
  function ParseCommand(line: string): (c: Command)
    ensures c.Binary? ==> Arity(c.op) == 2
    ensures c.Unary? ==> Arity(c.op) == 1
  {
    var n := Normalize(line);
    if IsQuitWord(n) then Quit
    else if n == "list" then ShowTools
    else
      var parts := Words(n);
      if |parts| < 2 then TooFewTokens
      else if |parts| == 3 && BinaryKeyword(parts[0]).Some? then
        Binary(BinaryKeyword(parts[0]).value, parts[1], parts[2])
      else if |parts| == 2 && UnaryKeyword(parts[0]).Some? then
        Unary(UnaryKeyword(parts[0]).value, parts[1])
      else Unrecognised
  }

  /**
   * The command a line means: the line is stripped and lower-cased; a quit
   * word or `list` must be the whole line; otherwise it is split into words,
   * and a binary keyword needs exactly three, a unary keyword exactly two.
   */
  lemma ParseCommandSpec(line: string)
    ensures var c := ParseCommand(line); var n := Normalize(line); var ws := Words(n);
      && (c == Quit <==> IsQuitWord(n))
      && (c == ShowTools <==> !IsQuitWord(n) && n == "list")
      && (c == TooFewTokens <==> !IsQuitWord(n) && n != "list" && |ws| < 2)
      && (c.Binary? ==> |ws| == 3 && BinaryKeyword(ws[0]) == Some(c.op) && c.x == ws[1] && c.y == ws[2])
      && (c.Unary? ==> |ws| == 2 && UnaryKeyword(ws[0]) == Some(c.op) && c.x == ws[1])
      && (c.Unrecognised? <==>
            (!IsQuitWord(n) && n != "list" && |ws| >= 2
             && !(|ws| == 3 && BinaryKeyword(ws[0]).Some?)
             && !(|ws| == 2 && UnaryKeyword(ws[0]).Some?)))
  {
  }

  /** `float(token)`, or `int(token)` for factorial. */
  function Convert(op: Operation, token: string, asFloat: string -> Option<int>): Option<int> {
    if op == Factorial then ParseDecimal(token) else asFloat(token)
  }

  /** The operands of a command: each token converted, or None when one does not convert. */
  function ConvertTokens(op: Operation, tokens: seq<string>, asFloat: string -> Option<int>): (r: Option<seq<Value>>)
    ensures r.Some? <==> forall k :: 0 <= k < |tokens| ==> Convert(op, tokens[k], asFloat).Some?
    ensures r.Some? ==> |r.value| == |tokens|
                        && forall k :: 0 <= k < |tokens| ==> r.value[k] == Int(Convert(op, tokens[k], asFloat).value)
    decreases |tokens|
  {
    if tokens == [] then Some([])
    else
      var init := tokens[..|tokens| - 1];
      assert forall k :: 0 <= k < |init| ==> init[k] == tokens[k];
      match ConvertTokens(op, init, asFloat)
      case None => None
      case Some(operands) =>
        match Convert(op, tokens[|tokens| - 1], asFloat)
        case None => None
        case Some(n) => Some(operands + [Int(n)])
  }

  /** What the loop prints for an operation's outcome: the result, the not-found error, or any other error. */
  function Report(op: Operation, tokens: seq<string>, r: Result<Extracted, ClientError>): Output {
    match r
    case Ok(v) => Computed(op, tokens, v)
    case Err(ToolNotFound(n, a)) => Failed(ToolNotFound(n, a))
    case Err(SessionError(e)) => UnexpectedError(e)
  }

  /** What running an operation may print: its result, or one of the errors the loop catches. */
  predicate OperationAnswer(op: Operation, tokens: seq<string>, out: Output) {
    || (out.Computed? && out.op == op && out.tokens == tokens)
    || (out.BadNumber? && out.token in tokens)
    || (out.Failed? && out.error.ToolNotFound? && out.error.name == ToolName(op))
    || out.UnexpectedError?
  }

  /** What the loop prints for a command other than quit. */
  predicate Answers(command: Command, out: Output) {
    match command
    case Quit => out == Goodbye
    case ShowTools => out.ToolList?
    case TooFewTokens => out == FormatHint
    case Unrecognised => out == InvalidHint
    case Binary(op, x, y) => OperationAnswer(op, [x, y], out)
    case Unary(op, x) => OperationAnswer(op, [x], out)
  }

  // ---------------------------------------------------------------------
  // What a line, and a whole session, does to the client

  /** The outcome of one line: what is printed, the tool cache after it, and every request sent so far. */
  datatype Exchange = Exchange(out: Output, table: ToolTable, sent: seq<Request>)

  /** The position of the first token that does not convert. */
  function FirstUnconverted(op: Operation, tokens: seq<string>, asFloat: string -> Option<int>): (k: nat)
    requires ConvertTokens(op, tokens, asFloat).None?
    ensures k < |tokens| && Convert(op, tokens[k], asFloat).None?
    ensures forall j :: 0 <= j < k ==> Convert(op, tokens[j], asFloat).Some?
    decreases |tokens|
  {
    var init := tokens[..|tokens| - 1];
    assert forall j :: 0 <= j < |init| ==> init[j] == tokens[j];
    if ConvertTokens(op, init, asFloat).None? then FirstUnconverted(op, init, asFloat) else |tokens| - 1
  }

  /**
   * An operation command run from the cache `table`, after the requests
   * `sent`: the tokens are converted in order; then the wrapper's `call_tool`
   * re-lists the tools on a cache miss and calls the tool only when it is known.
   */
  function Operate(decode: string -> Option<Value>, table: ToolTable, sent: seq<Request>,
                   op: Operation, tokens: seq<string>, listing: seq<Tool>,
                   server: (string, map<string, Value>) -> Result<CallOutcome, string>,
                   asFloat: string -> Option<int>): Exchange
    requires |tokens| == Arity(op)
  {
    match ConvertTokens(op, tokens, asFloat)
    case None => Exchange(BadNumber(tokens[FirstUnconverted(op, tokens, asFloat)]), table, sent)
    case Some(operands) =>
      var (name, arguments) := WrapperRequest(op, operands);
      var cache := if name in table.byName then table else Index(listing);
      var asked := if name in table.byName then sent else sent + [ListToolsRequest];
      if name in cache.byName then
        Exchange(Report(op, tokens, CallAndExtract(decode, server(name, arguments))),
                 cache, asked + [CallToolRequest(name, arguments)])
      else
        Exchange(Report(op, tokens, Err(ToolNotFound(name, cache.order))), cache, asked)
  }

  /**
   * What an operation command prints is its result or one of the errors the
   * loop catches; when a token does not convert, the first such token is
   * reported before anything is sent.
   */
  lemma OperateSpec(decode: string -> Option<Value>, table: ToolTable, sent: seq<Request>,
                    op: Operation, tokens: seq<string>, listing: seq<Tool>,
                    server: (string, map<string, Value>) -> Result<CallOutcome, string>,
                    asFloat: string -> Option<int>)
    requires |tokens| == Arity(op)
    ensures var e := Operate(decode, table, sent, op, tokens, listing, server, asFloat);
      && OperationAnswer(op, tokens, e.out)
      && (ConvertTokens(op, tokens, asFloat).None? ==>
            && e.table == table && e.sent == sent
            && exists k :: 0 <= k < |tokens| && e.out == BadNumber(tokens[k]) && Convert(op, tokens[k], asFloat).None?
                           && forall j :: 0 <= j < k ==> Convert(op, tokens[j], asFloat).Some?)
  {
    var e := Operate(decode, table, sent, op, tokens, listing, server, asFloat);
    match ConvertTokens(op, tokens, asFloat) {
      case None =>
        var k := FirstUnconverted(op, tokens, asFloat);
        assert e.out == BadNumber(tokens[k]);
      case Some(operands) =>
        CallOutcomes(decode, table, sent, op, tokens, operands, listing, server, asFloat);
    }
  }

  /**
   * Once every token converts, the tools are re-listed only on a cache miss,
   * the tool is called once and only when it is known, a missing tool is
   * reported as not found, and a result is the extracted reply.
   */
  lemma OperateCalls(decode: string -> Option<Value>, table: ToolTable, sent: seq<Request>,
                     op: Operation, tokens: seq<string>, listing: seq<Tool>,
                     server: (string, map<string, Value>) -> Result<CallOutcome, string>,
                     asFloat: string -> Option<int>)
    requires |tokens| == Arity(op) && ConvertTokens(op, tokens, asFloat).Some?
    ensures var e := Operate(decode, table, sent, op, tokens, listing, server, asFloat);
      var (name, arguments) := WrapperRequest(op, ConvertTokens(op, tokens, asFloat).value);
      && e.table == (if name in table.byName then table else Index(listing))
      && e.sent == sent + (if name in table.byName then [] else [ListToolsRequest])
                        + (if name in e.table.byName then [CallToolRequest(name, arguments)] else [])
      && (e.out.Failed? <==> name !in e.table.byName)
      && (e.out.Computed? <==> name in e.table.byName && server(name, arguments).Ok?)
      && (e.out.Computed? ==> e.out.result == ExtractResult(decode, server(name, arguments).value))
  {
    CallOutcomes(decode, table, sent, op, tokens, ConvertTokens(op, tokens, asFloat).value, listing, server, asFloat);
  }

  /** The three answers a converted operation can get, and what each one sends. */
  lemma CallOutcomes(decode: string -> Option<Value>, table: ToolTable, sent: seq<Request>,
                     op: Operation, tokens: seq<string>, operands: seq<Value>, listing: seq<Tool>,
                     server: (string, map<string, Value>) -> Result<CallOutcome, string>,
                     asFloat: string -> Option<int>)
    requires |tokens| == Arity(op) && ConvertTokens(op, tokens, asFloat) == Some(operands)
    ensures var e := Operate(decode, table, sent, op, tokens, listing, server, asFloat);
      var (name, arguments) := WrapperRequest(op, operands);
      var cache := if name in table.byName then table else Index(listing);
      var asked := if name in table.byName then sent else sent + [ListToolsRequest];
      && e.table == cache
      && (name !in cache.byName ==> e.sent == asked && e.out == Failed(ToolNotFound(ToolName(op), cache.order)))
      && (name in cache.byName ==>
            && e.sent == asked + [CallToolRequest(name, arguments)]
            && (server(name, arguments).Ok? ==> e.out == Computed(op, tokens, ExtractResult(decode, server(name, arguments).value)))
            && (server(name, arguments).Err? ==> e.out == UnexpectedError(server(name, arguments).error)))
  {
  }

  /** What one parsed input line does, from the cache `table` after the requests `sent`. */
  function LineEffect(decode: string -> Option<Value>, table: ToolTable, sent: seq<Request>, command: Command,
                      listing: seq<Tool>, server: (string, map<string, Value>) -> Result<CallOutcome, string>,
                      asFloat: string -> Option<int>): Exchange
    requires command.Binary? ==> Arity(command.op) == 2
    requires command.Unary? ==> Arity(command.op) == 1
  {
    match command
    case Quit => Exchange(Goodbye, table, sent)
    case ShowTools => Exchange(ToolList(table.order), table, sent)
    case TooFewTokens => Exchange(FormatHint, table, sent)
    case Unrecognised => Exchange(InvalidHint, table, sent)
    case Binary(op, x, y) => Operate(decode, table, sent, op, [x, y], listing, server, asFloat)
    case Unary(op, x) => Operate(decode, table, sent, op, [x], listing, server, asFloat)
  }

  /**
   * Each command is answered as it requires; "Goodbye!" answers exactly a
   * quit command; `list` shows the cached keys; and only an operation command
   * can change the cache or send anything.
   */
  lemma LineEffectSpec(decode: string -> Option<Value>, table: ToolTable, sent: seq<Request>, command: Command,
                       listing: seq<Tool>, server: (string, map<string, Value>) -> Result<CallOutcome, string>,
                       asFloat: string -> Option<int>)
    requires command.Binary? ==> Arity(command.op) == 2
    requires command.Unary? ==> Arity(command.op) == 1
    ensures var e := LineEffect(decode, table, sent, command, listing, server, asFloat);
      && Answers(command, e.out)
      && (e.out == Goodbye <==> command == Quit)
      && (e.out.ToolList? ==> e.out.names == table.order)
      && (!(command.Binary? || command.Unary?) ==> e.table == table && e.sent == sent)
  {
    match command {
      case Binary(op, x, y) => OperateSpec(decode, table, sent, op, [x, y], listing, server, asFloat);
      case Unary(op, x) => OperateSpec(decode, table, sent, op, [x], listing, server, asFloat);
      case _ =>
    }
  }

  /** A session: the answers printed, and the cache and requests after the last line read. */
  datatype Transcript = Transcript(outs: seq<Output>, table: ToolTable, sent: seq<Request>)

  /** `interactive_mode`'s loop over the parsed lines, answering each in turn up to and including the first quit. */
  function Conversation(decode: string -> Option<Value>, table: ToolTable, sent: seq<Request>, commands: seq<Command>,
                        listing: seq<Tool>, server: (string, map<string, Value>) -> Result<CallOutcome, string>,
                        asFloat: string -> Option<int>): Transcript
    requires WellParsed(commands)
    decreases |commands|
  {
    if commands == [] then Transcript([], table, sent)
    else
      assert forall k :: 0 <= k < |commands| - 1 ==> commands[1..][k] == commands[k + 1];
      var e := LineEffect(decode, table, sent, commands[0], listing, server, asFloat);
      if e.out == Goodbye then Transcript([Goodbye], e.table, e.sent)
      else
        var rest := Conversation(decode, e.table, e.sent, commands[1..], listing, server, asFloat);
        Transcript([e.out] + rest.outs, rest.table, rest.sent)
  }

  /** The commands the input lines mean, line by line. */
  function Parsed(lines: seq<string>): (commands: seq<Command>)
    ensures |commands| == |lines|
    ensures forall k :: 0 <= k < |lines| ==> commands[k] == ParseCommand(lines[k])
  {
    seq(|lines|, k requires 0 <= k < |lines| => ParseCommand(lines[k]))
  }

  /** Commands as `ParseCommand` yields them: each operation carries as many operands as it takes. */
  predicate WellParsed(commands: seq<Command>) {
    forall k :: 0 <= k < |commands| ==>
      (commands[k].Binary? ==> Arity(commands[k].op) == 2) && (commands[k].Unary? ==> Arity(commands[k].op) == 1)
  }

  /** The commands of any input are well parsed. */
  lemma ParsedWell(lines: seq<string>)
    ensures WellParsed(Parsed(lines))
  {
    var commands := Parsed(lines);
    forall k | 0 <= k < |commands|
      ensures (commands[k].Binary? ==> Arity(commands[k].op) == 2) && (commands[k].Unary? ==> Arity(commands[k].op) == 1)
    {
      var c := ParseCommand(lines[k]);
      assert commands[k] == c;
    }
  }

  /** The k-th answer of a session answers the k-th command. */
  lemma {:induction false} ConversationAnswers(decode: string -> Option<Value>, table: ToolTable, sent: seq<Request>,
                                               commands: seq<Command>, listing: seq<Tool>,
                                               server: (string, map<string, Value>) -> Result<CallOutcome, string>,
                                               asFloat: string -> Option<int>)
    requires WellParsed(commands)
    ensures var outs := Conversation(decode, table, sent, commands, listing, server, asFloat).outs;
      && |outs| <= |commands|
      && forall k :: 0 <= k < |outs| ==> Answers(commands[k], outs[k])
    decreases |commands|
  {
    if commands != [] {
      var e := LineEffect(decode, table, sent, commands[0], listing, server, asFloat);
      LineEffectSpec(decode, table, sent, commands[0], listing, server, asFloat);
      if e.out != Goodbye {
        var tail := commands[1..];
        assert forall k :: 0 <= k < |tail| ==> tail[k] == commands[k + 1];
        ConversationAnswers(decode, e.table, e.sent, tail, listing, server, asFloat);
        var rest := Conversation(decode, e.table, e.sent, tail, listing, server, asFloat).outs;
        var outs := [e.out] + rest;
        assert Conversation(decode, table, sent, commands, listing, server, asFloat).outs == outs;
        forall k | 0 < k < |outs| ensures Answers(commands[k], outs[k]) {
          assert outs[k] == rest[k - 1] && commands[k] == tail[k - 1];
        }
      }
    }
  }

  /**
   * No answer of a session before the last is "Goodbye!", and the session
   * reads every line unless it stops at a quit.
   */
  lemma {:induction false} ConversationStops(decode: string -> Option<Value>, table: ToolTable, sent: seq<Request>,
                                             commands: seq<Command>, listing: seq<Tool>,
                                             server: (string, map<string, Value>) -> Result<CallOutcome, string>,
                                             asFloat: string -> Option<int>)
    requires WellParsed(commands)
    ensures var outs := Conversation(decode, table, sent, commands, listing, server, asFloat).outs;
      && (forall k :: 0 <= k < |outs| - 1 ==> outs[k] != Goodbye)
      && (|outs| == |commands| || (outs != [] && outs[|outs| - 1] == Goodbye))
    decreases |commands|
  {
    if commands != [] {
      var e := LineEffect(decode, table, sent, commands[0], listing, server, asFloat);
      if e.out != Goodbye {
        assert forall k :: 0 <= k < |commands| - 1 ==> commands[1..][k] == commands[k + 1];
        ConversationStops(decode, e.table, e.sent, commands[1..], listing, server, asFloat);
        var rest := Conversation(decode, e.table, e.sent, commands[1..], listing, server, asFloat).outs;
        var outs := [e.out] + rest;
        assert Conversation(decode, table, sent, commands, listing, server, asFloat).outs == outs;
        assert forall k :: 0 < k < |outs| ==> outs[k] == rest[k - 1];
      }
    }
  }

  /**
   * Against `math_mcp`, the divide, power, square root and factorial wrappers
   * always fail with "not found": the fresh client learns the math server's
   * tools, and none of them is among them.
   */
  method UnregisteredAgainstMathServer(op: Operation, operands: seq<Value>, decode: string -> Option<Value>,
                                       server: (string, map<string, Value>) -> Result<CallOutcome, string>)
    returns (r: Result<Extracted, ClientError>)
    requires op in {Divide, Power, SquareRoot, Factorial}
    requires |operands| == Arity(op)
    ensures r == Err(ToolNotFound(ToolName(op), ["add_numbers", "subtract_numbers", "multiply_numbers"]))
  {
    var client := new MathClient(decode);
    client.ConnectAndDiscover(Maths.Listing());
    MathServerTools(op);
    r := client.Invoke(op, operands, Maths.Listing(), server);
  }
}
