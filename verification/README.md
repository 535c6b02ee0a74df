# MCP math clients and the authenticated add-number server, in Dafny

This project models the decision logic of a small collection of Python
scripts built around the Model Context Protocol (MCP):

- **`math_mcp`** (`maths.py`) is a FastMCP stdio server. It registers three
  integer tools: `add_numbers`, `subtract_numbers` and `multiply_numbers`.
  Module `Maths`.
- **`MCPMathClient`** (`mcp_client.py`) is a stdio client. It caches the
  server's tools in `available_tools` and re-lists them only when a name is
  missing. It extracts a value from a tool result and offers seven
  operation wrappers. Its interactive loop parses commands such as
  `add 2 3`. Module `McpClient`, class `MathClient`.
- **`LLMMathClient`** (`llm_client.py`) offers the model a function-calling
  schema for each discovered tool. It then runs the tool calls the model
  asks for, appending one tool message per call. Module `LlmClient`, class
  `Assistant`.
- **`/calculate`** (`web_client.py`) is a Flask route. It picks a wrapper by
  operation name and checks the operand count. Module `WebClient`.
- **`execute_function`** (`math_test.py`) is the dispatch table of a plain
  HTTP math server. Module `MathHandler`.
- **`AuthenticatedMCPServer`** (`test.py`) offers one tool, `add_numbers`.
  Every call is checked against an external token service first, and each
  call is logged under the current user. Its `/mcp` route maps JSON-RPC
  methods to handlers, using the error codes of section 5.1 of the JSON-RPC
  2.0 specification: -32601 for an unknown method, -32603 for an internal
  error. Module `AuthServer`, class `Server`.

## How the Python is represented

- **Values.** Python values that come out of `json.loads` are
  `PyValue.Value`.
- **Python semantics.** The pieces of Python the scripts rely on are written
  out in `PyValue`, together with the exceptions they raise:
  - truthiness and `dict.get`;
  - `+`, `*`, `len`, indexing, `int()` and `str()`;
  - `strip`, `lower` and `split`.
- **Outside services** are parameters of function type:
  - the MCP server: its tool listing, and its reply to a call;
  - the token service: its HTTP reply to a token;
  - the chat model;
  - the JSON decoder and `float()`.
- **What a script sends** is recorded in a field, so "no call is made" is a
  statement about the new state. These fields are:
  - `MathClient.sent`;
  - `Server.authRequests`;
  - `Server.activity`, the USER_ACTIVITY log.
- **Exceptions** that escape a function become the `Err` side of a `Result`,
  carrying the exception's text.

## Model

| member | source | states |
|---|---|---|
| PyValue.PyAdd | test.py:170 | `a + b` is defined exactly for two numbers, two strings or two lists. Numbers give their integer sum; strings and lists give their concatenation. Any other pair is a TypeError. |
| PyValue.PyMul | math_test.py:36 | `a * b` is defined exactly for two numbers or a sequence and a number. Two numbers give their product. A str or list times a number `n`, in either order, gives `n` copies of the sequence. |
| PyValue.RepeatLength | math_test.py:36 | A sequence repeated `n` times has `n` times its length, and is empty when `n <= 0`. |
| PyValue.PyLen | web_client.py:34 | `len` is defined exactly on str, list and dict. It gives the character count of a str, the item count of a list and the key count of a dict. |
| PyValue.PyIndex | web_client.py:35 | Indexing a list gives the item at that position. Indexing a str gives the one-character string at that position. Indexing a dict by an integer is a KeyError whose text is the key. |
| PyValue.PyInt | web_client.py:83 | `int()` of a number gives its integer value. Of a string, it succeeds exactly when the string is an ASCII decimal numeral, and the result is that numeral's value. Of None, a list or a dict, it raises. |
| PyValue.IntToDecimalRoundTrip | web_client.py:87 | `int(str(i)) == i` for every int. |
| PyValue.ParseDigits | web_client.py:83 | A non-empty digit string parses to its value under `int()`. With a leading minus sign it parses to the negated value. |
| PyValue.NatToDecimalDigits | web_client.py:87 | `str(n)` is a non-empty string of decimal digits that reads back as `n`. |
| PyValue.Strip | mcp_client.py:144 | The stripped line neither starts nor ends with whitespace. |
| PyValue.StripSpec | mcp_client.py:144 | `s.strip()` is a slice of `s` that neither starts nor ends with whitespace, and every character cut off on either side is whitespace in the sense of `str.isspace`, non-ASCII spaces included. |
| PyValue.Lower | mcp_client.py:144 | Lower-casing keeps the length and maps every character through the ASCII lower-case map. |
| PyValue.WordsAreTokens | mcp_client.py:154 | Every word that `split()` yields is non-empty and contains no whitespace. |
| PyValue.WordsOfToken | mcp_client.py:154 | A string without whitespace splits into itself alone. An empty string splits into nothing. |
| PyValue.WordsSplitAtSpace | mcp_client.py:154 | For all strings `a`, `b` and every whitespace character, `split()` of `a`, the character and `b` joined is `split()` of `a` followed by `split()` of `b`. |
| Maths.RegisteredTools | maths.py:4-19 | Exactly `add_numbers`, `subtract_numbers` and `multiply_numbers` are registered, each with two integer parameters. No divide, power, square_root or factorial tool exists. |
| Maths.AddNumbers | maths.py:6-9 | `add_numbers` returns what Python's `num1 + num2` gives on two ints. |
| Maths.SubtractNumbers | maths.py:11-14 | `subtract_numbers` returns the value to which Python adds `num2` to get back `num1`: the second operand is taken from the first. |
| Maths.MultiplyNumbers | maths.py:16-19 | `multiply_numbers` returns what Python's `num1 * num2` gives on two ints. |
| Maths.SubtractUndoesAdd | maths.py:11-14 | The second operand is taken from the first: subtracting it undoes adding it, and swapping the operands negates the result. |
| Maths.MultiplyIsRepeatedAdd | maths.py:16-19 | Multiplying by `n` is `n` successive `add_numbers` calls starting from 0. |
| McpClient.InsertSpec | mcp_client.py:40-42 | Storing a tool under its name keeps the dict well formed. It sets that key, leaves every other key alone, and appends the key only if it is new. |
| McpClient.Index | mcp_client.py:40-42 | Every tool in the dict is filed under its own name, and the dict has no more keys than tools were listed. |
| McpClient.IndexKeys | mcp_client.py:40-42 | The keys of the tool dict are exactly the listed names, each held once. |
| McpClient.IndexLastWins | mcp_client.py:40-42 | Each name maps to the last tool listed under that name. |
| McpClient.IndexOrder | mcp_client.py:40-42 | When names are distinct, the dict's key order is the listing order. |
| McpClient.ExtractResult | mcp_client.py:74-87 | The four extraction cases, each as an if-and-only-if. (1) A first item with text gives its decoded JSON, or the raw text when it does not parse. (2) A first item without text gives `str(item)`. (3) Truthy non-list content is returned as it is. (4) Otherwise the result is `str(result)`. |
| McpClient.ExtractionIgnoresLaterItems | mcp_client.py:76-77 | Only the first content item affects what is extracted. |
| McpClient.WrapperRequest | mcp_client.py:89-122 | Each wrapper calls its fixed tool name. Each operand goes under the wrapper's fixed key, in parameter order, and there are no other keys. |
| McpClient.ListingNames | maths.py:6-19 | `math_mcp` registers three distinct names: `add_numbers`, `subtract_numbers` and `multiply_numbers`, in that order. |
| McpClient.MathServerTable | mcp_client.py:40-42 | The cache built from `math_mcp`'s listing has exactly its three names as keys, in registration order. |
| McpClient.MathServerTools | mcp_client.py:104-122 | The cache learnt from `math_mcp` holds the add, subtract and multiply tools, in that order. It does not hold the divide, power, square_root or factorial tools. |
| McpClient.MathClient.constructor | mcp_client.py:30 | The tool cache starts empty. |
| McpClient.MathClient.ConnectAndDiscover | mcp_client.py:32-46 | One listing request is sent, and the cache is replaced by the dict built from the listing. |
| McpClient.MathClient.CallTool | mcp_client.py:48-87 | The tools are re-listed only when the name is not cached. If the name is still missing, the ValueError names the tool and the available keys, and no call is sent. Otherwise exactly one call is sent and its result is extracted. |
| McpClient.MathClient.Invoke | mcp_client.py:89-122 | A wrapper is `call_tool` applied to that wrapper's request: the tools are re-listed only on a cache miss, the call is sent only when the name is known, and the result or not-found error is the one `call_tool` gives. |
| McpClient.MathClient.RunOperation | mcp_client.py:159-194 | The answer, the new cache and every request sent are exactly those of `Operate`, whose meaning `OperateSpec` and `OperateCalls` state. |
| McpClient.MathClient.HandleLine | mcp_client.py:143-199 | The answer, the new cache and every request sent for one line are exactly those of `LineEffect` for the line's parsed command. |
| McpClient.MathClient.InteractiveMode | mcp_client.py:124-199 | After one listing request, the printed answers, the final cache and every request sent are those of `Conversation` over the parsed lines, starting from the freshly listed tools. |
| McpClient.ParseCommand | mcp_client.py:159-185 | A binary command carries a two-operand operation, and a unary command a one-operand operation. |
| McpClient.ParseCommandSpec | mcp_client.py:144-191 | Input is stripped and lower-cased. `quit`/`exit`/`q` stop and `list` lists, each as the whole line. Fewer than two tokens is rejected. Binary operations need exactly 3 tokens, while `sqrt`/`square_root`/`factorial` need exactly 2. Everything else is an invalid command. |
| McpClient.ConvertTokens | mcp_client.py:161-186 | The operands exist exactly when every token converts, and each operand is its own token converted. Factorial uses `int()`. |
| McpClient.FirstUnconverted | mcp_client.py:161-186 | When some token does not convert, this is the position of the first one: it fails and every earlier token converts. |
| McpClient.OperateSpec | mcp_client.py:159-194 | An operation command prints its result or one of the errors the loop catches. When a token does not convert, the first such token is reported and nothing is sent or re-cached. |
| McpClient.OperateCalls | mcp_client.py:48-87 | Once every token converts, the tools are re-listed only on a cache miss and the tool is called once, only when its name is known. "Not found" is printed exactly when the name is still missing. A result is printed exactly when the call is sent and the server answers, and it is the extracted reply. |
| McpClient.LineEffectSpec | mcp_client.py:142-191 | Each command gets the answer it requires. "Goodbye!" answers exactly a quit command. `list` shows the cached keys. Only an operation command can change the cache or send anything. |
| McpClient.ParsedWell | mcp_client.py:159-185 | Every parsed operation command carries as many operands as its operation takes. |
| McpClient.ConversationAnswers | mcp_client.py:142-199 | A session prints at most one answer per line, and its k-th answer answers the k-th line's command. |
| McpClient.ConversationStops | mcp_client.py:146-148 | No answer before the last is "Goodbye!". The session reads every line unless it stops at a quit command, which it answers. |
| McpClient.UnregisteredAgainstMathServer | mcp_client.py:62-70 | Against `math_mcp`, the divide, power, square_root and factorial wrappers always fail with "not found". The error lists the three registered tools. |
| LlmClient.Keyed | llm_client.py:82-165 | A key of the schema table names its wrapper's tool. |
| LlmClient.KeyedToolName | llm_client.py:82-165 | Every wrapper's tool name is a key of the schema table, and holds that wrapper's schema. |
| LlmClient.FixedSchemaNames | llm_client.py:82-165 | The schema table covers exactly the seven wrapper tools. |
| LlmClient.SchemaNamed | llm_client.py:82-165 | Every schema in the table is filed under its own tool name. |
| LlmClient.SchemaOfOperation | llm_client.py:82-165 | Each schema carries its tool's name and lists exactly the wrapper's argument keys, all of them required. Factorial's `number` is typed `integer`; every other parameter is `number`. |
| LlmClient.Entry | llm_client.py:168-169 | A discovered name contributes nothing when the table has no schema for it. Otherwise it contributes exactly one `{"type": "function", "function": schema}` entry. |
| LlmClient.OfferedLength | llm_client.py:167-171 | There is at most one entry per discovered name. |
| LlmClient.OfferedSound | llm_client.py:167-171 | Every entry is `{"type": "function", "function": schema}` with the table's schema unchanged, for a discovered name. Nothing else is emitted. |
| LlmClient.OfferedComplete | llm_client.py:167-171 | Every discovered name that has a schema gets its entry. |
| LlmClient.OfferedInOrder | llm_client.py:167-171 | When every discovered name has a schema, the entries follow discovery order one to one. |
| LlmClient.Offered | llm_client.py:167-171 | Every entry of the schema list is a `"function"` tool. |
| LlmClient.KnownAt | llm_client.py:167-171 | The positions of the discovered names that have a schema: all of them, in ascending order. |
| LlmClient.OfferedKnown | llm_client.py:167-171 | With known and unknown names mixed, the entries are exactly the schemas of the known names, one each, in discovery order. |
| LlmClient.MathServerSchemas | llm_client.py:167-171 | Against `math_mcp`, the model is offered exactly the add, subtract and multiply schemas, in that order. |
| LlmClient.ToolMessagesSpec | llm_client.py:243-268 | There is one tool message per tool call, in order, each carrying its call's id. A failing call gives "Error executing <name>: <err>" and the loop goes on. Only arguments that are not JSON abort the loop. |
| LlmClient.ToolMessages | llm_client.py:243-268 | The loop completes only when every call's arguments are JSON. Otherwise it stops with the arguments text of the first call whose arguments are not JSON. |
| LlmClient.Assistant.constructor | llm_client.py:36 | The tool cache starts empty. |
| LlmClient.Assistant.ConnectAndDiscover | llm_client.py:40-54 | The cache is replaced by the dict built from the listing. |
| LlmClient.Assistant.GetToolsSchema | llm_client.py:77-171 | The loop's result is the schema list for the cache's keys. |
| LlmClient.Assistant.RunToolCalls | llm_client.py:243-268 | The loop's messages are those `ToolMessagesSpec` characterises: one per call, until a call's arguments are not JSON. |
| LlmClient.Assistant.CallTool | llm_client.py:56-75 | There is no cache check. The server's reply is extracted the same way as in the stdio client, and its errors pass through. |
| LlmClient.Assistant.ProcessNaturalLanguage | llm_client.py:173-286 | A model failure is reported as the error. With no tool calls, the reply is the model's text, or the fallback sentence when that text is empty. Otherwise the assistant request and the tool messages are appended, and the follow-up's text (possibly None) is the answer. |
| AuthServer.ValidateToken | test.py:42-59 | Auth data comes back only on status 200 with a JSON object body. Any other status, an unreachable service or a body that is not an object gives None. |
| AuthServer.UserFrom | test.py:70-75 | The user record takes username, user_id and permissions from the auth data. Missing keys give None, and missing permissions give `[]`. |
| AuthServer.Accepted | test.py:67-79 | A reply authenticates exactly when validation gives a non-empty dict. The user is built from that dict. |
| AuthServer.OnlyOkAuthenticates | test.py:50-59 | Only status 200 can authenticate. Other statuses, an unreachable service and an empty object are all rejected. |
| AuthServer.Logged | test.py:81-97 | Nothing is logged without a current user. Otherwise exactly one record is logged, with that user's username and user_id, the tool name, the arguments and the result. |
| AuthServer.Addition | test.py:165-196 | The reply is always a dict with a boolean `success`. It carries an `error` exactly when `success` is false, and what is logged for a failure is that error alone. |
| AuthServer.AdditionSpec | test.py:165-196 | success is true exactly when `a + b` is defined and a user is set. The reply then carries operands `[a, b]`, their sum and the user's name, and the same reply is logged. Otherwise the reply is "Error in add_numbers: …" with success false. |
| AuthServer.Server.constructor | test.py:37-40 | There is no current user to start with. |
| AuthServer.Server.Authenticate | test.py:61-79 | A falsy token fails without contacting the service and without touching `current_user`. Any other token is sent once: the accepted user becomes current, or `current_user` is cleared, and the result says which. |
| AuthServer.Server.LogUserActivity | test.py:81-97 | The log grows by exactly the records of `Logged`. |
| AuthServer.Server.HandleAddNumbers | test.py:165-196 | The reply and the logged record are those that `AdditionSpec` characterises. |
| AuthServer.Server.CallTool | test.py:132-163 | The reply, the new current user, the tokens sent and the records logged are those of `CallSpec`. |
| AuthServer.CallSpec | test.py:132-163 | Only arguments that are not a dict raise. At most one token is sent to the service and at most one record is logged per call. When a token is sent, the current user becomes the one the service's reply yields. |
| AuthServer.Server.Endpoint | test.py:202-255 | `tools/list` answers with the advertised `add_numbers` tool. `tools/call` runs `call_tool` and answers with its reply, or with -32603 and "Internal error: …". Other methods get -32601 "Method not found" with the id echoed. A body that is not a JSON object gets no line. Only `tools/call` changes state. |
| AuthServer.AuthenticationBeforeDispatch | test.py:137-150 | An unauthenticated call gets the same "Authentication failed. Invalid or expired token." reply, with success false, whatever tool it names. |
| AuthServer.MissingTokenKeepsStaleUser | test.py:63-65 | A missing or empty token fails without contacting the service, keeps the previous user, and logs the failure under that user. |
| AuthServer.RejectedTokenClearsUser | test.py:67-85 | A token the service rejects is sent once and clears the user, so the failure is not logged. |
| AuthServer.AuthenticatedDispatch | test.py:152-163 | An authenticated call runs as its own token's user. `add_numbers` adds; any other name gets "Unknown tool: <name>". Exactly one record is logged. |
| AuthServer.MissingTokenAfterLogin | test.py:137-150 | On a live server, a token-less call after a successful login is refused, yet it is logged under the earlier user. |
| AuthServer.Route | test.py:206-255 | The routing is decided by `method`, with the id echoed. `params` defaults to `{}`. A non-dict `params` is an internal error. An undecodable or non-object body aborts the stream, because the error handler raises in turn. |
| WebClient.Operands | web_client.py:34-87 | Operands are taken from `numbers` in list order. Factorial's single operand goes through `int()`. |
| WebClient.Calculate | web_client.py:26-100 | A success needs a JSON object body. Its expression shows the same result as the reply, and as many operands as the operation takes. |
| WebClient.CalculateSpec | web_client.py:26-100 | Each of these fails: a body that is not an object, an unknown operation, a `numbers` without a length, or a count other than the operation's arity. A success calls the named operation's wrapper with the operands in order and shows the same operands and result. Wrapper errors become failures carrying their text. |
| WebClient.BinaryRequest | web_client.py:34-72 | `[x, y]` for a binary operation is sent as the wrapper's two keys, first operand first. |
| WebClient.MissingNumbers | web_client.py:32 | A missing `numbers` behaves like an empty list, which no operation accepts. |
| WebClient.FactorialRequest | web_client.py:82-87 | Factorial sends `int()` of its operand, and a ValueError from `int()` is reported. |
| MathHandler.AgreesWithServerTools | math_test.py:28-36 | `add` and `multiply` of integers agree with the math server's tools. |
| MathHandler.ExecuteFunction | math_test.py:27-46 | Every reply is a dict with exactly one key, "result" or "error". Only `add`, `multiply` and `divide` can raise. |
| MathHandler.AddReply | math_test.py:29-31 | For every `args`, `add` replies with Python's `a + b` of the defaulted operands as its result, or raises that sum's TypeError. |
| MathHandler.MultiplyReply | math_test.py:34-36 | For every `args`, `multiply` replies with Python's `a * b` of the defaulted operands as its result, or raises that product's TypeError. |
| MathHandler.DivideReply | math_test.py:38-43 | For every `args`, `divide` with a divisor equal to 0 replies "Division by zero". Two numbers with a non-zero divisor give their quotient as the result. Any other pair raises the TypeError for `/`. |
| MathHandler.MissingFirstOperandIsZero | math_test.py:29-39 | For every function and every `args`, a missing `a` behaves exactly as `a` = 0. |
| MathHandler.MissingSecondOperandDefaults | math_test.py:30-40 | For every `args`, a missing `b` behaves exactly as `b` = 0 for `add` and `multiply`, and as `b` = 1 for `divide`. |
| MathHandler.DivisionGuard | math_test.py:38-43 | "Division by zero" is returned exactly when `b` is given and equals 0. |
| MathHandler.UnknownFunction | math_test.py:45-46 | Any other name gives "Unknown function: <name>" whatever the args. |
| MathHandler.QuotientGuarded | math_test.py:38-43 | A quotient is only formed for `divide`, from two numbers with a non-zero divisor. |

## Left out

- **Network and process I/O** become parameters. This covers the stdio MCP sessions, the HTTP POST to the token service, FastAPI/uvicorn, Flask and `HTTPServer` framing. The MCP server's tool listing and call replies, the token service's replies and the chat model are all function parameters.
- **Floating point.** Every JSON number is an integer. The float quotient of `divide` in `execute_function` is kept as its operand pair (`Quotient`). `float()` on a command token is a parameter.
- **JSON.** `json.dumps` and pretty-printing are not modelled: replies are the dicts before encoding. `json.loads` is a parameter.
- **`str()` of containers and SDK objects.** `str()` of lists, dicts, tool results and content items is a placeholder or a tag (`PyValue.PyStr`, `McpClient.Extracted`), not Python's repr. The expression strings of `/calculate` are kept as their parts (`WebClient.Expression`).
- **Timestamps.** `datetime.utcnow()` timestamps in the user record, the activity record and the addition reply are omitted, as is the record's constant server name.
- **Logging and printing** are not modelled, except for the activity records and the interactive loop's answers.
- **The system prompt** of `process_natural_language` is a constant message whose text is not reproduced.
- **Strings.** Whitespace for `strip`/`split` is the full set `str.isspace` accepts, but lower-casing covers ASCII only. `int()` does not accept underscores in numerals.
- PyValue.PyInt: accepts ASCII digits only, while Python's `int()` also accepts other Unicode decimal digits (such as "５" or "٣"). Its error text always quotes the string with `'` around it. CPython renders the repr instead: it uses `"` when the string contains `'`, escapes characters, and truncates past 200 characters.
- **Unhandled errors in the interactive loop.** `KeyboardInterrupt` is not modelled. An error that stops `interactive_mode` before the loop, during `connect_and_discover`, is not modelled either.
- **SDK request handlers.** The `/mcp` route looks up the SDK-internal attributes `_list_tools_handler` and `_call_tool_handler` (test.py:214, test.py:227). The model assumes, without proof, that they exist and dispatch to the `list_tools` and `call_tool` handlers of `setup_handlers`. If the SDK lacks them, the lookup raises and every such request ends in the route's internal-error branch.
- **Concurrency.** Concurrent `/mcp` requests sharing `current_user` are not modelled; the model is sequential.
- **Other routes.** These are outside the model: the `/health` and `/` routes of `test.py`, the `/tools` route of `web_client.py`, the `do_POST` framing of `math_test.py`, and `interactive_llm_mode`.
- **Other files.** The wrapper scripts `server.py`, `server/test_server.py`, `test_mcp.py`, `client.py`, `simple_client.py`, `llm_web.py` and `tools/csv_tools.py` are not part of this model. Neither is `main.py`'s autogen graph, nor `dto/energy_consumption_cost_dto.py`, whose constraints are enforced by pydantic.
- McpClient.MathClient.InteractiveMode: the session ends when the input lines run out. In Python, `input()` then raises EOFError, which the `except Exception` clause catches. The loop would then print "Unexpected error" forever; the model does not model this endless tail.
