/**
 * The authenticated HTTP MCP server `AuthenticatedMCPServer` (server name
 * "add-number-server") and its `/mcp` JSON-RPC router.
 *
 * The external token service is an oracle from the token to the HTTP reply
 * it would give; every token sent to it is recorded in `authRequests`, and
 * every activity record written to the log in `activity`. JSON encoding of
 * the replies and timestamps are not modelled: a reply is the Python dict
 * before `json.dumps`, without its timestamp.
 */
module AuthServer {
  import opened Results
  import opened PyValue
  import opened McpTypes

  const ServerName := "add-number-server"
  const AuthFailedMessage := "Authentication failed. Invalid or expired token."

  /** JSON-RPC error codes of section 5.1 of the JSON-RPC 2.0 specification. */
  const MethodNotFoundCode := -32601
  const InternalErrorCode := -32603

  // ---------------------------------------------------------------------
  // Token validation

  /**
   * What the POST to the token service gives: a status code and the body's
   * JSON value (None when the body is not JSON), or an exception before any
   * response.
   */
  datatype ServiceReply = Responded(status: int, body: Option<Value>) | Unreachable(reason: string)

  /**
   * `validate_token_with_auth_service`: the decoded body on status 200, and
   * None otherwise. The success path reads `.get('username')` from the body
   * inside the `try`, so a body that is not a JSON object raises there and is
   * caught: None as well.
   */
  function ValidateToken(reply: ServiceReply): (r: Option<map<string, Value>>)
    ensures r.Some? <==> reply.Responded? && reply.status == 200 && reply.body.Some? && reply.body.value.Obj?
    ensures r.Some? ==> reply.body == Some(Obj(r.value))
  {
    match reply
    case Unreachable(_) => None
    case Responded(status, body) =>
      if status != 200 then None
      else match body
        case Some(Obj(fields)) => Some(fields)
        case _ => None
  }

  /** The `current_user` record: username, user id and permissions (the timestamp is not modelled). */
  datatype User = User(username: Value, userId: Value, permissions: Value)

  /** The user record built from accepted auth data; absent keys give None, and no permissions give `[]`. */
  function UserFrom(authData: map<string, Value>): (u: User)
    ensures "username" in authData ==> u.username == authData["username"]
    ensures "username" !in authData ==> u.username == Null
    ensures "user_id" in authData ==> u.userId == authData["user_id"]
    ensures "user_id" !in authData ==> u.userId == Null
    ensures "permissions" in authData ==> u.permissions == authData["permissions"]
    ensures "permissions" !in authData ==> u.permissions == Arr([])
  {
    User(GetOr(authData, "username", Null), GetOr(authData, "user_id", Null), GetOr(authData, "permissions", Arr([])))
  }

  /** The user a token-service reply authenticates: only a non-empty object passes `if auth_data:`. */
  function Accepted(reply: ServiceReply): (u: Option<User>)
    ensures u.Some? <==> ValidateToken(reply).Some? && ValidateToken(reply).value != map[]
    ensures u.Some? ==> u.value == UserFrom(ValidateToken(reply).value)
  {
    match ValidateToken(reply)
    case Some(authData) => if authData != map[] then Some(UserFrom(authData)) else None
    case None => None
  }

  /** Only status 200 can authenticate: every other status, and an unreachable service, is rejected. */
  lemma OnlyOkAuthenticates(reply: ServiceReply)
    ensures Accepted(reply).Some? ==> reply.Responded? && reply.status == 200
    ensures reply.Unreachable? ==> Accepted(reply) == None
    ensures reply.Responded? && reply.status != 200 ==> Accepted(reply) == None
    ensures reply.Responded? && reply.body == Some(Obj(map[])) ==> Accepted(reply) == None
  {
  }

  // ---------------------------------------------------------------------
  // Replies and log records

  /** One USER_ACTIVITY record (its timestamp and server name are not modelled). */
  datatype ActivityEntry = ActivityEntry(username: Value, userId: Value, toolName: Value, arguments: Value, result: Value)

  /** The records `log_user_activity` writes: none without a current user, else exactly one. */
  function Logged(user: Option<User>, toolName: Value, arguments: Value, result: Value): (log: seq<ActivityEntry>)
    ensures user.None? <==> log == []
    ensures user.Some? ==> log == [ActivityEntry(user.value.username, user.value.userId, toolName, arguments, result)]
  {
    match user
    case None => []
    case Some(u) => [ActivityEntry(u.username, u.userId, toolName, arguments, result)]
  }

  /** `{"error": message}`, the result recorded for a failure. */
  function ErrorRecord(message: string): Value {
    Obj(map["error" := Str(message)])
  }

  /** `{"error": message, "success": False}`, the reply to a failed call. */
  function FailureEnvelope(message: string): Value {
    Obj(map["error" := Str(message), "success" := Bool(false)])
  }

  /** The reply to a successful addition (the timestamp is not modelled). */
  function AdditionEnvelope(a: Value, b: Value, sum: Value, performedBy: Value): Value {
    Obj(map["success" := Bool(true), "operation" := Str("addition"), "operands" := Arr([a, b]),
            "result" := sum, "performed_by" := performedBy])
  }

  /** The reply and the log result of `handle_add_numbers` for the user it runs under. */
  function Addition(user: Option<User>, args: map<string, Value>): (r: (Value, Value))
    ensures r.0.Obj? && "success" in r.0.fields && r.0.fields["success"].Bool?
    ensures r.0.fields["success"] == Bool(false) <==> "error" in r.0.fields
    ensures r.0.fields["success"] == Bool(false) ==> r.1 == Obj(map["error" := r.0.fields["error"]])
  {
    var a := GetOr(args, "a", Null);
    var b := GetOr(args, "b", Null);
    match PyAdd(a, b)
    case Err(e) =>
      var message := "Error in add_numbers: " + e;
      (FailureEnvelope(message), ErrorRecord(message))
    case Ok(sum) =>
      match user
      case None =>
        var message := "Error in add_numbers: 'NoneType' object is not subscriptable";
        (FailureEnvelope(message), ErrorRecord(message))
      case Some(u) =>
        var envelope := AdditionEnvelope(a, b, sum, u.username);
        (envelope, envelope)
  }

  /**
   * `handle_add_numbers` succeeds exactly when `a + b` is defined and a user is
   * set; then it reports both operands in order, their sum and the user's
   * name; otherwise it reports the exception with success false. What it logs
   * is its reply, or the error alone.
   */
  lemma AdditionSpec(user: Option<User>, args: map<string, Value>)
    ensures var (reply, logged) := Addition(user, args);
      var a := GetOr(args, "a", Null);
      var b := GetOr(args, "b", Null);
      && reply.Obj? && "success" in reply.fields
      && (reply.fields["success"] == Bool(true) <==> PyAdd(a, b).Ok? && user.Some?)
      && (reply.fields["success"] == Bool(true) ==>
            && reply.fields["operands"] == Arr([a, b])
            && reply.fields["result"] == PyAdd(a, b).value
            && reply.fields["performed_by"] == user.value.username
            && logged == reply)
      && (PyAdd(a, b).Ok? && IsNumeric(a) && IsNumeric(b) && user.Some? ==>
            reply.fields["result"] == Int(AsInt(a) + AsInt(b)))
      && (PyAdd(a, b).Err? ==>
            && reply == FailureEnvelope("Error in add_numbers: " + PyAdd(a, b).error)
            && logged == ErrorRecord("Error in add_numbers: " + PyAdd(a, b).error))
  {
  }

  /** The tool list the server advertises: one tool, `add_numbers`, taking a token and two numbers. */
  function AdvertisedTools(): seq<Tool> {
    [Tool("add_numbers", "Add two numbers together (requires authentication)",
      Obj(map[
        "type" := Str("object"),
        "properties" := Obj(map[
          "auth_token" := Obj(map["type" := Str("string"), "description" := Str("JWT authentication token")]),
          "a" := Obj(map["type" := Str("number"), "description" := Str("First number")]),
          "b" := Obj(map["type" := Str("number"), "description" := Str("Second number")])]),
        "required" := Arr([Str("auth_token"), Str("a"), Str("b")])]))]
  }

  // ---------------------------------------------------------------------
  // The server object

  class Server {
    /** `current_user` */
    var currentUser: Option<User>
    /** The USER_ACTIVITY records logged so far. */
    var activity: seq<ActivityEntry>
    /** The tokens sent to the token service so far. */
    var authRequests: seq<Value>
    /** How the token service answers each token. */
    const authService: Value -> ServiceReply

    constructor (authService: Value -> ServiceReply)
      ensures currentUser == None && activity == [] && authRequests == []
      ensures this.authService == authService
    {
      currentUser := None;
      activity := [];
      authRequests := [];
      this.authService := authService;
    }

    /**
     * `authenticate_request`: a falsy token fails at once, without asking the
     * token service and without touching `current_user`; any other token is
     * sent to the service, and the user it accepts becomes the current user,
     * or the current user is cleared.
     */
    method Authenticate(token: Value) returns (ok: bool)
      modifies this`currentUser, this`authRequests
      ensures !Truthy(token) ==> !ok && currentUser == old(currentUser) && authRequests == old(authRequests)
      ensures Truthy(token) ==>
        && authRequests == old(authRequests) + [token]
        && currentUser == Accepted(authService(token))
        && (ok <==> currentUser.Some?)
    {
      if !Truthy(token) {
        return false;
      }
      authRequests := authRequests + [token];
      var authData := ValidateToken(authService(token));
      if authData.Some? && authData.value != map[] {
        currentUser := Some(UserFrom(authData.value));
        return true;
      }
      currentUser := None;
      return false;
    }

    /** `log_user_activity`: one record under the current user, or none without one. */
    method LogUserActivity(toolName: Value, arguments: Value, result: Value)
      modifies this`activity
      ensures activity == old(activity) + Logged(currentUser, toolName, arguments, result)
    {
      if currentUser.Some? {
        activity := activity + [ActivityEntry(currentUser.value.username, currentUser.value.userId,
                                              toolName, arguments, result)];
      }
    }

    /** `handle_add_numbers`: the reply of `Addition`, logged under the current user. */
    method HandleAddNumbers(args: map<string, Value>) returns (reply: Value)
      modifies this`activity
      ensures reply == Addition(currentUser, args).0
      ensures activity == old(activity) + Logged(currentUser, Str("add_numbers"), Obj(args), Addition(currentUser, args).1)
    {
      var a := GetOr(args, "a", Null);
      var b := GetOr(args, "b", Null);
      var sum := PyAdd(a, b);
      if sum.Err? || currentUser.None? {
        var message := if sum.Err? then "Error in add_numbers: " + sum.error
                       else "Error in add_numbers: 'NoneType' object is not subscriptable";
        LogUserActivity(Str("add_numbers"), Obj(args), ErrorRecord(message));
        return FailureEnvelope(message);
      }
      reply := AdditionEnvelope(a, b, sum.value, currentUser.value.username);
      LogUserActivity(Str("add_numbers"), Obj(args), reply);
    }

    /**
     * `call_tool`: authenticate with the arguments' `auth_token`, then dispatch
     * on the name, as `CallSpec` describes for the current user.
     */
    method CallTool(name: Value, arguments: Value) returns (r: Result<Value, string>)
      modifies this`currentUser, this`authRequests, this`activity
      ensures var e := CallSpec(authService, old(currentUser), name, arguments);
        && r == e.reply
        && currentUser == e.user
        && authRequests == old(authRequests) + e.sent
        && activity == old(activity) + e.logged
    {
      if !arguments.Obj? {
        return Err(NoAttribute(arguments, "get"));
      }
      var token := GetOr(arguments.fields, "auth_token", Null);
      var authenticated := Authenticate(token);
      if !authenticated {
        LogUserActivity(name, arguments, ErrorRecord(AuthFailedMessage));
        return Ok(FailureEnvelope(AuthFailedMessage));
      }
      if name == Str("add_numbers") {
        var reply := HandleAddNumbers(arguments.fields);
        return Ok(reply);
      }
      var message := "Unknown tool: " + PyStr(name);
      LogUserActivity(name, arguments, ErrorRecord(message));
      return Ok(FailureEnvelope(message));
    }

    /** The `/mcp` endpoint: route the decoded body (None when it is not JSON) and run the handler it selects. */
    method Endpoint(body: Option<Value>) returns (out: StreamOutput)
      modifies this`currentUser, this`authRequests, this`activity
      ensures !Route(body).Dispatch? ==> unchanged(this)
      ensures match Route(body)
        case Abort => out == Aborted
        case ListTools(id) => out == Line(RpcResult(id, ToolsPayload(AdvertisedTools())))
        case MethodNotFound(id) => out == Line(RpcError(id, MethodNotFoundCode, "Method not found"))
        case Internal(id, message) => out == Line(RpcError(id, InternalErrorCode, message))
        case Dispatch(id, name, arguments) =>
          var e := CallSpec(authService, old(currentUser), name, arguments);
          && out == Line(Answer(id, e.reply))
          && currentUser == e.user
          && authRequests == old(authRequests) + e.sent
          && activity == old(activity) + e.logged
    {
      match Route(body) {
        case Abort => out := Aborted;
        case ListTools(id) => out := Line(RpcResult(id, ToolsPayload(AdvertisedTools())));
        case MethodNotFound(id) => out := Line(RpcError(id, MethodNotFoundCode, "Method not found"));
        case Internal(id, message) => out := Line(RpcError(id, InternalErrorCode, message));
        case Dispatch(id, name, arguments) =>
          var r := CallTool(name, arguments);
          out := Line(Answer(id, r));
      }
    }
  }

  /** The effects of one `call_tool`: its reply (or what it raised), the new current user, the tokens sent and the records logged. */
  datatype CallEffect = CallEffect(reply: Result<Value, string>, user: Option<User>, sent: seq<Value>, logged: seq<ActivityEntry>)

  /**
   * `call_tool` from current user `user`: arguments that are not a dict raise
   * at once; otherwise authentication comes first and only an authenticated
   * call is dispatched on its name.
   */
  function CallSpec(authService: Value -> ServiceReply, user: Option<User>, name: Value, arguments: Value): (e: CallEffect)
    ensures e.reply.Err? <==> !arguments.Obj?
    ensures |e.sent| <= 1 && |e.logged| <= 1
    ensures e.sent != [] ==> e.user == Accepted(authService(e.sent[0]))
  {
    if !arguments.Obj? then CallEffect(Err(NoAttribute(arguments, "get")), user, [], [])
    else
      var token := GetOr(arguments.fields, "auth_token", Null);
      var sent := if Truthy(token) then [token] else [];
      var current := if Truthy(token) then Accepted(authService(token)) else user;
      if !Truthy(token) || current.None? then
        CallEffect(Ok(FailureEnvelope(AuthFailedMessage)), current, sent,
                   Logged(current, name, arguments, ErrorRecord(AuthFailedMessage)))
      else if name == Str("add_numbers") then
        var (reply, result) := Addition(current, arguments.fields);
        CallEffect(Ok(reply), current, sent, Logged(current, Str("add_numbers"), arguments, result))
      else
        var message := "Unknown tool: " + PyStr(name);
        CallEffect(Ok(FailureEnvelope(message)), current, sent,
                   Logged(current, name, arguments, ErrorRecord(message)))
  }

  /** Whether a call with these arguments authenticates. */
  predicate Authenticates(authService: Value -> ServiceReply, arguments: map<string, Value>) {
    var token := GetOr(arguments, "auth_token", Null);
    Truthy(token) && Accepted(authService(token)).Some?
  }

  /**
   * Authentication is checked before the tool name: an unauthenticated call
   * gets the same failure reply whatever tool it names, and nothing is
   * dispatched.
   */
  lemma AuthenticationBeforeDispatch(authService: Value -> ServiceReply, user: Option<User>,
                                     name: Value, other: Value, arguments: map<string, Value>)
    requires !Authenticates(authService, arguments)
    ensures CallSpec(authService, user, name, Obj(arguments)).reply == Ok(FailureEnvelope(AuthFailedMessage))
    ensures CallSpec(authService, user, name, Obj(arguments)).reply == CallSpec(authService, user, other, Obj(arguments)).reply
    ensures |CallSpec(authService, user, name, Obj(arguments)).logged| <= 1
  {
  }

  /**
   * A missing or empty token fails without asking the token service and
   * without clearing the current user, so the failure is logged under the
   * user of an earlier request.
   */
  lemma MissingTokenKeepsStaleUser(authService: Value -> ServiceReply, user: User, name: Value, arguments: map<string, Value>)
    requires !Truthy(GetOr(arguments, "auth_token", Null))
    ensures var e := CallSpec(authService, Some(user), name, Obj(arguments));
      && e.reply == Ok(FailureEnvelope(AuthFailedMessage))
      && e.sent == []
      && e.user == Some(user)
      && e.logged == [ActivityEntry(user.username, user.userId, name, Obj(arguments), ErrorRecord(AuthFailedMessage))]
  {
  }

  /** A token the service rejects clears the current user: nothing is logged for the failure. */
  lemma RejectedTokenClearsUser(authService: Value -> ServiceReply, user: Option<User>, name: Value, arguments: map<string, Value>)
    requires Truthy(GetOr(arguments, "auth_token", Null))
    requires Accepted(authService(GetOr(arguments, "auth_token", Null))).None?
    ensures var e := CallSpec(authService, user, name, Obj(arguments));
      && e.reply == Ok(FailureEnvelope(AuthFailedMessage))
      && e.sent == [GetOr(arguments, "auth_token", Null)]
      && e.user == None
      && e.logged == []
  {
  }

  /**
   * An authenticated call runs as the user its own token names: `add_numbers`
   * adds under that user, and any other name is an unknown tool; either way
   * exactly one record is logged.
   */
  lemma AuthenticatedDispatch(authService: Value -> ServiceReply, user: Option<User>, name: Value, arguments: map<string, Value>)
    requires Authenticates(authService, arguments)
    ensures var e := CallSpec(authService, user, name, Obj(arguments));
      var tokenUser := Accepted(authService(GetOr(arguments, "auth_token", Null)));
      && e.user == tokenUser
      && |e.logged| == 1 && e.logged[0].username == tokenUser.value.username
      && (name == Str("add_numbers") ==> e.reply == Ok(Addition(tokenUser, arguments).0))
      && (name != Str("add_numbers") ==> e.reply == Ok(FailureEnvelope("Unknown tool: " + PyStr(name))))
  {
  }

  /**
   * The stale-user quirk on a live server: after one request authenticates
   * `token`, a request with no token is refused, yet its failure is recorded
   * under the first request's user.
   */
  method MissingTokenAfterLogin(authService: Value -> ServiceReply, token: Value, name: Value, b: int)
    returns (reply: Result<Value, string>, log: seq<ActivityEntry>)
    requires Truthy(token) && Accepted(authService(token)).Some?
    ensures reply == Ok(FailureEnvelope(AuthFailedMessage))
    ensures |log| == 2
    ensures log[1] == ActivityEntry(Accepted(authService(token)).value.username, Accepted(authService(token)).value.userId,
                                    name, Obj(map["b" := Int(b)]), ErrorRecord(AuthFailedMessage))
  {
    var server := new Server(authService);
    var first := server.CallTool(Str("add_numbers"), Obj(map["auth_token" := token, "a" := Int(1), "b" := Int(b)]));
    reply := server.CallTool(name, Obj(map["b" := Int(b)]));
    log := server.activity;
  }

  // ---------------------------------------------------------------------
  // The /mcp router

  /** What the router does with a request body. */
  datatype Routing =
    | Abort                                            // the error handler itself raises: the stream ends with no line
    | ListTools(id: Value)
    | Dispatch(id: Value, name: Value, arguments: Value)
    | MethodNotFound(id: Value)
    | Internal(id: Value, message: string)

  datatype Payload = ToolsPayload(tools: seq<Tool>) | CallPayload(reply: Value)

  /** A JSON-RPC 2.0 response line. */
  datatype Response = RpcResult(id: Value, result: Payload) | RpcError(id: Value, code: int, message: string)

  /** What the streaming response carries: one response line, or nothing. */
  datatype StreamOutput = Line(response: Response) | Aborted

  /** The response to a dispatched tool call: its reply, or the -32603 error for what it raised. */
  function Answer(id: Value, r: Result<Value, string>): Response {
    match r
    case Ok(reply) => RpcResult(id, CallPayload(reply))
    case Err(e) => RpcError(id, InternalErrorCode, "Internal error: " + e)
  }

  /**
   * The router's decision for a body (None when it is not JSON). An undecodable
   * body leaves `request_data` unbound and a non-object has no `.get`, so in
   * both cases the error handler raises in turn and nothing is written.
   */
  function Route(body: Option<Value>): (r: Routing)
    ensures r.Abort? <==> !(body.Some? && body.value.Obj?)
    ensures !r.Abort? ==> r.id == GetOr(body.value.fields, "id", Null)
    ensures r.ListTools? <==> body.Some? && body.value.Obj? && GetOr(body.value.fields, "method", Null) == Str("tools/list")
    ensures r.MethodNotFound? <==>
      && body.Some? && body.value.Obj?
      && GetOr(body.value.fields, "method", Null) !in {Str("tools/list"), Str("tools/call")}
    ensures r.Dispatch? || r.Internal? ==> GetOr(body.value.fields, "method", Null) == Str("tools/call")
  {
    match body
    case None => Abort
    case Some(request) =>
      if !request.Obj? then Abort
      else
        var id := GetOr(request.fields, "id", Null);
        var rpcMethod := GetOr(request.fields, "method", Null);
        if rpcMethod == Str("tools/list") then ListTools(id)
        else if rpcMethod == Str("tools/call") then
          var params := GetOr(request.fields, "params", Obj(map[]));
          if !params.Obj? then Internal(id, "Internal error: " + NoAttribute(params, "get"))
          else Dispatch(id, GetOr(params.fields, "name", Null), GetOr(params.fields, "arguments", Obj(map[])))
        else MethodNotFound(id)
  }
}
