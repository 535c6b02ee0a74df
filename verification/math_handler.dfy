/**
 * `MathMCPHandler.execute_function` of the plain HTTP math server: a dispatch
 * on the function name over the request's `args` dict.
 *
 * Division yields a float in Python; its quotient is kept abstract here as the
 * pair of operands it divides.
 */
module MathHandler {
  import opened Results
  import opened PyValue
  import Maths

  /** A value in a reply: a plain value, or the float quotient `numerator / denominator`. */
  datatype Answer = Plain(v: Value) | Quotient(numerator: Value, denominator: Value)

  /** The reply dict. */
  type Reply = map<string, Answer>

  const DivisionByZero := "Division by zero"

  function ResultReply(v: Answer): Reply {
    map["result" := v]
  }

  function ErrorReply(message: string): Reply {
    map["error" := Plain(Str(message))]
  }

  /** The reply to an operator's outcome: its value as the result, or the exception it raised. */
  function Replied(outcome: Result<Value, string>): Result<Reply, string> {
    match outcome
    case Ok(v) => Ok(ResultReply(Plain(v)))
    case Err(e) => Err(e)
  }

  /**
   * `execute_function(function_name, args)`: the reply, or the text of the
   * exception it raises (`args` without `.get`, or an operator TypeError).
   */
  function ExecuteFunction(functionName: Value, args: Value): (r: Result<Reply, string>)
    ensures r.Ok? ==> r.value.Keys == {"result"} || r.value.Keys == {"error"}
    ensures r.Err? ==> functionName == Str("add") || functionName == Str("multiply") || functionName == Str("divide")
  {
    if functionName == Str("add") || functionName == Str("multiply") || functionName == Str("divide") then
      if !args.Obj? then Err(NoAttribute(args, "get"))
      else
        var a := GetOr(args.fields, "a", Int(0));
        if functionName == Str("add") then
          var b := GetOr(args.fields, "b", Int(0));
          Replied(PyAdd(a, b))
        else if functionName == Str("multiply") then
          var b := GetOr(args.fields, "b", Int(0));
          Replied(PyMul(a, b))
        else
          var b := GetOr(args.fields, "b", Int(1));
          if EqualsZero(b) then Ok(ErrorReply(DivisionByZero))
          else if IsNumeric(a) && IsNumeric(b) then Ok(ResultReply(Quotient(a, b)))
          else Err(Unsupported("/", a, b))
    else Ok(ErrorReply("Unknown function: " + PyStr(functionName)))
  }

  /** Add and multiply of two integers agree with the math server's tools. */
  lemma AgreesWithServerTools(a: int, b: int)
    ensures ExecuteFunction(Str("add"), Obj(map["a" := Int(a), "b" := Int(b)]))
            == Ok(ResultReply(Plain(Int(Maths.AddNumbers(a, b)))))
    ensures ExecuteFunction(Str("multiply"), Obj(map["a" := Int(a), "b" := Int(b)]))
            == Ok(ResultReply(Plain(Int(Maths.MultiplyNumbers(a, b)))))
  {
    var args := map["a" := Int(a), "b" := Int(b)];
    assert GetOr(args, "a", Int(0)) == Int(a);
    assert GetOr(args, "b", Int(0)) == Int(b);
  }

  /** A missing "a" behaves as 0, whatever the function and the other arguments. */
  lemma MissingFirstOperandIsZero(functionName: Value, args: map<string, Value>)
    requires "a" !in args
    ensures ExecuteFunction(functionName, Obj(args)) == ExecuteFunction(functionName, Obj(args["a" := Int(0)]))
  {
    var given := args["a" := Int(0)];
    assert GetOr(args, "a", Int(0)) == GetOr(given, "a", Int(0));
    assert forall d :: GetOr(args, "b", d) == GetOr(given, "b", d);
  }

  /** A missing "b" behaves as 0 for add and multiply and as 1 for divide, whatever the other arguments. */
  lemma MissingSecondOperandDefaults(functionName: Value, args: map<string, Value>)
    requires "b" !in args
    ensures functionName == Str("add") || functionName == Str("multiply") ==>
              ExecuteFunction(functionName, Obj(args)) == ExecuteFunction(functionName, Obj(args["b" := Int(0)]))
    ensures ExecuteFunction(Str("divide"), Obj(args)) == ExecuteFunction(Str("divide"), Obj(args["b" := Int(1)]))
  {
    assert GetOr(args, "a", Int(0)) == GetOr(args["b" := Int(0)], "a", Int(0)) == GetOr(args["b" := Int(1)], "a", Int(0));
    assert Str("divide") != Str("add") by { assert "divide"[0] != "add"[0]; }
    assert Str("divide") != Str("multiply") by { assert "divide"[0] != "multiply"[0]; }
  }

  /** "add" is Python's `+` of the operands after defaulting, its error included. */
  lemma AddReply(args: map<string, Value>)
    ensures ExecuteFunction(Str("add"), Obj(args))
            == Replied(PyAdd(GetOr(args, "a", Int(0)), GetOr(args, "b", Int(0))))
  {
    assert Str("add") != Str("multiply") by { assert "add"[0] != "multiply"[0]; }
    assert Str("add") != Str("divide") by { assert "add"[0] != "divide"[0]; }
  }

  /** "multiply" is Python's `*` of the operands after defaulting, its error included. */
  lemma MultiplyReply(args: map<string, Value>)
    ensures ExecuteFunction(Str("multiply"), Obj(args))
            == Replied(PyMul(GetOr(args, "a", Int(0)), GetOr(args, "b", Int(0))))
  {
    assert Str("multiply") != Str("add") by { assert "multiply"[0] != "add"[0]; }
  }

  /**
   * "divide" after defaulting: a zero divisor is refused, two numbers give
   * their quotient, and any other pair raises Python's TypeError for `/`.
   */
  lemma DivideReply(args: map<string, Value>)
    ensures var a, b := GetOr(args, "a", Int(0)), GetOr(args, "b", Int(1));
      && (EqualsZero(b) ==> ExecuteFunction(Str("divide"), Obj(args)) == Ok(ErrorReply(DivisionByZero)))
      && (IsNumeric(a) && IsNumeric(b) && AsInt(b) != 0 ==>
            ExecuteFunction(Str("divide"), Obj(args)) == Ok(ResultReply(Quotient(a, b))))
      && (!(IsNumeric(a) && IsNumeric(b)) && !EqualsZero(b) ==>
            ExecuteFunction(Str("divide"), Obj(args)) == Err(Unsupported("/", a, b)))
  {
    assert Str("divide") != Str("add") by { assert "divide"[0] != "add"[0]; }
    assert Str("divide") != Str("multiply") by { assert "divide"[0] != "multiply"[0]; }
  }

  /** Division is refused as "Division by zero" exactly when `b` is given and equals 0. */
  lemma DivisionGuard(args: map<string, Value>)
    ensures ExecuteFunction(Str("divide"), Obj(args)) == Ok(ErrorReply(DivisionByZero))
            <==> "b" in args && EqualsZero(args["b"])
  {
    assert ErrorReply(DivisionByZero).Keys == {"error"};
    assert !EqualsZero(Int(1));
  }

  /** Any other function name is an unknown function, whatever `args` is. */
  lemma UnknownFunction(functionName: Value, args: Value)
    requires functionName != Str("add") && functionName != Str("multiply") && functionName != Str("divide")
    ensures ExecuteFunction(functionName, args) == Ok(ErrorReply("Unknown function: " + PyStr(functionName)))
  {
  }

  /** A quotient is only ever formed from two numbers with a non-zero divisor. */
  lemma QuotientGuarded(functionName: Value, args: Value)
    ensures ExecuteFunction(functionName, args).Ok? && "result" in ExecuteFunction(functionName, args).value
            && ExecuteFunction(functionName, args).value["result"].Quotient? ==>
      var q := ExecuteFunction(functionName, args).value["result"];
      && functionName == Str("divide")
      && IsNumeric(q.numerator) && IsNumeric(q.denominator) && AsInt(q.denominator) != 0
  {
  }
}
