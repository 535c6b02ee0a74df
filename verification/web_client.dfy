/**
 * The `/calculate` route of the Flask web client: choose a wrapper of the MCP
 * math client by operation name, check the operand count, and report the
 * wrapper's result or the exception it raised.
 *
 * The MCP client call behind each wrapper is an oracle `invoke(tool, arguments)`
 * giving the extracted result or the text of the exception raised.
 */
module WebClient {
  import opened Results
  import opened PyValue
  import opened McpClient

  const InvalidRequest := "Invalid operation or wrong number of arguments"

  /** The operation names the route accepts, and the wrapper each selects. */
  function WebOperation(name: Value): (op: Option<Operation>)
    ensures op.Some? ==> name.Str?
  {
    if name == Str("add") then Some(Add)
    else if name == Str("subtract") then Some(Subtract)
    else if name == Str("multiply") then Some(Multiply)
    else if name == Str("divide") then Some(Divide)
    else if name == Str("power") then Some(Power)
    else if name == Str("sqrt") then Some(SquareRoot)
    else if name == Str("factorial") then Some(Factorial)
    else None
  }

  /**
   * The expression string of a success reply: the operation's symbol between
   * (or before) the operands as passed, then " = " and the result.
   */
  datatype Expression = Expression(op: Operation, operands: seq<Value>, result: Extracted)

  /** The JSON reply of `/calculate`. */
  datatype WebReply = Success(result: Extracted, expression: Expression) | Failure(error: string)

  /**
   * The operands handed to the wrapper, taken from `numbers` in list order;
   * factorial's one operand goes through `int()` first. Indexing a dict raises
   * KeyError, and `int()` of a non-numeral raises ValueError.
   */
  function Operands(op: Operation, numbers: Value): (r: Result<seq<Value>, string>)
    requires PyLen(numbers) == Ok(Arity(op))
    ensures r.Ok? ==> |r.value| == Arity(op)
    ensures r.Ok? && op != Factorial ==> forall k :: 0 <= k < Arity(op) ==> PyIndex(numbers, k) == Ok(r.value[k])
    ensures r.Ok? && op == Factorial ==>
      PyIndex(numbers, 0).Ok? && PyInt(PyIndex(numbers, 0).value).Ok?
      && r.value == [Int(PyInt(PyIndex(numbers, 0).value).value)]
    ensures numbers.Arr? && op != Factorial ==> r == Ok(numbers.items)
    ensures numbers.Arr? && op == Factorial ==>
      r == (match PyInt(numbers.items[0]) case Ok(n) => Ok([Int(n)]) case Err(e) => Err(e))
  {
    var first := PyIndex(numbers, 0);
    if first.Err? then Err(first.error)
    else if Arity(op) == 2 then
      var second := PyIndex(numbers, 1);
      if second.Err? then Err(second.error)
      else
        assert numbers.Arr? ==> numbers.items == [first.value, second.value];
        Ok([first.value, second.value])
    else if op == Factorial then
      match PyInt(first.value)
      case Ok(n) => Ok([Int(n)])
      case Err(e) => Err(e)
    else
      assert numbers.Arr? ==> numbers.items == [first.value];
      Ok([first.value])
  }

  /** `calculate` for the request's JSON body `data`. */
  function Calculate(data: Value, invoke: (string, map<string, Value>) -> Result<Extracted, string>): (r: WebReply)
    ensures r.Success? ==> data.Obj? && r.expression.result == r.result
                           && |r.expression.operands| == Arity(r.expression.op)
  {
    if !data.Obj? then Failure(NoAttribute(data, "get"))
    else
      var numbers := GetOr(data.fields, "numbers", Arr([]));
      match WebOperation(GetOr(data.fields, "operation", Null))
      case None => Failure(InvalidRequest)
      case Some(op) =>
        match PyLen(numbers)
        case Err(e) => Failure(e)
        case Ok(count) =>
          if count != Arity(op) then Failure(InvalidRequest)
          else
            match Operands(op, numbers)
            case Err(e) => Failure(e)
            case Ok(operands) =>
              var request := WrapperRequest(op, operands);
              match invoke(request.0, request.1)
              case Err(e) => Failure(e)
              case Ok(result) => Success(result, Expression(op, operands, result))
  }

  /**
   * The route's decision table: a body that is not an object, an unknown
   * operation, an operand count other than the operation's arity, or a
   * `numbers` without a length fails; a success names the requested
   * operation, calls its wrapper with the operands in list order, and shows
   * the same operands and result in its expression.
   */
  lemma CalculateSpec(data: Value, invoke: (string, map<string, Value>) -> Result<Extracted, string>)
    ensures !data.Obj? ==> Calculate(data, invoke) == Failure(NoAttribute(data, "get"))
    ensures data.Obj? ==>
      var op := WebOperation(GetOr(data.fields, "operation", Null));
      var numbers := GetOr(data.fields, "numbers", Arr([]));
      var r := Calculate(data, invoke);
      && (op.None? ==> r == Failure(InvalidRequest))
      && (op.Some? && PyLen(numbers).Err? ==> r == Failure(PyLen(numbers).error))
      && (op.Some? && PyLen(numbers).Ok? && PyLen(numbers).value != Arity(op.value) ==> r == Failure(InvalidRequest))
      && (r.Success? ==>
            && op.Some? && PyLen(numbers) == Ok(Arity(op.value))
            && Operands(op.value, numbers).Ok?
            && var operands := Operands(op.value, numbers).value;
               var request := WrapperRequest(op.value, operands);
               && invoke(request.0, request.1) == Ok(r.result)
               && r.expression == Expression(op.value, operands, r.result))
      && (r.Failure? && op.Some? && PyLen(numbers) == Ok(Arity(op.value)) && Operands(op.value, numbers).Ok? ==>
            var request := WrapperRequest(op.value, Operands(op.value, numbers).value);
            invoke(request.0, request.1) == Err(r.error))
  {
  }

  /**
   * A request `{"operation": name, "numbers": [x, y]}` for a binary operation
   * calls its wrapper's tool with x and y under the wrapper's keys, first
   * operand first.
   */
  lemma BinaryRequest(name: string, x: Value, y: Value, invoke: (string, map<string, Value>) -> Result<Extracted, string>)
    requires WebOperation(Str(name)).Some? && Arity(WebOperation(Str(name)).value) == 2
    ensures var op := WebOperation(Str(name)).value;
      var keys := ArgumentKeys(op);
      var r := Calculate(Obj(map["operation" := Str(name), "numbers" := Arr([x, y])]), invoke);
      && |keys| == 2
      && (invoke(ToolName(op), map[keys[0] := x, keys[1] := y]).Ok? <==> r.Success?)
      && (r.Success? ==> r.expression.operands == [x, y])
  {
    var op := WebOperation(Str(name)).value;
    var data := Obj(map["operation" := Str(name), "numbers" := Arr([x, y])]);
    assert GetOr(data.fields, "numbers", Arr([])) == Arr([x, y]);
    assert Operands(op, Arr([x, y])) == Ok([x, y]);
    var request := WrapperRequest(op, [x, y]);
    assert request.1 == map[ArgumentKeys(op)[0] := x, ArgumentKeys(op)[1] := y];
  }

  /** A missing `numbers` is an empty list, which no operation accepts. */
  lemma MissingNumbers(data: map<string, Value>, invoke: (string, map<string, Value>) -> Result<Extracted, string>)
    requires "numbers" !in data
    ensures Calculate(Obj(data), invoke) == Failure(InvalidRequest)
  {
    assert GetOr(data, "numbers", Arr([])) == Arr([]);
  }

  /** Factorial sends `int()` of its operand, and reports the ValueError of an operand `int()` refuses. */
  lemma FactorialRequest(x: Value, invoke: (string, map<string, Value>) -> Result<Extracted, string>)
    ensures var r := Calculate(Obj(map["operation" := Str("factorial"), "numbers" := Arr([x])]), invoke);
      && (PyInt(x).Err? ==> r == Failure(PyInt(x).error))
      && (PyInt(x).Ok? ==>
            && (invoke("factorial", map["number" := Int(PyInt(x).value)]).Ok? <==> r.Success?)
            && (r.Success? ==> r.expression.operands == [Int(PyInt(x).value)]))
  {
    if PyInt(x).Ok? {
      FactorialSent(x, PyInt(x).value, invoke);
    } else {
      FactorialRefused(x, PyInt(x).error, invoke);
    }
  }

  /** The request as far as the operand: `{"operation": "factorial", "numbers": [x]}` selects factorial with one operand. */
  lemma FactorialSelectedOnce(x: Value)
    ensures var d := map["operation" := Str("factorial"), "numbers" := Arr([x])];
      && GetOr(d, "numbers", Arr([])) == Arr([x])
      && WebOperation(GetOr(d, "operation", Null)) == Some(Factorial)
      && PyLen(Arr([x])) == Ok(Arity(Factorial))
  {
    var d := map["operation" := Str("factorial"), "numbers" := Arr([x])];
    assert GetOr(d, "numbers", Arr([])) == Arr([x]);
    assert GetOr(d, "operation", Null) == Str("factorial");
    FactorialSelected();
    assert PyLen(Arr([x])) == Ok(1);
  }

  lemma FactorialRefused(x: Value, e: string, invoke: (string, map<string, Value>) -> Result<Extracted, string>)
    requires PyInt(x) == Err(e)
    ensures Calculate(Obj(map["operation" := Str("factorial"), "numbers" := Arr([x])]), invoke) == Failure(e)
  {
    FactorialSelectedOnce(x);
    assert Arr([x]).items[0] == x;
    assert Operands(Factorial, Arr([x])) == Err(e);
  }

  lemma FactorialSent(x: Value, n: int, invoke: (string, map<string, Value>) -> Result<Extracted, string>)
    requires PyInt(x) == Ok(n)
    ensures var r := Calculate(Obj(map["operation" := Str("factorial"), "numbers" := Arr([x])]), invoke);
      && (invoke("factorial", map["number" := Int(n)]).Ok? <==> r.Success?)
      && (r.Success? ==> r.expression.operands == [Int(n)])
  {
    FactorialSelectedOnce(x);
    assert Operands(Factorial, Arr([x])) == Ok([Int(n)]);
    assert WrapperRequest(Factorial, [Int(n)]) == ("factorial", map["number" := Int(n)]);
  }

  /** The name "factorial" selects the factorial wrapper. */
  lemma FactorialSelected()
    ensures WebOperation(Str("factorial")) == Some(Factorial)
  {
    var f := "factorial";
    assert f[0] == 'f';
    assert "add"[0] != 'f' && "subtract"[0] != 'f' && "multiply"[0] != 'f';
    assert "divide"[0] != 'f' && "power"[0] != 'f' && "sqrt"[0] != 'f';
  }
}
