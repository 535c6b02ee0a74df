/**
 * The stdio math server `math_mcp`: three integer tools registered with FastMCP.
 */
module Maths {
  import opened Results
  import opened PyValue
  import opened McpTypes

  /** `add_numbers(num1, num2)`: Python's `num1 + num2` on two ints. */
  function AddNumbers(num1: int, num2: int): (sum: int)
    ensures PyAdd(Int(num1), Int(num2)) == Ok(Int(sum))
  {
    num1 + num2
  }

  /** `subtract_numbers(num1, num2)`: the second subtracted from the first. */
  function SubtractNumbers(num1: int, num2: int): (difference: int)
    ensures PyAdd(Int(difference), Int(num2)) == Ok(Int(num1))
  {
    num1 - num2
  }

  /** `multiply_numbers(num1, num2)`: Python's `num1 * num2` on two ints. */
  function MultiplyNumbers(num1: int, num2: int): (product: int)
    ensures PyMul(Int(num1), Int(num2)) == Ok(Int(product))
  {
    num1 * num2
  }

  /** The input schema of a tool taking `num1: int, num2: int`. */
  function TwoIntegers(): Value {
    Obj(map[
      "type" := Str("object"),
      "properties" := Obj(map[
        "num1" := Obj(map["type" := Str("integer")]),
        "num2" := Obj(map["type" := Str("integer")])]),
      "required" := Arr([Str("num1"), Str("num2")])])
  }

  /** The tools `math_mcp` lists, in registration order. */
  function Listing(): seq<Tool> {
    [ Tool("add_numbers", "Add two numbers together", TwoIntegers()),
      Tool("subtract_numbers", "Subtract the second number from the first", TwoIntegers()),
      Tool("multiply_numbers", "Multiply two numbers", TwoIntegers()) ]
  }

  predicate IsRegistered(name: string) {
    exists k :: 0 <= k < |Listing()| && Listing()[k].name == name
  }

  /** Exactly three tools are registered, each over two integer parameters; nothing else. */
  lemma RegisteredTools(name: string)
    ensures IsRegistered(name) <==> name in {"add_numbers", "subtract_numbers", "multiply_numbers"}
    ensures forall k :: 0 <= k < |Listing()| ==> Listing()[k].inputSchema == TwoIntegers()
    ensures !IsRegistered("divide_numbers") && !IsRegistered("power")
    ensures !IsRegistered("square_root") && !IsRegistered("factorial")
  {
    if name in {"add_numbers", "subtract_numbers", "multiply_numbers"} {
      var k := if name == "add_numbers" then 0 else if name == "subtract_numbers" then 1 else 2;
      assert Listing()[k].name == name;
    }
  }

  /** Subtraction takes the second operand from the first, so it undoes addition of it. */
  lemma SubtractUndoesAdd(num1: int, num2: int)
    ensures SubtractNumbers(AddNumbers(num1, num2), num2) == num1
    ensures AddNumbers(SubtractNumbers(num1, num2), num2) == num1
    ensures SubtractNumbers(num1, num2) == -SubtractNumbers(num2, num1)
  {
  }

  /** `n` additions of `num1`, starting from 0, through `add_numbers`. */
  function RepeatedAdd(num1: int, n: nat): int {
    if n == 0 then 0 else AddNumbers(RepeatedAdd(num1, n - 1), num1)
  }

  /** Multiplying by a natural number is repeated addition. */
  lemma {:induction false} MultiplyIsRepeatedAdd(num1: int, n: nat)
    ensures MultiplyNumbers(num1, n) == RepeatedAdd(num1, n)
  {
    if n > 0 {
      MultiplyIsRepeatedAdd(num1, n - 1);
      assert MultiplyNumbers(num1, n) == MultiplyNumbers(num1, n - 1) + num1;
    }
  }
}
