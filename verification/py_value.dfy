/**
 * The dynamic values the Python scripts pass around after `json.loads`, and the
 * few pieces of Python semantics the scripts rely on: truthiness, `dict.get`,
 * the `+` and `*` operators, `len`, indexing, `int()`, `str()` of scalars and
 * the string methods `strip`, `lower` and `split`.
 *
 * Floating-point numbers are not part of this model: every JSON number is an `Int`.
 */
module PyValue {
  import opened Results

  /** A JSON-shaped Python value. */
  datatype Value =
    | Null                             // None
    | Bool(b: bool)
    | Int(i: int)
    | Str(s: string)
    | Arr(items: seq<Value>)           // list
    | Obj(fields: map<string, Value>)  // dict with string keys

  /** Python truthiness (`if v:`): None, False, 0 and empty containers are false. */
  predicate Truthy(v: Value) {
    match v
    case Null => false
    case Bool(b) => b
    case Int(i) => i != 0
    case Str(s) => s != []
    case Arr(xs) => xs != []
    case Obj(m) => m != map[]
  }

  /** The name Python gives the value's type in error messages. */
  function TypeName(v: Value): string {
    match v
    case Null => "NoneType"
    case Bool(_) => "bool"
    case Int(_) => "int"
    case Str(_) => "str"
    case Arr(_) => "list"
    case Obj(_) => "dict"
  }

  /** The text of the AttributeError raised by `v.attr` on a value that lacks it. */
  function NoAttribute(v: Value, attr: string): string {
    "'" + TypeName(v) + "' object has no attribute '" + attr + "'"
  }

  /** `d.get(key, default)` on a dict `d`. */
  function GetOr(d: map<string, Value>, key: string, default: Value): Value {
    if key in d then d[key] else default
  }

  /** Numbers in Python arithmetic: `bool` is a subclass of `int`. */
  predicate IsNumeric(v: Value) {
    v.Int? || v.Bool?
  }

  function AsInt(v: Value): int
    requires IsNumeric(v)
  {
    if v.Int? then v.i else if v.b then 1 else 0
  }

  /** Python's `v == 0`, which also holds of `False`. */
  predicate EqualsZero(v: Value) {
    IsNumeric(v) && AsInt(v) == 0
  }

  predicate IsSequence(v: Value) {
    v.Str? || v.Arr?
  }

  function Unsupported(operator: string, a: Value, b: Value): string {
    "unsupported operand type(s) for " + operator + ": '" + TypeName(a) + "' and '" + TypeName(b) + "'"
  }

  /**
   * Python's `a + b`: integer addition, string or list concatenation, or the
   * TypeError CPython raises for any other pair of operand types.
   */
  function PyAdd(a: Value, b: Value): (r: Result<Value, string>)
    ensures r.Ok? <==> (IsNumeric(a) && IsNumeric(b)) || (a.Str? && b.Str?) || (a.Arr? && b.Arr?)
    ensures IsNumeric(a) && IsNumeric(b) ==> r == Ok(Int(AsInt(a) + AsInt(b)))
    ensures a.Str? && b.Str? ==> r == Ok(Str(a.s + b.s))
    ensures a.Arr? && b.Arr? ==> r == Ok(Arr(a.items + b.items))
  {
    if IsNumeric(a) && IsNumeric(b) then Ok(Int(AsInt(a) + AsInt(b)))
    else if a.Str? then
      if b.Str? then Ok(Str(a.s + b.s))
      else Err("can only concatenate str (not \"" + TypeName(b) + "\") to str")
    else if a.Arr? then
      if b.Arr? then Ok(Arr(a.items + b.items))
      else Err("can only concatenate list (not \"" + TypeName(b) + "\") to list")
    else Err(Unsupported("+", a, b))
  }

  /** `s * n` for a Python sequence: `n` copies, none when `n <= 0`. */
  function Repeat<T>(s: seq<T>, n: int): seq<T>
    decreases n
  {
    if n <= 0 then [] else s + Repeat(s, n - 1)
  }

  /** `s * n` has `n` times the length of `s`, and is empty when `n <= 0`. */
  lemma {:induction false} RepeatLength<T>(s: seq<T>, n: int)
    ensures |Repeat(s, n)| == if n <= 0 then 0 else n * |s|
    decreases n
  {
    if n > 0 {
      RepeatLength(s, n - 1);
    }
  }

  function RepeatValue(v: Value, n: int): Value
    requires IsSequence(v)
  {
    if v.Str? then Str(Repeat(v.s, n)) else Arr(Repeat(v.items, n))
  }

  /**
   * Python's `a * b`: integer product, sequence repetition, or the TypeError
   * CPython raises.
   */
  function PyMul(a: Value, b: Value): (r: Result<Value, string>)
    ensures r.Ok? <==> (IsNumeric(a) && IsNumeric(b)) || (IsSequence(a) && IsNumeric(b))
                       || (IsNumeric(a) && IsSequence(b))
    ensures IsNumeric(a) && IsNumeric(b) ==> r == Ok(Int(AsInt(a) * AsInt(b)))
    ensures IsSequence(a) && IsNumeric(b) ==> r == Ok(RepeatValue(a, AsInt(b)))
    ensures IsNumeric(a) && IsSequence(b) ==> r == Ok(RepeatValue(b, AsInt(a)))
  {
    if IsNumeric(a) && IsNumeric(b) then Ok(Int(AsInt(a) * AsInt(b)))
    else if IsSequence(a) && IsNumeric(b) then Ok(RepeatValue(a, AsInt(b)))
    else if IsNumeric(a) && IsSequence(b) then Ok(RepeatValue(b, AsInt(a)))
    else if IsSequence(a) then Err("can't multiply sequence by non-int of type '" + TypeName(b) + "'")
    else if IsSequence(b) then Err("can't multiply sequence by non-int of type '" + TypeName(a) + "'")
    else Err(Unsupported("*", a, b))
  }

  /** Python's `len(v)`: defined on str, list and dict. */
  function PyLen(v: Value): (r: Result<nat, string>)
    ensures r.Ok? <==> v.Str? || v.Arr? || v.Obj?
    ensures v.Str? ==> r == Ok(|v.s|)
    ensures v.Arr? ==> r == Ok(|v.items|)
    ensures v.Obj? ==> r == Ok(|v.fields|)
  {
    match v
    case Str(s) => Ok(|s|)
    case Arr(xs) => Ok(|xs|)
    case Obj(m) => Ok(|m|)
    case _ => Err("object of type '" + TypeName(v) + "' has no len()")
  }

  /**
   * Python's `v[k]` for an integer `k` below `len(v)`. A dict parsed from JSON
   * has only string keys, so indexing it by an integer raises KeyError, whose
   * text is the key itself.
   */
  function PyIndex(v: Value, k: nat): (r: Result<Value, string>)
    requires PyLen(v).Ok? && k < PyLen(v).value
    ensures v.Str? ==> r == Ok(Str([v.s[k]]))
    ensures v.Arr? ==> r == Ok(v.items[k])
    ensures v.Obj? ==> r == Err(NatToDecimal(k))
  {
    match v
    case Str(s) => Ok(Str([s[k]]))
    case Arr(xs) => Ok(xs[k])
    case Obj(_) => Err(NatToDecimal(k))
  }

  // ---------------------------------------------------------------------
  // Decimal numerals: `str()` of an int and `int()` of a string.

  predicate IsDigit(c: char) {
    '0' <= c <= '9'
  }

  predicate AllDigits(s: string) {
    forall k :: 0 <= k < |s| ==> IsDigit(s[k])
  }

  function DigitChar(d: nat): char
    requires d < 10
  {
    ('0' as int + d) as char
  }

  /** The value of a string of decimal digits (0 for the empty string). */
  function DigitsValue(s: string): nat
    requires AllDigits(s)
    decreases |s|
  {
    if s == [] then 0 else 10 * DigitsValue(s[..|s| - 1]) + (s[|s| - 1] as int - '0' as int)
  }

  /** Python's `str(n)` for a natural number. */
  function NatToDecimal(n: nat): string
    decreases n
  {
    if n < 10 then [DigitChar(n)] else NatToDecimal(n / 10) + [DigitChar(n % 10)]
  }

  /** Python's `str(i)` for an int. */
  function IntToDecimal(i: int): string {
    if i < 0 then "-" + NatToDecimal(-i) else NatToDecimal(i)
  }

  /** The digits of `str(n)` are non-empty, all decimal, and read back as `n`. */
  lemma {:induction false} NatToDecimalDigits(n: nat)
    ensures NatToDecimal(n) != [] && AllDigits(NatToDecimal(n))
    ensures DigitsValue(NatToDecimal(n)) == n
    decreases n
  {
    var s := NatToDecimal(n);
    if n < 10 {
      assert s[..|s| - 1] == [];
    } else {
      var p := NatToDecimal(n / 10);
      NatToDecimalDigits(n / 10);
      assert s == p + [DigitChar(n % 10)];
      assert s[..|s| - 1] == p;
    }
  }

  /** The characters `str.isspace` accepts, which `str.strip` and `str.split` remove. */
  predicate IsSpace(c: char) {
    || ('\U{0009}' <= c <= '\U{000D}') || ('\U{001C}' <= c <= '\U{0020}')
    || c == '\U{0085}' || c == '\U{00A0}' || c == '\U{1680}'
    || ('\U{2000}' <= c <= '\U{200A}') || c == '\U{2028}' || c == '\U{2029}'
    || c == '\U{202F}' || c == '\U{205F}' || c == '\U{3000}'
  }

  function TrimStart(s: string): string
    decreases |s|
  {
    if s != [] && IsSpace(s[0]) then TrimStart(s[1..]) else s
  }

  function TrimEnd(s: string): string
    decreases |s|
  {
    if s != [] && IsSpace(s[|s| - 1]) then TrimEnd(s[..|s| - 1]) else s
  }

  /** Python's `s.strip()`: the string without leading and trailing whitespace. */
  function Strip(s: string): (t: string)
    ensures t == [] || (!IsSpace(t[0]) && !IsSpace(t[|t| - 1]))
  {
    TrimStartClean(s);
    TrimEndClean(TrimStart(s));
    TrimEnd(TrimStart(s))
  }

  /**
   * `s.strip()` is a slice of `s` that neither starts nor ends with
   * whitespace, and everything cut off on either side is whitespace.
   */
  lemma StripSpec(s: string)
    ensures var t := Strip(s);
      && (t == [] || (!IsSpace(t[0]) && !IsSpace(t[|t| - 1])))
      && exists i, j :: 0 <= i <= j <= |s| && t == s[i..j]
                        && (forall k :: 0 <= k < i ==> IsSpace(s[k]))
                        && (forall k :: j <= k < |s| ==> IsSpace(s[k]))
  {
    var u := TrimStart(s);
    TrimStartClean(s);
    TrimEndClean(u);
    var i := |s| - |u|;
    var t := TrimEnd(u);
    var j := i + |t|;
    assert t == s[i..j];
    assert forall k :: j <= k < |s| ==> s[k] == u[k - i];
    assert forall k :: j <= k < |s| ==> IsSpace(s[k]);
    assert 0 <= i <= j <= |s| && t == s[i..j]
           && (forall k :: 0 <= k < i ==> IsSpace(s[k])) && (forall k :: j <= k < |s| ==> IsSpace(s[k]));
  }

  lemma {:induction false} TrimStartClean(s: string)
    ensures var t := TrimStart(s); t == [] || !IsSpace(t[0])
    ensures var t := TrimStart(s); |t| <= |s| && t == s[|s| - |t|..]
    ensures var t := TrimStart(s); forall k :: 0 <= k < |s| - |t| ==> IsSpace(s[k])
    decreases |s|
  {
    if s != [] && IsSpace(s[0]) {
      TrimStartClean(s[1..]);
    }
  }

  lemma {:induction false} TrimEndClean(s: string)
    ensures var t := TrimEnd(s); t == [] || !IsSpace(t[|t| - 1])
    ensures var t := TrimEnd(s); |t| <= |s| && t == s[..|t|]
    ensures var t := TrimEnd(s); forall k :: |t| <= k < |s| ==> IsSpace(s[k])
    ensures s != [] && !IsSpace(s[0]) ==> var t := TrimEnd(s); t != [] && t[0] == s[0]
    decreases |s|
  {
    if s != [] && IsSpace(s[|s| - 1]) {
      TrimEndClean(s[..|s| - 1]);
      assert s[..|s| - 1][..|TrimEnd(s)|] == s[..|TrimEnd(s)|];
    }
  }

  /** Python's `int(s)` for a string: optional surrounding whitespace, optional sign, digits. */
  function ParseDecimal(s: string): Option<int> {
    var t := Strip(s);
    if t != [] && (t[0] == '-' || t[0] == '+') then
      var d := t[1..];
      if d != [] && AllDigits(d) then
        var magnitude: int := DigitsValue(d);
        Some(if t[0] == '-' then -magnitude else magnitude)
      else None
    else if t != [] && AllDigits(t) then Some(DigitsValue(t))
    else None
  }

  /** `int(str(i)) == i`: the decimal rendering of an int parses back to it. */
  lemma IntToDecimalRoundTrip(i: int)
    ensures ParseDecimal(IntToDecimal(i)) == Some(i)
  {
    var n: nat := if i < 0 then -i else i;
    NatToDecimalDigits(n);
    ParseDigits(NatToDecimal(n));
  }

  /** A digit string, bare or after a minus sign, parses to its value or its negation. */
  lemma ParseDigits(d: string)
    requires d != [] && AllDigits(d)
    ensures ParseDecimal(d) == Some(DigitsValue(d))
    ensures ParseDecimal("-" + d) == Some(-(DigitsValue(d) as int))
  {
    assert IsDigit(d[0]) && IsDigit(d[|d| - 1]);
    StripUnspaced(d);
    ParseNegated(d);
  }

  /** A minus sign followed by digits parses to the negated value. */
  lemma ParseNegated(d: string)
    requires d != [] && AllDigits(d)
    ensures ParseDecimal("-" + d) == Some(-(DigitsValue(d) as int))
  {
    var s := "-" + d;
    assert IsDigit(d[|d| - 1]);
    assert s[0] == '-' && s[|s| - 1] == d[|d| - 1] && s[1..] == d;
    StripUnspaced(s);
  }

  /** A string that neither starts nor ends with whitespace is its own `strip()`. */
  lemma StripUnspaced(s: string)
    requires s != [] && !IsSpace(s[0]) && !IsSpace(s[|s| - 1])
    ensures Strip(s) == s
  {
    assert TrimStart(s) == s;
    assert TrimEnd(s) == s;
  }

  /** Python's `int(v)` for a value decoded from JSON. */
  function PyInt(v: Value): (r: Result<int, string>)
    ensures IsNumeric(v) ==> r == Ok(AsInt(v))
    ensures v.Str? ==> (r.Ok? <==> ParseDecimal(v.s).Some?)
    ensures v.Str? && r.Ok? ==> r.value == ParseDecimal(v.s).value
    ensures v.Null? || v.Arr? || v.Obj? ==> r.Err?
  {
    match v
    case Int(i) => Ok(i)
    case Bool(b) => Ok(if b then 1 else 0)
    case Str(s) =>
      (match ParseDecimal(s)
       case Some(n) => Ok(n)
       case None => Err("invalid literal for int() with base 10: '" + s + "'"))
    case _ => Err("int() argument must be a string, a bytes-like object or a real number, not '"
                  + TypeName(v) + "'")
  }

  /**
   * Python's `str(v)` (and so an f-string field) for a value. Lists and dicts
   * are rendered by a placeholder, not by Python's repr of their items.
   */
  function PyStr(v: Value): string {
    match v
    case Null => "None"
    case Bool(b) => if b then "True" else "False"
    case Int(i) => IntToDecimal(i)
    case Str(s) => s
    case Arr(_) => "[...]"
    case Obj(_) => "{...}"
  }

  // ---------------------------------------------------------------------
  // String methods used by the command parser.

  function LowerChar(c: char): char {
    if 'A' <= c <= 'Z' then (c as int - 'A' as int + 'a' as int) as char else c
  }

  /** Python's `s.lower()` (ASCII letters only). */
  function Lower(s: string): (t: string)
    ensures |t| == |s| && forall k :: 0 <= k < |s| ==> t[k] == LowerChar(s[k])
  {
    seq(|s|, k requires 0 <= k < |s| => LowerChar(s[k]))
  }

  /** The longest prefix of `s` without whitespace. */
  function WordAt(s: string): (w: string)
    ensures |w| <= |s| && w == s[..|w|]
    ensures s != [] && !IsSpace(s[0]) ==> w != []
    ensures forall k :: 0 <= k < |w| ==> !IsSpace(w[k])
    decreases |s|
  {
    if s == [] || IsSpace(s[0]) then [] else [s[0]] + WordAt(s[1..])
  }

  /** Python's `s.split()`: the maximal runs of non-whitespace characters, in order. */
  function Words(s: string): seq<string>
    decreases |s|
  {
    if s == [] then []
    else if IsSpace(s[0]) then Words(s[1..])
    else var w := WordAt(s); [w] + Words(s[|w|..])
  }

  /** Every word `split()` yields is non-empty and free of whitespace. */
  lemma {:induction false} WordsAreTokens(s: string)
    ensures forall w :: w in Words(s) ==> w != [] && forall k :: 0 <= k < |w| ==> !IsSpace(w[k])
    decreases |s|
  {
    if s == [] {
    } else if IsSpace(s[0]) {
      WordsAreTokens(s[1..]);
    } else {
      WordsAreTokens(s[|WordAt(s)|..]);
    }
  }

  /** A string with no whitespace at all splits into itself alone (or nothing when empty). */
  lemma {:induction false} WordsOfToken(s: string)
    requires forall k :: 0 <= k < |s| ==> !IsSpace(s[k])
    ensures Words(s) == if s == [] then [] else [s]
  {
    if s != [] {
      WordAtWhole(s);
      assert s[|s|..] == [];
    }
  }

  /**
   * A whitespace character separates words: splitting `a + sp + b` gives the
   * words of `a` followed by the words of `b`.
   */
  lemma {:induction false} WordsSplitAtSpace(a: string, sp: char, b: string)
    requires IsSpace(sp)
    ensures Words(a + [sp] + b) == Words(a) + Words(b)
    decreases |a|
  {
    var x := a + [sp] + b;
    if a == [] {
      assert x[1..] == b;
    } else if IsSpace(a[0]) {
      assert x[1..] == a[1..] + [sp] + b;
      WordsSplitAtSpace(a[1..], sp, b);
    } else {
      WordAtBeforeSpace(a, [sp] + b);
      assert x == a + ([sp] + b);
      var w := WordAt(a);
      assert x[|w|..] == a[|w|..] + [sp] + b;
      WordsSplitAtSpace(a[|w|..], sp, b);
    }
  }

  /** A word ends no later than the first whitespace character after it. */
  lemma {:induction false} WordAtBeforeSpace(a: string, t: string)
    requires t != [] && IsSpace(t[0])
    ensures WordAt(a + t) == WordAt(a)
    decreases |a|
  {
    if a == [] {
      assert a + t == t;
    } else {
      assert (a + t)[0] == a[0];
      assert (a + t)[1..] == a[1..] + t;
      WordAtBeforeSpace(a[1..], t);
    }
  }

  lemma {:induction false} WordAtWhole(s: string)
    requires forall k :: 0 <= k < |s| ==> !IsSpace(s[k])
    ensures WordAt(s) == s
    decreases |s|
  {
    if s != [] {
      WordAtWhole(s[1..]);
    }
  }
}
