/**
 * The JSON values the demo plugin receives, with the Python operations it
 * applies to them: `==`, `*`, `+`, `min` and `dict.get`. Python's `bool`
 * takes part in arithmetic as 0 or 1; `int` and `float` are kept apart
 * because `str * int` repeats the text while `str * float` is an error.
 */
module PyValues {
  import opened Wrappers

  datatype Value =
    | Int(i: int)
    | Float(r: real)
    | Flag(b: bool)
    | Str(s: string)
    | Null
    | Arr(items: seq<Value>)
    | Obj(fields: map<string, Value>)

  /** The exceptions the plugin's handlers can raise on these values. */
  datatype PyError = TypeError | AttributeError | ValueError

  /** An `int` or a `bool`: the operands sequence repetition accepts. */
  predicate Integral(v: Value) { v.Int? || v.Flag? }

  function IntOf(v: Value): int
    requires Integral(v)
  {
    if v.Int? then v.i else if v.b then 1 else 0
  }

  /** The numeric value of an `int`, `float` or `bool`; None for every other value. */
  function Number(v: Value): (r: Option<real>)
    ensures r.Some? <==> v.Int? || v.Float? || v.Flag?
    ensures Integral(v) ==> r == Some(IntOf(v) as real)
  {
    match v
    case Int(i) => Some(i as real)
    case Float(r) => Some(r)
    case Flag(b) => Some(if b then 1.0 else 0.0)
    case _ => None
  }

  /** `s * n` for a sequence: `n` copies, none for `n <= 0`. */
  function Repeat<T>(s: seq<T>, n: int): (r: seq<T>)
    ensures |r| == if n <= 0 then 0 else n * |s|
    decreases n
  {
    if n <= 0 then [] else s + Repeat(s, n - 1)
  }

  /** An integer product reads as the product of the two reals. */
  lemma ProductAsReal(x: int, y: int)
    ensures (x * y) as real == x as real * y as real
  {
  }

  /** Python's `a * b`: a number for two numbers, a repetition for a text or list and an `int`; otherwise `TypeError`. */
  function Multiply(a: Value, b: Value): (r: Result<Value, PyError>)
    ensures Number(a).Some? && Number(b).Some? ==> r.Ok? && Number(r.value) == Some(Number(a).value * Number(b).value)
    ensures r.Ok? && Number(r.value).None? ==> (a.Str? || a.Arr? || b.Str? || b.Arr?)
    ensures r.Ok? && Number(r.value).Some? ==> Number(a).Some? && Number(b).Some?
  {
    if Integral(a) && Integral(b) then
      ProductAsReal(IntOf(a), IntOf(b));
      Ok(Int(IntOf(a) * IntOf(b)))
    else if Number(a).Some? && Number(b).Some? then Ok(Float(Number(a).value * Number(b).value))
    else if a.Str? && Integral(b) then Ok(Str(Repeat(a.s, IntOf(b))))
    else if Integral(a) && b.Str? then Ok(Str(Repeat(b.s, IntOf(a))))
    else if a.Arr? && Integral(b) then Ok(Arr(Repeat(a.items, IntOf(b))))
    else if Integral(a) && b.Arr? then Ok(Arr(Repeat(b.items, IntOf(a))))
    else Err(TypeError)
  }

  /** `total += v` on a numeric running total: only a number can be added. */
  function AddTo(total: real, v: Value): (r: Result<real, PyError>)
    ensures r.Ok? <==> Number(v).Some?
    ensures r.Ok? ==> r.value == total + Number(v).value
  {
    match Number(v)
    case Some(n) => Ok(total + n)
    case None => Err(TypeError)
  }

  /** `v == Int(n)`: numbers compare by value (so `True == 1`), everything else is unequal. */
  predicate EqualsInt(v: Value, n: int) { Number(v) == Some(n as real) }

  /** `min(v, bound)`: `v` unless the bound is smaller; comparing a non-number raises `TypeError`. */
  function MinWith(v: Value, bound: int): (r: Result<Value, PyError>)
    ensures r.Ok? <==> Number(v).Some?
    ensures r.Ok? ==> Number(r.value).Some? && Number(r.value).value <= bound as real
    ensures r.Ok? && Number(v).value <= bound as real ==> r.value == v
    ensures r.Ok? && Number(v).value > bound as real ==> r.value == Int(bound)
  {
    match Number(v)
    case None => Err(TypeError)
    case Some(n) => if (bound as real) < n then Ok(Int(bound)) else Ok(v)
  }

  /** `obj.get(key, default)`; a value that is not an object has no `get`. */
  function Get(obj: Value, key: string, default: Value): (r: Result<Value, PyError>)
    ensures r.Ok? <==> obj.Obj?
    ensures obj.Obj? && key !in obj.fields ==> r == Ok(default)
    ensures obj.Obj? && key in obj.fields ==> r == Ok(obj.fields[key])
  {
    if !obj.Obj? then Err(AttributeError)
    else if key in obj.fields then Ok(obj.fields[key])
    else Ok(default)
  }

  /** `d.get(key, default)` on a dictionary the handler knows is one. */
  function Field(fields: map<string, Value>, key: string, default: Value): Value
  {
    if key in fields then fields[key] else default
  }
}
