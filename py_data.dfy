/**
 * The values that `json.loads` and `response.json()` hand to the calculator,
 * and the few Python operations the response handler applies to them:
 * truthiness, subscripting by a key or by 0, and `dict.get`.
 *
 * A Python exception is a value here: an operation returns `Raise(e)`
 * instead of raising.
 */
module PyData {

  datatype Option<+T> = None | Some(value: T)

  /** A decoded JSON value, as Python holds it after `json.loads`:
      `None`, `bool`, `int`, `float`, `str`, `list` or `dict`. */
  datatype Json =
    | Null
    | Bool(b: bool)
    | Int(i: int)
    | Float(x: real)
    | Str(s: string)
    | Arr(items: seq<Json>)
    | Obj(fields: map<string, Json>)

  /** The exceptions the modelled code can raise. */
  datatype PyError = KeyError | IndexError | TypeError | AttributeError | JSONDecodeError

  /** The result of a Python expression: its value, or the exception it raises. */
  datatype Py<+T> = Ok(value: T) | Raise(error: PyError) {
    predicate IsFailure() { Raise? }

    function PropagateFailure<U>(): Py<U>
      requires Raise?
    {
      Raise(error)
    }

    function Extract(): T
      requires Ok?
    {
      value
    }
  }

  /** Python's `bool(v)`: None, False, zero and empty containers are false. */
  predicate Truthy(v: Json)
    ensures v.Null? ==> !Truthy(v)
    ensures v.Bool? ==> (Truthy(v) <==> v.b)
    ensures v.Int? || v.Float? ==> (Truthy(v) <==> NumberValue(v) != 0.0)
    ensures v.Str? ==> (Truthy(v) <==> |v.s| > 0)
    ensures v.Arr? ==> (Truthy(v) <==> |v.items| > 0)
    ensures v.Obj? ==> (Truthy(v) <==> |v.fields| > 0)
  {
    match v
    case Null => false
    case Bool(b) => b
    case Int(i) => i != 0
    case Float(x) => x != 0.0
    case Str(s) => s != []
    case Arr(items) => items != []
    case Obj(fields) => fields != map[]
  }

  /** `bool` is a subclass of `int`, so `True` and `False` take part in arithmetic. */
  predicate IsIntegral(v: Json) { v.Bool? || v.Int? }

  predicate IsNumber(v: Json) { IsIntegral(v) || v.Float? }

  function IntValue(v: Json): int
    requires IsIntegral(v)
  {
    match v
    case Bool(b) => if b then 1 else 0
    case Int(i) => i
  }

  function NumberValue(v: Json): real
    requires IsNumber(v)
  {
    if v.Float? then v.x else IntValue(v) as real
  }

  /** `v[key]` for a string key: only a dict can be subscripted by a string. */
  function Item(v: Json, key: string): (r: Py<Json>)
    ensures r.Ok? <==> v.Obj? && key in v.fields
    ensures r.Ok? ==> r.value == v.fields[key]
    ensures r.Raise? ==> (r.error == KeyError <==> v.Obj?)
    ensures r.Raise? ==> r.error in {KeyError, TypeError}
  {
    match v
    case Obj(fields) => if key in fields then Ok(fields[key]) else Raise(KeyError)
    case _ => Raise(TypeError)
  }

  /** `v[0]`: the first element of a list, the first character of a string;
      a dict is looked up with the integer key 0, which no JSON object has. */
  function First(v: Json): (r: Py<Json>)
    ensures r.Ok? <==> (v.Arr? && v.items != []) || (v.Str? && v.s != [])
    ensures r.Ok? && v.Arr? ==> r.value == v.items[0]
    ensures r.Ok? && v.Str? ==> r.value == Str([v.s[0]])
    ensures r == Raise(IndexError) <==> v in {Arr([]), Str([])}
    ensures r == Raise(KeyError) <==> v.Obj?
    ensures r == Raise(TypeError) <==> v.Null? || v.Bool? || v.Int? || v.Float?
    ensures r.Raise? ==> r.error in {IndexError, KeyError, TypeError}
  {
    match v
    case Arr(items) => if items == [] then Raise(IndexError) else Ok(items[0])
    case Str(s) => if s == [] then Raise(IndexError) else Ok(Str([s[0]]))
    case Obj(_) => Raise(KeyError)
    case _ => Raise(TypeError)
  }

  /** `v.get(key, None)`: the value under `key`, or None when the key is absent;
      only a dict has a `get` method. */
  function Get(v: Json, key: string): (r: Py<Json>)
    ensures r.Ok? <==> v.Obj?
    ensures r.Ok? ==> r.value == (if key in v.fields then v.fields[key] else Null)
    ensures r.Raise? ==> r.error == AttributeError
  {
    match v
    case Obj(fields) => Ok(if key in fields then fields[key] else Null)
    case _ => Raise(AttributeError)
  }

  /** `json.loads(v)` with the decoder given as a parameter: a string that does
      not decode raises JSONDecodeError, and anything but a string is a TypeError. */
  function Loads(loads: string -> Option<Json>, v: Json): (r: Py<Json>)
    ensures r.Ok? <==> v.Str? && loads(v.s).Some?
    ensures r.Ok? ==> r.value == loads(v.s).value
    ensures r == Raise(JSONDecodeError) <==> v.Str? && loads(v.s).None?
    ensures r == Raise(TypeError) <==> !v.Str?
  {
    match v
    case Str(s) =>
      (match loads(s)
       case Some(decoded) => Ok(decoded)
       case None => Raise(JSONDecodeError))
    case _ => Raise(TypeError)
  }
}
