/** The Python values the bot handles: decoded JSON documents, Python truthiness,
    the two ways the code reads a key out of a dict (`d[k]` and `d.get(k, default)`)
    and the `str()` conversion an f-string applies to a value. */
module Json {

  datatype Option<+T> = None | Some(value: T)

  /** The exceptions the modelled code can raise. */
  datatype PyError = KeyError | TypeError | AttributeError

  datatype Result<+T> = Ok(value: T) | Err(error: PyError) {
    predicate IsFailure() { Err? }

    function PropagateFailure<U>(): Result<U>
      requires Err?
    {
      Err(error)
    }

    function Extract(): T
      requires Ok?
    {
      value
    }
  }

  /** A decoded JSON value (Python None, bool, int, str, list, dict). */
  datatype Json =
    | JNull
    | JBool(b: bool)
    | JInt(i: int)
    | JStr(s: string)
    | JArr(items: seq<Json>)
    | JObj(fields: map<string, Json>)

  /** Python's `bool(v)`: None, False, 0, "", [] and {} are falsy. */
  predicate Truthy(v: Json): (r: bool)
    ensures !r <==> v == JNull || v == JBool(false) || v == JInt(0) || v == JStr("") || v == JArr([]) || v == JObj(map[])
  {
    match v
    case JNull => false
    case JBool(b) => b
    case JInt(i) => i != 0
    case JStr(s) => s != ""
    case JArr(items) => items != []
    case JObj(fields) => fields != map[]
  }

  /** Python's `v[key]` with a string key. Only a dict accepts a string
      subscript; every other value raises TypeError. */
  function Index(v: Json, key: string): (r: Result<Json>)
    ensures r.Ok? <==> v.JObj? && key in v.fields
    ensures r.Ok? ==> r.value == v.fields[key]
    ensures r == Err(KeyError) <==> v.JObj? && key !in v.fields
    ensures !v.JObj? ==> r == Err(TypeError)
  {
    match v
    case JObj(fields) => if key in fields then Ok(fields[key]) else Err(KeyError)
    case _ => Err(TypeError)
  }

  /** Python's `v.get(key, default)`. Only a dict has a `get` method. */
  function Get(v: Json, key: string, default: Json): (r: Result<Json>)
    ensures r.Ok? <==> v.JObj?
    ensures r.Ok? && key in v.fields ==> r.value == v.fields[key]
    ensures r.Ok? && key !in v.fields ==> r.value == default
    ensures r.Err? ==> r.error == AttributeError
  {
    match v
    case JObj(fields) => Ok(if key in fields then fields[key] else default)
    case _ => Err(AttributeError)
  }

  /** The number a string of decimal digits denotes, most significant first. */
  function DecimalValue(s: string): nat
    requires forall k :: 0 <= k < |s| ==> '0' <= s[k] <= '9'
  {
    if s == [] then 0
    else DecimalValue(s[..|s| - 1]) * 10 + (s[|s| - 1] - '0') as nat
  }

  /** Decimal digits of a natural number, most significant first, without
      leading zeros. */
  function Digits(n: nat): (r: string)
    ensures r != []
    ensures forall k :: 0 <= k < |r| ==> '0' <= r[k] <= '9'
    ensures DecimalValue(r) == n
    ensures |r| > 1 ==> r[0] != '0'
  {
    var d := ['0' + (n % 10) as char];
    if n < 10 then d
    else
      var prefix := Digits(n / 10);
      assert (prefix + d)[..|prefix + d| - 1] == prefix;
      prefix + d
  }

  /** Python's `str(v)`, as an f-string `f"{v}"` renders a value. */
  function Str(v: Json): (r: string)
    ensures v == JNull ==> r == "None"
    ensures v.JBool? ==> r == (if v.b then "True" else "False")
    ensures v.JStr? ==> r == v.s
    ensures v.JInt? && v.i >= 0 ==>
      && r != [] && (|r| > 1 ==> r[0] != '0')
      && (forall k :: 0 <= k < |r| ==> '0' <= r[k] <= '9') && DecimalValue(r) == v.i
    ensures v.JInt? && v.i < 0 ==>
      && |r| >= 2 && r[0] == '-' && r[1] != '0'
      && (forall k :: 1 <= k < |r| ==> '0' <= r[k] <= '9') && DecimalValue(r[1..]) == -v.i
  {
    match v
    case JNull => "None"
    case JBool(b) => if b then "True" else "False"
    case JInt(i) => if i < 0 then "-" + Digits(-i) else Digits(i)
    case JStr(s) => s
    case JArr(_) => "[...]"
    case JObj(_) => "{...}"
  }
}
