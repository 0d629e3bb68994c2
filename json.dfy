/**
 * JSON documents as the scripts hold them after `json.load` / `response.json()`,
 * and the dynamically typed Python operations the scripts apply to them:
 * truthiness, `in`, subscripting, `.get`, iteration and `str()`. An operation
 * that Python would reject with an exception yields `Raised`.
 */
module Json {
  import opened Wrappers
  import opened Strings
  import Dict

  /** A dictionary key: JSON text only has string keys; integer keys appear after conversion. */
  datatype Key = Name(name: string) | Index(n: int)

  datatype Json =
    | Null
    | Bool(b: bool)
    | Int(i: int)
    | Float(f: real)
    | Str(s: string)
    | Arr(items: seq<Json>)
    | Obj(fields: seq<(Key, Json)>)

  /** The exceptions the scripts can raise on malformed data. */
  datatype PyError = TypeError | KeyError | IndexError | AttributeError | ValueError(message: string)

  datatype Result<T> = Ok(value: T) | Raised(error: PyError) {
    /** The outcome with the kind of exception forgotten. */
    function ToOption(): (o: Option<T>)
      ensures o.Some? <==> Ok?
    {
      match this
      case Ok(v) => Some(v)
      case Raised(_) => None
    }
  }

  /** `bool(j)`. */
  predicate Truthy(j: Json) {
    match j
    case Null => false
    case Bool(b) => b
    case Int(i) => i != 0
    case Float(f) => f != 0.0
    case Str(s) => s != []
    case Arr(items) => items != []
    case Obj(fields) => fields != []
  }

  /** `name in j`: a key of a dict, an element of a list, a substring of a string. */
  function In(name: string, j: Json): (r: Result<bool>)
    ensures r.Ok? <==> (j.Obj? || j.Arr? || j.Str?)
    ensures j.Obj? ==> r == Ok(Dict.HasKey(j.fields, Name(name)))
  {
    match j
    case Obj(fields) => Ok(Dict.HasKey(fields, Name(name)))
    case Arr(items) => Ok(Str(name) in items)
    case Str(s) => Ok(Contains(s, name))
    case _ => Raised(TypeError)
  }

  /** `j[name]` with a string subscript: only a dict holding the key answers. */
  function Item(j: Json, name: string): (r: Result<Json>)
    ensures r.Ok? <==> j.Obj? && Dict.HasKey(j.fields, Name(name))
  {
    match j
    case Obj(fields) =>
      (match Dict.Get(fields, Name(name))
       case Some(v) => Ok(v)
       case None => Raised(KeyError))
    case _ => Raised(TypeError)
  }

  /** `j[i]` with a small non-negative integer subscript. */
  function At(j: Json, i: nat): (r: Result<Json>)
    ensures j.Arr? ==> (r.Ok? <==> i < |j.items|)
    ensures j.Arr? && i < |j.items| ==> r.value == j.items[i]
  {
    match j
    case Arr(items) => if i < |items| then Ok(items[i]) else Raised(IndexError)
    case Str(s) => if i < |s| then Ok(Str([s[i]])) else Raised(IndexError)
    case Obj(fields) =>
      (match Dict.Get(fields, Index(i))
       case Some(v) => Ok(v)
       case None => Raised(KeyError))
    case _ => Raised(TypeError)
  }

  /** `j.get(name, default)`: only dicts have `.get`. */
  function GetOr(j: Json, name: string, default: Json): (r: Result<Json>)
    ensures r.Ok? <==> j.Obj?
    ensures j.Obj? && !Dict.HasKey(j.fields, Name(name)) ==> r.value == default
  {
    match j
    case Obj(fields) => Ok(Dict.Get(fields, Name(name)).GetOr(default))
    case _ => Raised(AttributeError)
  }

  /** The items a `for` loop over `j` visits: list elements, characters, or dict keys. */
  function Iter(j: Json): (r: Result<seq<Json>>)
    ensures r.Ok? <==> (j.Arr? || j.Str? || j.Obj?)
    ensures j.Arr? ==> r == Ok(j.items)
  {
    match j
    case Arr(items) => Ok(items)
    case Str(s) => Ok(seq(|s|, i requires 0 <= i < |s| => Str([s[i]])))
    case Obj(fields) => Ok(seq(|fields|, i requires 0 <= i < |fields| => KeyValue(fields[i].0)))
    case _ => Raised(TypeError)
  }

  /** A dictionary key as a value. */
  function KeyValue(k: Key): Json {
    match k
    case Name(s) => Str(s)
    case Index(n) => Int(n)
  }

  /** `str(k)` for a dictionary key. */
  function ShowKey(k: Key): string {
    match k
    case Name(s) => s
    case Index(n) => IntToString(n)
  }

  /** `repr(k)` for a dictionary key. */
  function ReprKey(k: Key): string {
    match k
    case Name(s) => ReprString(s)
    case Index(n) => IntToString(n)
  }

  /** `str(j)`: strings as they are, everything else as its `repr`. */
  function Show(j: Json): string {
    if j.Str? then j.s else Repr(j)
  }

  /** `repr(j)`: strings quoted and escaped as Python does. */
  function Repr(j: Json): string {
    match j
    case Null => "None"
    case Bool(b) => if b then "True" else "False"
    case Int(i) => IntToString(i)
    case Float(f) => ShowFloat(f)
    case Str(s) => ReprString(s)
    case Arr(items) =>
      "[" + Join(", ", seq(|items|, i requires 0 <= i < |items| => Repr(items[i]))) + "]"
    case Obj(fields) =>
      "{" + Join(", ", seq(|fields|, i requires 0 <= i < |fields| =>
                             assert fields[i] in fields && fields[i].1 < fields[i];
                             ReprKey(fields[i].0) + ": " + Repr(fields[i].1))) + "}"
  }

  /**
   * A float's text: whole numbers below 1e16 in magnitude as Python writes them
   * (`3.0`); other values (fractions, and the exponent form Python uses from
   * 1e16 on) are not rendered digit by digit.
   */
  function ShowFloat(f: real): string {
    if f == f.Floor as real && -10000000000000000.0 < f < 10000000000000000.0 then IntToString(f.Floor) + ".0"
    else "<float>"
  }
}
