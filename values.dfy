/** Python's dynamically typed values, as far as the client code inspects them,
    and Python's truthiness rule, which decides every `if x:` in the client. */
module PyValue {

  datatype Option<+T> = None | Some(value: T)

  /** A value that crosses the wire or sits in a client field: `None`, a bool,
      an int, a str, a list or a dict with string keys (JSON objects and
      XML-RPC structs only have string keys). */
  datatype Value =
    | Nil
    | Bool(b: bool)
    | Int(i: int)
    | Str(s: string)
    | List(items: seq<Value>)
    | Dict(fields: map<string, Value>)

  /** `bool(v)` in Python: `None`, `False`, `0`, `""`, `[]` and `{}` are falsy. */
  predicate Truthy(v: Value)
  {
    match v
    case Nil => false
    case Bool(b) => b
    case Int(i) => i != 0
    case Str(s) => s != ""
    case List(items) => items != []
    case Dict(fields) => fields != map[]
  }

  /** `len(v)` is defined (does not raise `TypeError`) exactly for sized values. */
  predicate Sized(v: Value)
  {
    v.Str? || v.List? || v.Dict?
  }

  /** A Python list of strings, such as a `fields` argument. */
  function Strs(names: seq<string>): (r: Value)
    ensures r.List? && |r.items| == |names|
    ensures forall i | 0 <= i < |names| :: r.items[i] == Str(names[i])
  {
    List(seq(|names|, i requires 0 <= i < |names| => Str(names[i])))
  }

  /** `d.get(key)`: the value under `key`, or `None` when the key is absent. */
  function Get(d: map<string, Value>, key: string): (r: Value)
    ensures key in d ==> r == d[key]
    ensures key !in d ==> r == Nil
  {
    if key in d then d[key] else Nil
  }

  /** The name Python gives the type of `v` in its error messages. */
  function TypeName(v: Value): string
  {
    match v
    case Nil => "NoneType"
    case Bool(_) => "bool"
    case Int(_) => "int"
    case Str(_) => "str"
    case List(_) => "list"
    case Dict(_) => "dict"
  }
}
