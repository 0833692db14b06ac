/** The JSON values a tool call's `arguments` dictionary can hold, with the Python
    semantics the dispatcher relies on: truthiness, iteration and `dict.get`. */
module Values {
  import opened Wrappers

  /** A decoded JSON value as Python sees it. Floats are not modelled; a dict keeps
      its keys in insertion order. */
  datatype Value =
    | Null
    | Bool(b: bool)
    | Int(i: int)
    | Str(s: string)
    | Arr(elems: seq<Value>)
    | Obj(fields: seq<(string, Value)>)

  /** The `arguments` of a tool call: a dictionary from argument name to value. */
  type Arguments = map<string, Value>

  /** Python truthiness: `None`, `False`, `0` and empty containers are false. */
  predicate Truthy(v: Value) {
    match v
    case Null => false
    case Bool(b) => b
    case Int(i) => i != 0
    case Str(s) => |s| > 0
    case Arr(xs) => |xs| > 0
    case Obj(fs) => |fs| > 0
  }

  /** Python's `type(v).__name__`. */
  function TypeName(v: Value): string {
    match v
    case Null => "NoneType"
    case Bool(_) => "bool"
    case Int(_) => "int"
    case Str(_) => "str"
    case Arr(_) => "list"
    case Obj(_) => "dict"
  }

  /** What `for x in v` visits: a list its elements, a string its characters (as
      one-character strings), a dict its keys in order. `None`, booleans and
      integers are not iterable. */
  function Iterate(v: Value): (r: Option<seq<Value>>)
    ensures r.None? <==> v.Null? || v.Bool? || v.Int?
    ensures v.Arr? ==> r == Some(v.elems)
    ensures v.Str? ==> r.Some? && |r.value| == |v.s|
                       && forall i :: 0 <= i < |v.s| ==> r.value[i] == Str([v.s[i]])
    ensures v.Obj? ==> r.Some? && |r.value| == |v.fields|
                       && forall i :: 0 <= i < |v.fields| ==> r.value[i] == Str(v.fields[i].0)
  {
    match v
    case Arr(xs) => Some(xs)
    case Str(s) => Some(seq(|s|, i requires 0 <= i < |s| => Str([s[i]])))
    case Obj(fs) => Some(seq(|fs|, i requires 0 <= i < |fs| => Str(fs[i].0)))
    case _ => None
  }

  /** The message of the `TypeError` Python raises when iterating `v` fails. */
  function NotIterableMessage(v: Value): string {
    "'" + TypeName(v) + "' object is not iterable"
  }

  /** Python's `args.get(key, default)`: the default is used only when the key is
      absent, never when it is present with a falsy value. */
  function Get(args: Arguments, key: string, default: Value): Value {
    if key in args then args[key] else default
  }
}
