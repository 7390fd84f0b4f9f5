/**
 * JavaScript values as the request/response layer sees them: parsed JSON
 * bodies, the `unknown` `details` payload of an error, and the `data` of a
 * response envelope. `Undefined` is kept apart from `Null` because the
 * layer distinguishes an absent field (`details?: unknown`) from `null`.
 */
module Json {
  datatype Value =
    | Undefined
    | Null
    | Bool(b: bool)
    | Num(n: real)
    | Str(s: string)
    | Arr(items: seq<Value>)
    | Obj(fields: map<string, Value>)

  /** Property access `v.k`: undefined unless `v` is an object holding `k`. */
  function Get(v: Value, k: string): (r: Value)
    ensures v.Obj? && k in v.fields ==> r == v.fields[k]
    ensures !(v.Obj? && k in v.fields) ==> r == Undefined
  {
    if v.Obj? && k in v.fields then v.fields[k] else Undefined
  }

  /** A list of strings as a JSON array. */
  function Strings(ss: seq<string>): (r: Value)
    ensures r.Arr? && |r.items| == |ss|
    ensures forall i :: 0 <= i < |ss| ==> r.items[i] == Str(ss[i])
  {
    Arr(seq(|ss|, i requires 0 <= i < |ss| => Str(ss[i])))
  }

  /** The type name a schema validator reports for a value it did not expect. */
  function TypeName(v: Value): (r: string)
  {
    match v
    case Undefined => "undefined"
    case Null => "null"
    case Bool(_) => "boolean"
    case Num(_) => "number"
    case Str(_) => "string"
    case Arr(_) => "array"
    case Obj(_) => "object"
  }
}
