/**
  The loosely-typed values that arrive over the platform method channel:
  the argument bag of a call is a map from argument names to such values.
 */
module Payload {

  datatype Option<+T> = None | Some(value: T)

  newtype int32 = x: int | -0x8000_0000 <= x < 0x8000_0000
  newtype int64 = x: int | -0x8000_0000_0000_0000 <= x < 0x8000_0000_0000_0000

  /** A channel value: Java `null`, a boxed primitive, a string, a list or a map. */
  datatype Value =
    | VNull
    | VBool(b: bool)
    | VInt(i: int32)
    | VLong(l: int64)
    | VDouble(d: real)
    | VStr(s: string)
    | VList(items: seq<Value>)
    | VMap(entries: map<string, Value>)

  /** Java's `Map.get`: the value under `key`, or null when the key is missing. */
  function Get(m: map<string, Value>, key: string): Value
  {
    if key in m then m[key] else VNull
  }

  /** What a Java `(String)` cast makes of a value: a string, null, or a ClassCastException. */
  datatype StringCast = CastOk(s: Option<string>) | CastFails

  function AsString(v: Value): StringCast
  {
    match v
    case VNull => CastOk(None)
    case VStr(s) => CastOk(Some(s))
    case _ => CastFails
  }
}
