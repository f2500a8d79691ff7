/** The few JavaScript value semantics the model depends on: dynamic values
    (request bodies, `any` payloads) and the `||` defaulting idiom. Numbers are
    modelled as mathematical integers; `NaN` is its own value. */
module Js {
  import opened Wrappers

  /** A JavaScript value as it appears in request bodies and error payloads. */
  datatype Value =
    | Undefined
    | Null
    | Bool(b: bool)
    | Num(n: int)
    | NaN
    | Str(s: string)
    | Arr(items: seq<Value>)
    | Obj(fields: map<string, Value>)

  /** `n || d` for an optional number: `undefined` and `0` are falsy. */
  function NumOr(n: Option<int>, d: int): (r: int)
    ensures r == d || (n.Some? && r == n.value)
    ensures n.Some? && n.value != 0 ==> r == n.value
    ensures (n.None? || n.value == 0) ==> r == d
  {
    if n.Some? && n.value != 0 then n.value else d
  }

  /** `s || d` for an optional string: `undefined` and `''` are falsy. */
  function StrOr(s: Option<string>, d: string): (r: string)
    ensures r == d || (s.Some? && r == s.value)
    ensures s.Some? && s.value != "" ==> r == s.value
    ensures (s.None? || s.value == "") ==> r == d
  {
    if s.Some? && s.value != "" then s.value else d
  }
}
