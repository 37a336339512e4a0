/** The few JavaScript value semantics the pages depend on: optional values,
    string-valued JSON fields, truthiness, `String(v)`, `toLowerCase` and `join`. */
module Js {

  datatype Option<+T> = None | Some(value: T)

  /** A string-valued field of a parsed JSON reply: missing from the object
      (`undefined`), JSON `null`, or a string. */
  datatype JsValue = Undefined | Null | Str(s: string)

  /** JavaScript truthiness of such a field: only a non-empty string is truthy. */
  predicate Truthy(v: JsValue) {
    v.Str? && v.s != ""
  }

  /** Truthiness of a value read with `localStorage.getItem` or
      `URLSearchParams.get`: `null` (missing) and `""` are falsy. */
  predicate Present(o: Option<string>) {
    o.Some? && o.value != ""
  }

  /** `String(v)`: what `localStorage.setItem` stores and what `+` appends. */
  function ToJsString(v: JsValue): string {
    match v
    case Undefined => "undefined"
    case Null => "null"
    case Str(s) => s
  }

  /** `v || fallback` for a string-valued field. */
  function OrElse(v: JsValue, fallback: string): (r: string)
    ensures Truthy(v) ==> r == v.s
    ensures !Truthy(v) ==> r == fallback
  {
    if Truthy(v) then v.s else fallback
  }

  function LowerChar(c: char): char {
    if 'A' <= c <= 'Z' then (c as int + 32) as char else c
  }

  predicate IsLower(s: string) {
    forall i :: 0 <= i < |s| ==> !('A' <= s[i] <= 'Z')
  }

  /** `s.toLowerCase()`, restricted to the ASCII letters. */
  function Lower(s: string): (r: string)
    ensures |r| == |s|
    ensures forall i :: 0 <= i < |s| ==> r[i] == LowerChar(s[i])
    ensures IsLower(r)
  {
    if s == [] then [] else [LowerChar(s[0])] + Lower(s[1..])
  }

  /** Lowercasing twice is lowercasing once, so a role that was lowercased
      before it was stored is unchanged when a reader lowercases it again. */
  lemma LowerIdempotent(s: string)
    ensures Lower(Lower(s)) == Lower(s)
  {
    var l := Lower(s);
    assert forall i :: 0 <= i < |l| ==> Lower(l)[i] == l[i];
  }

  /** `xs.join(sep)`. */
  function Join(xs: seq<string>, sep: string): (r: string)
    ensures |xs| == 1 ==> r == xs[0]
    ensures sep != "" ==> (r == "" <==> |xs| == 0 || (|xs| == 1 && xs[0] == ""))
  {
    if |xs| == 0 then ""
    else if |xs| == 1 then xs[0]
    else xs[0] + sep + Join(xs[1..], sep)
  }
}
