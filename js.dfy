/** A model of the JavaScript values the handlers receive from request
    bodies, JSON columns and courier replies, with the operators the source
    applies to them: truthiness, `||`, `??`, optional chaining `?.`,
    `String(v)`, `Number(v)` and `===`. Numbers are integers here; `JNaN`
    is the result of a failed `Number(...)` conversion. */
module Js {
  import opened Common

  datatype Json =
    | JUndef
    | JNull
    | JBool(b: bool)
    | JNum(n: int)
    | JNaN
    | JStr(s: string)
    | JArr(elems: seq<Json>)
    | JObj(fields: map<string, Json>)

  /** JavaScript truthiness. */
  predicate Truthy(v: Json) {
    match v
    case JUndef => false
    case JNull => false
    case JNaN => false
    case JBool(b) => b
    case JNum(n) => n != 0
    case JStr(s) => s != ""
    case _ => true
  }

  predicate Nullish(v: Json) {
    v.JUndef? || v.JNull?
  }

  /** `a || b` */
  function Or(a: Json, b: Json): Json {
    if Truthy(a) then a else b
  }

  /** `a ?? b` */
  function Coalesce(a: Json, b: Json): Json {
    if Nullish(a) then b else a
  }

  /** `v?.[key]`: a missing property, or a property of a non-object, is undefined. */
  function Get(v: Json, key: string): Json {
    if v.JObj? && key in v.fields then v.fields[key] else JUndef
  }

  /** `v?.[k1]?.[k2]...` along a path of keys. */
  function Path(v: Json, keys: seq<string>): Json
    decreases keys
  {
    if keys == [] then v else Path(Get(v, keys[0]), keys[1..])
  }

  /** The first truthy value along a list of paths, or `fallback`:
      `v?.a || v?.b?.c || ... || fallback`. */
  function FirstTruthy(v: Json, paths: seq<seq<string>>, fallback: Json): (r: Json)
    ensures (exists i :: 0 <= i < |paths| && Truthy(Path(v, paths[i]))) ==> Truthy(r)
    ensures (forall i :: 0 <= i < |paths| ==> !Truthy(Path(v, paths[i]))) ==> r == fallback
    ensures r == fallback || exists i :: 0 <= i < |paths| && r == Path(v, paths[i])
  {
    if paths == [] then fallback
    else Or(Path(v, paths[0]), FirstTruthy(v, paths[1..], fallback))
  }

  /** The chain stops at its first truthy operand: later ones are never read. */
  lemma {:induction false} FirstTruthyIsFirst(v: Json, paths: seq<seq<string>>, fallback: Json, i: int)
    requires 0 <= i < |paths| && Truthy(Path(v, paths[i]))
    requires forall j :: 0 <= j < i ==> !Truthy(Path(v, paths[j]))
    ensures FirstTruthy(v, paths, fallback) == Path(v, paths[i])
  {
    if i > 0 {
      FirstTruthyIsFirst(v, paths[1..], fallback, i - 1);
    }
  }

  /** `String(v)`. */
  function ToStr(v: Json): string {
    match v
    case JUndef => "undefined"
    case JNull => "null"
    case JBool(b) => if b then "true" else "false"
    case JNum(n) => IntToString(n)
    case JNaN => "NaN"
    case JStr(s) => s
    case JArr(es) => Join(es)
    case JObj(_) => "[object Object]"
  }

  /** `Array.prototype.join(',')`: null and undefined elements render empty. */
  function Join(es: seq<Json>): string
    decreases es
  {
    if es == [] then ""
    else
      var first := if Nullish(es[0]) then "" else ToStr(es[0]);
      if |es| == 1 then first else first + "," + Join(es[1..])
  }

  /** `Number(s)` on a string: blank is 0, an optionally signed run of
      digits is its value, anything else is NaN (`None`). Decimal points,
      exponents and hexadecimal are not modelled. */
  function StrToNumber(s: string): (r: Option<int>)
    ensures Trim(s) == "" ==> r == Some(0)
  {
    var t := Trim(s);
    if t == "" then Some(0)
    else
      var digits := if t[0] == '-' || t[0] == '+' then t[1..] else t;
      if digits != [] && AllDigits(digits) then
        Some(if t[0] == '-' then -(DigitsValue(digits) as int) else DigitsValue(digits))
      else None
  }

  /** `Number(v)`; `None` stands for NaN. Arrays and objects convert through
      their string form, as in JavaScript. */
  function NumberOf(v: Json): Option<int> {
    match v
    case JUndef => None
    case JNull => Some(0)
    case JBool(b) => Some(if b then 1 else 0)
    case JNum(n) => Some(n)
    case JNaN => None
    case JStr(s) => StrToNumber(s)
    case _ => StrToNumber(ToStr(v))
  }

  /** `Number(v)` as a value. */
  function ToNumber(v: Json): (r: Json)
    ensures r.JNum? || r.JNaN?
  {
    match NumberOf(v)
    case Some(n) => JNum(n)
    case None => JNaN
  }

  /** `a === b`: primitives compare by value, NaN equals nothing, and two
      arrays or objects decoded from separate JSON texts are distinct
      references. */
  predicate StrictEq(a: Json, b: Json) {
    !a.JArr? && !a.JObj? && !a.JNaN? && a == b
  }
}
