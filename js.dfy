/** JavaScript values as the frontend code sees them: truthiness, `String(v)`
    and property reads. Numbers are restricted to integers. */
module Js {
  import opened Common

  datatype JsValue =
    | Undefined
    | Null
    | Bool(b: bool)
    | Num(n: int)
    | Str(s: string)
    | Arr(items: seq<JsValue>)
    | Obj(props: map<string, JsValue>)

  /** JavaScript's truth test: undefined, null, false, 0 and "" are falsy;
      every array and object, even an empty one, is truthy. */
  predicate Truthy(v: JsValue)
  {
    match v
    case Undefined => false
    case Null => false
    case Bool(b) => b
    case Num(n) => n != 0
    case Str(s) => s != ""
    case Arr(_) => true
    case Obj(_) => true
  }

  /** `v == null`: null or undefined. */
  predicate Nullish(v: JsValue)
  {
    v.Undefined? || v.Null?
  }

  /** `typeof v === 'object'` (which holds for null and for arrays). */
  predicate IsObjectType(v: JsValue)
  {
    v.Null? || v.Arr? || v.Obj?
  }

  /** `v.key`: an own property of a plain object, undefined otherwise. */
  function Prop(v: JsValue, key: string): JsValue
  {
    if v.Obj? && key in v.props then v.props[key] else Undefined
  }

  /** `String(v)`. An array is joined with commas, and its null or undefined
      elements render as the empty string. */
  function Render(v: JsValue): string
    decreases v, 1
  {
    match v
    case Undefined => "undefined"
    case Null => "null"
    case Bool(b) => if b then "true" else "false"
    case Num(n) => IntToString(n)
    case Str(s) => s
    case Arr(items) => RenderItems(v, |items|)
    case Obj(_) => "[object Object]"
  }

  /** The first n elements of an array, joined with commas. */
  function RenderItems(v: JsValue, n: nat): string
    requires v.Arr? && n <= |v.items|
    decreases v, 0, n
  {
    if n == 0 then ""
    else
      var last := v.items[n - 1];
      var text := if Nullish(last) then "" else Render(last);
      if n == 1 then text else RenderItems(v, n - 1) + "," + text
  }

  /** A string renders as itself, and a truthy string never renders empty. */
  lemma RenderString(s: string)
    ensures Render(Str(s)) == s
    ensures Truthy(Str(s)) <==> Render(Str(s)) != ""
  {
  }
}
