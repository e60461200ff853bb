/** JavaScript values as the handlers see them: what `express.json()` and
    `JSON.parse` can produce, plus `undefined` for a missing property. */
module Js {

  datatype JsValue =
    | Undefined
    | Null
    | Bool(b: bool)
    | Num(n: real)
    | Str(s: string)
    | Arr(elems: seq<JsValue>)
    | Obj(fields: map<string, JsValue>)

  /** ToBoolean (section 7.1.2 of ECMA-262): `!v` is `!Truthy(v)`. A JSON
      number is never NaN, and -0 and +0 are the same real. */
  predicate Truthy(v: JsValue)
  {
    match v
    case Undefined => false
    case Null => false
    case Bool(b) => b
    case Num(n) => n != 0.0
    case Str(s) => s != ""
    case Arr(_) => true
    case Obj(_) => true
  }

  /** The five falsy values a request body can carry; every other value,
      including `"0"`, `"false"`, `[]` and `{}`, is truthy. */
  lemma FalsyExactly(v: JsValue)
    ensures !Truthy(v) <==> v in {Undefined, Null, Bool(false), Num(0.0), Str("")}
  {
  }

  /** `const { k } = v` throws a TypeError when `v` is `undefined` or `null`;
      on any other value it reads a property. */
  predicate Destructurable(v: JsValue)
  {
    !v.Undefined? && !v.Null?
  }

  /** The property `key` of `v`, `undefined` when absent. For the keys the
      handlers read (`nombre`, `precio`, `nuevoPrecio`) only a plain object
      can have the property: strings, numbers, booleans and arrays have no
      such own or inherited property. */
  function Get(v: JsValue, key: string): JsValue
  {
    if v.Obj? && key in v.fields then v.fields[key] else Undefined
  }
}
