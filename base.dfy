/**
 * Small value types shared by every module of the enrollment model: an
 * optional value, bytes, and the slice of JavaScript values whose
 * truthiness the request and error handling depend on.
 */
module Base {

  datatype Option<+T> = None | Some(value: T)

  newtype byte = x: int | 0 <= x < 256

  /** A binary payload: a decoded template or image, or a BLOB column. */
  type Bytes = seq<byte>

  /**
   * A value of a parsed JSON body as JavaScript sees it. Only what decides
   * truthiness is kept; objects and arrays are opaque.
   */
  datatype JsValue =
    | Undefined
    | Null
    | Bool(b: bool)
    | Num(x: real)
    | Str(s: string)
    | Compound

  /** JavaScript truthiness: `undefined`, `null`, `false`, `0` and `""` are falsy. */
  predicate Truthy(v: JsValue) {
    match v
    case Undefined => false
    case Null => false
    case Bool(b) => b
    case Num(x) => x != 0.0
    case Str(s) => s != ""
    case Compound => true
  }

  /** Property access on a parsed JSON object: a missing key reads as `undefined`. */
  function Field(obj: map<string, JsValue>, key: string): (v: JsValue)
    ensures key !in obj ==> v == Undefined
    ensures key in obj ==> v == obj[key]
  {
    if key in obj then obj[key] else Undefined
  }
}
