/** JavaScript values as the components see them: `null`, `undefined`,
    truthiness of strings and numbers, and `String.prototype.toUpperCase`
    restricted to ASCII. */
module Js {

  /** A value that may be `null`. */
  datatype Option<+T> = None | Some(value: T)

  /** A value that may also be `undefined`: an omitted argument, or a
      missing array element such as `"side".split("-")[1]`. */
  datatype JsValue<+T> = Undefined | Null | Defined(value: T)

  /** Passes a nullable value on as an explicit argument: `null` stays `null`. */
  function Explicit<T>(o: Option<T>): JsValue<T> {
    match o
    case None => Null
    case Some(v) => Defined(v)
  }

  /** `a === undefined ? cached : a`, where the result may be `null`. */
  function Resolve<T>(a: JsValue<T>, cached: Option<T>): Option<T> {
    match a
    case Undefined => cached
    case Null => None
    case Defined(v) => Some(v)
  }

  /** A string value is truthy when it is present and not empty. */
  predicate TruthyString(s: Option<string>) {
    s.Some? && s.value != ""
  }

  /** A number value is truthy when it is present and not zero. */
  predicate TruthyNumber(n: Option<int>) {
    n.Some? && n.value != 0
  }

  predicate IsLower(c: char) {
    'a' <= c <= 'z'
  }

  /** `toUpperCase` of one ASCII character: a lower-case letter becomes the
      upper-case letter at the same place in the alphabet. */
  function UpperChar(c: char): (u: char)
    ensures !IsLower(u)
    ensures !IsLower(c) ==> u == c
    ensures IsLower(c) ==> 'A' <= u <= 'Z' && u as int - 'A' as int == c as int - 'a' as int
  {
    if IsLower(c) then (c as int - 32) as char else c
  }

  /** `s.toUpperCase()` on ASCII letters. */
  function Upper(s: string): string {
    seq(|s|, i requires 0 <= i < |s| => UpperChar(s[i]))
  }
}
