/**
 * The few JavaScript value rules the webhook handler depends on: a property read
 * from parsed JSON is missing (`undefined`), `null` or a value; `&&`, `||` and
 * `if (x)` go by truthiness; template literals and `RegExp.prototype.test`
 * convert their operand with `String(x)`.
 */
module JsValues {

  /** The content of one property slot of a parsed JSON object. */
  datatype Field<+T> = Undefined | Null | Val(v: T)

  /** A string-valued slot, such as `hub.mode`, `messages.from` or `order.name`. */
  type JStr = Field<string>

  /** Truthiness of a string slot: only a non-empty string is truthy. */
  predicate Truthy(x: JStr) {
    x.Val? && x.v != ""
  }

  /** Truthiness of an object or array slot: every object and every array is truthy. */
  predicate Present<T>(x: Field<T>) {
    x.Val?
  }

  /** `x || fallback` on a string slot whose result is a string. */
  function Or(x: JStr, fallback: string): string {
    if Truthy(x) then x.v else fallback
  }

  /** `String(x)`, as used by `${x}` and by `RegExp.prototype.test(x)`. */
  function Str(x: JStr): string {
    match x
    case Undefined => "undefined"
    case Null => "null"
    case Val(s) => s
  }

  /** `xs && xs[0]` for an array-valued slot: the slot itself when it is falsy, `undefined` when the array is empty. */
  function First<T>(xs: Field<seq<T>>): Field<T> {
    match xs
    case Undefined => Undefined
    case Null => Null
    case Val(s) => if |s| == 0 then Undefined else Val(s[0])
  }
}
