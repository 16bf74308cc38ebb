/** JavaScript value conventions the handlers rely on: a property that may be
    `undefined`, string truthiness, and template-literal interpolation. */
module Js {

  /** A string-valued property that may be missing (`undefined`). */
  datatype Option<+T> = None | Some(value: T)

  /** A JavaScript string is truthy exactly when it is non-empty; `undefined` is falsy. */
  predicate Truthy(v: Option<string>) {
    v.Some? && v.value != ""
  }

  /** `${v}` inside a template literal: `undefined` is rendered as the text "undefined". */
  function Interpolate(v: Option<string>): string {
    match v
    case None => "undefined"
    case Some(s) => s
  }

  /** `a || b` on two possibly-undefined strings: the left one when it is truthy. */
  function Or(a: Option<string>, b: Option<string>): Option<string> {
    if Truthy(a) then a else b
  }
}
