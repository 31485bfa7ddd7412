/** Small value types shared by the whole model.

    JavaScript values that may be `undefined` or `null` are modelled as
    `Option`s, and the truthiness tests the source relies on (`if (x)`,
    `a || b`) are written out explicitly over them. */
module Wrappers {

  datatype Option<+T> = None | Some(value: T) {
    function GetOr(default: T): T {
      match this
      case Some(v) => v
      case None => default
    }
  }

  /** A JavaScript string-or-undefined is truthy when it is defined and not empty. */
  predicate Truthy(s: Option<string>) {
    s.Some? && s.value != ""
  }

  /** JavaScript `a || b` on strings-or-undefined: the left operand if it is
      truthy, the right operand (whatever it is) otherwise. */
  function Or(a: Option<string>, b: Option<string>): Option<string> {
    if Truthy(a) then a else b
  }
}
