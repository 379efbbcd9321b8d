/** The few JavaScript value rules the background code depends on. */
module Js {
  import opened Wrappers

  /** An optional string is truthy when present and not empty. */
  predicate Truthy(s: Option<string>) {
    s.Some? && s.value != ""
  }

  /** An optional number is truthy when present and not zero. */
  predicate NumberTruthy(n: Option<int>) {
    n.Some? && n.value != 0
  }

  /** String conversion of an optional string, as `+` and `URLSearchParams` do it:
      an absent value becomes the text "undefined". */
  function ToText(s: Option<string>): (t: string)
    ensures s.Some? ==> t == s.value
    ensures s.None? ==> t == "undefined"
  {
    match s
    case Some(v) => v
    case None => "undefined"
  }
}
