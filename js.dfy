/** The JavaScript truthiness tests the client applies to its optional arguments. */
module Js {
  import opened Wrappers

  /** `if (offerId)` on a number or `null`: `null` and `0` are falsy, every other number is truthy. */
  predicate TruthyNumber(n: Option<int>)
  {
    n.Some? && n.value != 0
  }

  /** `if (subAccount)` on a string or `null`: `null` and the empty string are falsy. */
  predicate TruthyString(s: Option<string>)
  {
    s.Some? && s.value != ""
  }
}
