/** The optional-value type used throughout the model. JavaScript's `undefined`
    and `null` are both represented by `None`: every place the modelled code
    looks at such a value (`??`, `||`, `?.`, an `if`) treats the two alike. */
module Wrappers {

  datatype Option<+T> = None | Some(value: T)

  /** JavaScript truthiness of an optional string: defined, not null, and not "". */
  predicate Truthy(s: Option<string>) {
    s.Some? && s.value != ""
  }

  /** JavaScript truthiness of an optional number: defined, not null, and not 0
      (NaN is not modelled). */
  predicate TruthyNumber(n: Option<int>) {
    n.Some? && n.value != 0
  }
}
