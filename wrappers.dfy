/** The optional value that the bot's Python code expresses with `None`. */
module Wrappers {

  datatype Option<+T> = None | Some(value: T)

  /** Python truthiness of an optional string: `None` and `""` are false. */
  predicate Truthy(o: Option<string>)
  {
    o.Some? && o.value != ""
  }
}
