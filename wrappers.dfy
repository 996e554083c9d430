/** Option, standing for Python's `None`-or-value. */
module Wrappers {

  datatype Option<+T> = None | Some(value: T)

  /** Python truthiness of an optional string: present and non-empty. */
  predicate Truthy(s: Option<string>) {
    s.Some? && s.value != ""
  }
}

/** The outcome of one call into the language model: its text, or an exception. */
module Llm {

  datatype Completion = Completed(text: string) | Raised

  /** A step that returns a value, or lets an exception from the model propagate. */
  datatype Outcome<+T> = Ok(value: T) | Failed
}
