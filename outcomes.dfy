/** Result shapes shared by every component of the chatbot. */
module Outcomes {

  /** Python's `Optional[T]`: `None` or a value. */
  datatype Option<+T> = None | Some(value: T)

  /** The outcome of a call that may raise: the value it returned, or the
      message of the Python exception that escaped it. */
  datatype Outcome<+T> = Done(value: T) | Raised(message: string)

  /** A language-model call: the content of the reply, or the exception the
      client library raised. */
  type Reply = Outcome<string>

  /** Python truthiness of an `Optional[str]` error field: `None` and `""`
      are both false. */
  predicate Truthy(error: Option<string>) {
    error.Some? && error.value != ""
  }
}
