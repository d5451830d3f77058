/**
 * Values shared by the model: an optional value, and what a failed `await`
 * can throw.
 */
module Outcomes {

  datatype Option<T> = None | Some(value: T)

  /**
   * What a `catch (err)` clause receives: an `Error` instance, which carries a
   * message, or any other thrown value.
   */
  datatype Thrown = ErrorInstance(message: string) | OtherValue

  /**
   * `err instanceof Error ? err.message : fallback`: the text a catch clause
   * shows for a thrown value.
   */
  function ErrorText(err: Thrown, fallback: string): (text: string)
    ensures err.ErrorInstance? ==> text == err.message
    ensures err.OtherValue? ==> text == fallback
  {
    match err
    case ErrorInstance(m) => m
    case OtherValue => fallback
  }
}
