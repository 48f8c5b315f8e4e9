/**
 * Small value types shared by the whole model.
 *  - Option stands for a JavaScript value that may be null or undefined.
 *  - Remote stands for the outcome of one call to the hosted database: the
 *    model never performs the call, it receives what the call returned.
 *  - Completion says whether a store action returned normally or rethrew
 *    the error it caught.
 */
module Wrappers {

  datatype Option<+T> = None | Some(value: T)

  /** What one remote query handed back: the returned data, or an error message. */
  datatype Remote<+T> = Succeeded(data: T) | Failed(message: string)

  /** How a store action ended for its caller. */
  datatype Completion = Completed | Rethrown(message: string)

  /** A nullable text is truthy in JavaScript when it is neither null nor the empty string. */
  predicate IsSet(text: Option<string>) { text.Some? && text.value != "" }
}
