/** Small wrapper types shared by every layer of the model.

    Kotlin signals failures of the injected collaborators (the HTTP service,
    the calculators, the use case) by throwing an exception whose `message`
    may be null. The model makes that explicit: a collaborator returns an
    `Outcome`, either a value or a `Throw` carrying an optional message.
 */
module Wrappers {

  datatype Option<+T> = None | Some(value: T)

  /** The result of calling a collaborator that may throw. */
  datatype Outcome<+T> = Ok(value: T) | Throw(message: Option<string>)

  /** Kotlin's `e.message ?: fallback`: the message if there is one (even an
      empty one), otherwise the fallback text. */
  function MessageOr(message: Option<string>, fallback: string): (r: string)
    ensures message.Some? ==> r == message.value
    ensures message.None? ==> r == fallback
  {
    match message
    case Some(m) => m
    case None => fallback
  }
}
