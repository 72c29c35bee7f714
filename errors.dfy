/** The chat service's error class and the function that flattens any caught value into a `ChatError`. */
module ChatErrors {
  import opened Wrappers
  import opened Js
  import opened ChatTypes

  const ServiceErrorName := "ChatServiceError"

  /**
   * `new ChatServiceError(message, code, details)`: an `Error` whose name is
   * "ChatServiceError"; `stack` is whatever the runtime records.
   */
  function NewChatServiceError(message: string, code: Option<string>, details: Value, stack: Option<string>): (t: Thrown)
    ensures t.ServiceError? && IsInstanceOfError(t)
    ensures t.name == ServiceErrorName
    ensures t.message == message && t.code == code && t.details == details
  {
    ServiceError(ServiceErrorName, message, code, details, stack)
  }

  /** The `details` of an ordinary error: its stack trace, `undefined` when there is none. */
  function StackDetails(stack: Option<string>): (v: Value)
    ensures stack.None? <==> v == Undefined
    ensures stack.Some? ==> v == Data(JStr(stack.value))
  {
    match stack
    case None => Undefined
    case Some(s) => Data(JStr(s))
  }

  /**
   * `handleChatError`: a chat service error keeps its message, code and
   * details; any other `Error` keeps its message and reports its stack as
   * details, without a code; anything else becomes the generic message with
   * the thrown value as details.
   */
  function HandleChatError(t: Thrown): (e: ChatError)
    ensures t.ServiceError? ==> e == ChatError(t.message, t.code, t.details)
    ensures t.PlainError? ==> e.message == t.message && e.code == None && e.details == StackDetails(t.stack)
    ensures !IsInstanceOfError(t) ==>
      e.message == "An unexpected error occurred" && e.code == None && e.details == Data(t.value)
    ensures e.code.Some? ==> t.ServiceError?
  {
    match t
    case ServiceError(_, message, code, details, _) => ChatError(message, code, details)
    case PlainError(_, message, stack) => ChatError(message, None, StackDetails(stack))
    case NonError(value) => ChatError("An unexpected error occurred", None, Data(value))
  }

  /** Throwing a chat service error and handling it gives back exactly what was thrown. */
  lemma HandleRoundTrip(message: string, code: Option<string>, details: Value, stack: Option<string>)
    ensures HandleChatError(NewChatServiceError(message, code, details, stack)) == ChatError(message, code, details)
  {
  }

  /** Every `Error` keeps its own message through the handler. */
  lemma ErrorMessageKept(t: Thrown)
    requires IsInstanceOfError(t)
    ensures HandleChatError(t).message == t.message
  {
  }
}
