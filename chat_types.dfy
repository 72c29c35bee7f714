/** The records the chat feature passes around: chat log entries, errors, validation results. */
module ChatTypes {
  import opened Wrappers
  import opened Js

  datatype ChatType = Document | Regulation

  /**
   * A chat log entry as the caller hands it over: everything but the
   * identifier and the creation time, which the store assigns.
   */
  datatype ChatLogInput = ChatLogInput(
    userId: Option<string>,
    chatType: ChatType,
    documentId: Option<string>,
    prompt: string,
    response: string,
    embedding: Option<seq<real>>,
    tokensUsed: Option<int>)

  /** A stored chat log row; `createdAt` is the store's timestamp. */
  datatype ChatLog = ChatLog(id: string, createdAt: int, entry: ChatLogInput)

  /** The error shape the chat utilities report; `code` is absent for thrown errors. */
  datatype ChatError = ChatError(message: string, code: Option<string>, details: Value)

  datatype ChatValidationResult = ChatValidationResult(valid: bool, error: Option<ChatError>)
}
