/** Shared value types of the chat UI: the optional/result wrappers used for
    absent fields and thrown errors, and the records of `types.ts`. */
module Types {

  /** A value that may be absent (an optional property or `undefined`). */
  datatype Option<+T> = None | Some(value: T)

  /** The outcome of a call that may throw: a value or the error it threw. */
  datatype Result<+R, +E> = Success(value: R) | Failure(error: E)

  /** Who wrote a chat turn. */
  datatype MessageSender = User | Ai

  /** A cited web page. */
  datatype Source = Source(uri: string, title: string)

  /** One chat turn. `sources` is `None` when the property is absent;
      `isThinking` is `false` when the property is absent. */
  datatype ChatMessage = ChatMessage(
    sender: MessageSender,
    text: string,
    sources: Option<seq<Source>>,
    isThinking: bool)
}
