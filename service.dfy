/** What the rest of the model sees of the text-generation service and of
    `JSON.parse`: both are outside code, so each call is reduced to its
    possible outcomes, supplied by the caller. */
module Service {

  datatype Option<T> = None | Some(value: T)

  /** The outcome of one awaited `generateContent` call: the response text,
      or the value it threw — an `Error` with its message, or `None` for
      anything else thrown. */
  datatype Reply = Success(text: string) | Failure(message: Option<string>)
}
