/** Failure-carrying values shared by every part of the adapter model.
    The adapter reports failures by raising; here each raise becomes an
    `Err` carrying the reason, so callers see every error path as a value.
 */
module Results {

  /** A value that may be absent (Python's `None`). */
  datatype Option<+T> = None | Some(value: T)

  /** Why a call into the adapter fails. */
  datatype LlmError =
    | UnknownModel(name: string)     // `Llm(value)` found no member with that value
    | EmptyConversation              // `messages[0]` on an empty list
    | MalformedImagePart             // an `image_url` part without `image_url.url`
    | ImageProcessing(cause: string) // `process_image` raised
    | NoTextBlock                    // `response.content[0].text` on a final message without a leading text block
    | Transport(cause: string)       // the provider stream broke off
    | NoResponse                     // "No HTML response found in AI response"

  /** Either a value or the error that stopped its computation. */
  datatype Result<+T> = Ok(value: T) | Err(error: LlmError) {
    predicate IsFailure() { Err? }

    function PropagateFailure<U>(): Result<U>
      requires Err?
    {
      Err(error)
    }

    function Extract(): T
      requires Ok?
    {
      value
    }
  }
}
