/** What the routes and pages get back from the services they call, and
    what they report when that fails. */
module Vendor {
  import opened Json

  /** The outcome of a request to a model: the request or the JSON parsing
      threw, a non-OK reply with its text, or the parsed JSON. */
  datatype ModelReply = Threw(message: string) | NotOk(text: string) | OkJson(data: JVal)

  /** The `details` of a 500 reply. */
  datatype Details =
    | NoDetails
    | Text(text: string)
    | Payload(payload: JVal)
    | EngineMessage     // the message of a runtime `TypeError` or `SyntaxError`

  /** Why an awaited call failed: it threw an `Error` with this message,
      or the engine raised a `TypeError` (reading a property of `null` or
      `undefined`, calling something that is not a function). */
  datatype Failure = Thrown(message: string) | RuntimeError
}
