/** The JSON bodies and status codes the route handlers answer with. */
module Http {
  import opened Wrappers
  import opened UserModel

  /** A body field holding a human-readable text; `key` is the field's name as sent. */
  datatype MessageField = MessageField(key: string, text: string)

  /** Extra body fields beside `success` and the message. */
  datatype Payload =
    | NoPayload
    | MessageList(messages: seq<Message>)
    | UpdatedUser(user: Account)
    | AcceptanceFlag(isAcceptingMessages: bool)

  datatype Response = Response(status: nat, success: bool, message: Option<MessageField>, payload: Payload)

  /** `Response.json({ success, message: text }, { status })`. */
  function Reply(status: nat, success: bool, text: string): Response {
    Response(status, success, Some(MessageField("message", text)), NoPayload)
  }

  /** A handler's reply together with the collection it leaves behind. */
  datatype Outcome = Outcome(response: Response, docs: seq<Account>)
}
