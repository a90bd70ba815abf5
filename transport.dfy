/** The XMTP side of the bot, reduced to an outbox of the messages it sends. */
module Transport {
  datatype Message = Message(to: string, text: string)

  /** Every `conversation.send` and `context.reply`, in the order they happen. */
  class Outbox {
    var sent: seq<Message>

    constructor ()
      ensures sent == []
    {
      sent := [];
    }

    method Send(to: string, text: string)
      modifies this
      ensures sent == old(sent) + [Message(to, text)]
    {
      sent := sent + [Message(to, text)];
    }
  }
}
