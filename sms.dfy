/** `send_sms_notification` only prints the number and the text; here a sent
    message is appended to an outbox that the notifying views write to. */
module Sms {

  datatype Message = Message(to: string, body: string)

  class Outbox {
    var sent: seq<Message>

    constructor ()
      ensures sent == []
    {
      sent := [];
    }

    method Send(to: string, body: string)
      modifies this
      ensures sent == old(sent) + [Message(to, body)]
    {
      sent := sent + [Message(to, body)];
    }
  }
}
