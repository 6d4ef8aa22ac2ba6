/** The notification sink for join requests: the broker is reduced to the log of
    messages it has accepted. */
module KafkaTransport {
  import opened Models

  class Outbox {
    /** the join requests accepted so far, in the order they were sent */
    var sent: seq<AddToWhiteListMessage>

    constructor ()
      ensures sent == []
    {
      sent := [];
    }

    /** Hands one join request to the broker; a failed send leaves the log as it was. */
    method SendAddToWhiteListMessage(message: AddToWhiteListMessage, down: bool) returns (err: Option<Err>)
      modifies this
      ensures down ==> err == Some(Wrapped("failed to send message", Unreachable)) && sent == old(sent)
      ensures !down ==> err == None && sent == old(sent) + [message]
    {
      if down {
        return Some(Wrapped("failed to send message", Unreachable));
      }
      sent := sent + [message];
      return None;
    }
  }
}
