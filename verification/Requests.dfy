/** Requests as they travel through a per-node channel (internal/stream/channel.go). */
module Requests {

  datatype Option<+T> = None | Some(value: T)

  /**
   * One call of Enqueue. `tag` identifies the call; `msgID` is the message sequence number
   * under which a two-way call is registered. `hasChan` says that ResponseChan is not nil,
   * and `roomy` that this channel has room whenever a response is delivered on it.
   */
  datatype Request = Request(tag: nat, msgID: nat, streaming: bool, oneway: bool, hasChan: bool, roomy: bool) {

    /** The request needs a router entry: a two-way or a streaming call. */
    predicate WantsServerResponse() {
      hasChan && !oneway
    }

    /** A call that may get several responses. */
    predicate Streams() {
      streaming && !oneway
    }

    /** The sender confirms the send directly on the response channel. */
    predicate WantsSendConfirmation() {
      oneway && hasChan
    }
  }
}
