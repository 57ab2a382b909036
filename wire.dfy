/** The socket messages exchanged by the proctoring client and the relay server. */
module Wire {
  import opened Wrappers

  /**
   * The payload of a `proctor-event` message. The server reads every field
   * of it without checking its presence, so each one is optional here.
   * `kind` is the payload's `type` field; `ts` is the instant, in
   * milliseconds, that the timestamp names.
   */
  datatype Message = Message(
    sessionId: Option<string>,
    kind: Option<string>,
    detail: Option<string>,
    ts: Option<int>,
    candidateId: Option<string>)

  /** A message a client sends on its socket. */
  datatype ClientMessage =
    | JoinSession(room: Option<string>)
    | ProctorEvent(data: Message)
}
