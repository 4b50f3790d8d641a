/** The frames of one bridge stream; a missing body is a nil pointer in the generated code. */
module Frames {
  import opened Common
  import opened Envelopes

  datatype RegisterInfo = RegisterInfo(nodeId: string, ns: string, versions: seq<string>, bridgeVersion: string)

  datatype AckBody = AckBody(messageId: string, broadcastId: string)

  /** Client to server. */
  datatype Request =
    | Register(info: Option<RegisterInfo>)
    | Ingress(envelope: Option<EnvelopeValue>)
    | Ack(ack: Option<AckBody>)
    | Heartbeat(nonce: Option<string>)
    | Blank

  /** Server to client. The envelope is missing when the frame or its envelope is nil. */
  datatype Response =
    | Deliver(envelope: Option<EnvelopeValue>)
    | Broadcast(envelope: Option<EnvelopeValue>, broadcastId: string)
    | Pong(nonce: string)
    | Empty
}
