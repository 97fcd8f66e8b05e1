/** The Gateway-to-Gateway frame vocabulary and the values it carries. */
module PeerFrames {
  import opened Common
  import opened ErrorCodes

  datatype OpenIdentity = OpenIdentity(entryGateway: Uuid, originSession: Uuid, connectionId: U64)

  datatype PeerHandshake = PeerHandshake(
    gatewayName: Bytes,
    gatewayId: Uuid,
    expectedPeerGatewayId: Uuid,
    dialerGatewayId: Uuid,
    peerTransportId: Uuid)

  type StreamId = U64

  datatype PeerFrame =
    | Hello(handshake: PeerHandshake)
    | Welcome(handshake: PeerHandshake)
    | HandshakeRejected(code: ErrorCode, message: Bytes)
    | Open(streamId: StreamId, openIdentity: OpenIdentity, destination: Destination,
           relaySessionId: Uuid, bindingId: Uuid)
    | Opened(streamId: StreamId)
    | Failed(streamId: StreamId, code: ErrorCode, observation: PeerObservation, message: Bytes)
    | Data(streamId: StreamId, payload: Bytes)
    | Fin(streamId: StreamId)
    | Close(streamId: StreamId)
    | Reset(streamId: StreamId, code: ErrorCode, message: Bytes)
    | Ping(nonce: U64)
    | Pong(nonce: U64)
  {
    /** Frames of the transport itself rather than of one stream. */
    predicate ForTransport() {
      Hello? || Welcome? || HandshakeRejected? || Ping? || Pong?
    }

    predicate OnStream(s: StreamId) { !ForTransport() && streamId == s }
  }

  datatype PeerFailure = PeerFailure(code: ErrorCode, observation: PeerObservation, message: Bytes)
}
