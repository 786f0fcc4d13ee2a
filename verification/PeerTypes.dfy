/** Frames, delivery tags and outbound commands of the peer transport. */
module PeerTypes {
  import opened Foundation

  datatype DeliveryTag =
    | Message(messageId: string)
    | Receipt(messageId: string)
    | ReadReceipt(receiptId: string)
    | RelationshipRemovalAck(removalId: string)
    | Ephemeral
    | Probe
    | EndpointUpdate
    | Presence(online: bool)
    | Typing(typing: bool)
    | ConversationFocus(focused: bool)
  {
    function DedupeKey(): Option<string> {
      match this
      case Message(id) => Some("message:" + id)
      case Receipt(id) => Some("receipt:" + id)
      case ReadReceipt(id) => Some("read-receipt:" + id)
      case RelationshipRemovalAck(id) => Some("relationship-removal-ack:" + id)
      case _ => None
    }

    predicate IsDurable() {
      Message? || Receipt? || ReadReceipt? || EndpointUpdate?
    }

    /** Deliveries that share the MLS generation: queued in order and deduplicated. */
    predicate Tracked() {
      Message? || Receipt? || ReadReceipt?
    }
  }

  /** A dedupe key names exactly one delivery, also across kinds of delivery. */
  lemma DedupeKeyInjective(a: DeliveryTag, b: DeliveryTag)
    requires a.DedupeKey().Some?
    requires a.DedupeKey() == b.DedupeKey()
    ensures a == b
  {
    var ka, kb := a.DedupeKey().value, b.DedupeKey().value;
    assert ka[0] == kb[0] && ka[2] == kb[2];
    match a {
      case Message(id) => assert ka[8..] == id && b.Message? && kb[8..] == b.messageId;
      case Receipt(id) => assert ka[8..] == id && b.Receipt? && kb[8..] == b.messageId;
      case ReadReceipt(id) => assert ka[13..] == id && b.ReadReceipt? && kb[13..] == b.receiptId;
      case RelationshipRemovalAck(id) =>
        assert ka[25..] == id && b.RelationshipRemovalAck? && kb[25..] == b.removalId;
    }
  }

  /** The part of an endpoint bundle that decides whether an open socket still fits a command. */
  datatype PeerAddress = PeerAddress(
    installationId: string, identityKey: string, onion: string, port: nat, sequence: nat)

  datatype Command = Command(
    endpoint: PeerAddress,
    endpointUpdates: seq<nat>,
    messageId: Uuid,
    sequence: nat,
    ciphertext: Bytes,
    delivery: DeliveryTag)

  datatype AckKind = Received | Persisted | Delivered | Rejected

  datatype Ack = Ack(sessionId: Uuid, messageId: Uuid, kind: AckKind, hash: Digest)

  datatype Envelope = Envelope(sessionId: Uuid, messageId: Uuid, sequence: nat, ciphertext: Bytes)

  datatype PresenceState = Online | Away | Offline

  datatype Frame =
    | MessageFrame(envelope: Envelope)
    | AckFrame(ack: Ack)
    | EndpointUpdateFrame(endpointSequence: nat)
    | Ping(nonce: nat)
    | Pong(nonce: nat)
    | ProbeRequest(nonce: nat)
    | ProbeResponse(nonce: nat)
    | PresenceFrame(presence: PresenceState, nonce: nat)
    | TypingFrame(typing: bool, nonce: nat)
    | FocusFrame(focused: bool, nonce: nat)
    /** ClientHello, ServerChallenge, ClientProof, HandshakeAccepted and ProtocolError. */
    | HandshakeOrErrorFrame
}
