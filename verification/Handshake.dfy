/**
 The peer handshake with ideal signatures: a signature verifies exactly if the key's owner signed those bytes. The
 network is free to drop, repeat, reorder and invent frames, and keys outside `honest` sign whatever they like.
 */
module Handshake {
  import opened Foundation
  import opened ByteCodec
  import opened PeerSigning

  type Key = Text

  datatype Hello = Hello(
    protocolVersion: U16, installationId: Text, endpointSequence: U64, capabilityId: Text, capabilityProof: Text,
    nonce: Text)

  datatype Challenge = Challenge(installationId: Text, endpointSequence: U64, nonce: Text, sessionId: Text)

  /** The endpoint an initiator dials. */
  datatype Target = Target(installationId: Text, sequence: U64, onionAddress: Text)

  /** What a responder holds about an authorized contact, and the endpoint it shows to it. */
  datatype Contact = Contact(
    publicKey: Key, sequence: U64, inboundCapabilityId: Text, capabilitySecret: Text, localSequence: U64,
    localOnion: Text)

  /** Installation ids are hashes of keys; the capability proof is a keyed hash. */
  datatype Setting = Setting(idOf: Key -> Text, proofValid: (Text, Hello) -> bool, honest: set<Key>)

  /** The transcript leaves the capability proof out. */
  function TranscriptOf(h: Hello, serverId: Text, serverSequence: U64, serverNonce: Text, sessionId: Text,
                        onion: Text): Transcript {
    Transcript(h.protocolVersion, h.installationId, h.endpointSequence, h.capabilityId, h.nonce,
               serverId, serverSequence, serverNonce, sessionId, onion)
  }

  datatype Event =
    // responder: admitted a hello and signed its challenge
    | Challenged(key: Key, hello: Hello, contact: Contact, nonce: Text, sessionId: Text)
    // initiator: verified the challenge and signed its proof
    | Proved(key: Key, peer: Key, hello: Hello, target: Target, challenge: Challenge)
    // responder: verified the proof
    | Accepted(key: Key, hello: Hello, contact: Contact, nonce: Text, sessionId: Text)
    // initiator: saw the acceptance frame
    | Connected(key: Key, peer: Key, hello: Hello, target: Target, challenge: Challenge)
    | SignedEndpoint(key: Key, endpoint: Endpoint)
    | SignedMessage(key: Key, message: Message)
    // any key outside the honest set
    | Forged(key: Key, bytes: Bytes)

  function ResponderTranscript(g: Setting, key: Key, h: Hello, c: Contact, nonce: Text, sessionId: Text): Transcript {
    TranscriptOf(h, g.idOf(key), c.localSequence, nonce, sessionId, c.localOnion)
  }

  function InitiatorTranscript(h: Hello, target: Target, c: Challenge): Transcript {
    TranscriptOf(h, c.installationId, c.endpointSequence, c.nonce, c.sessionId, target.onionAddress)
  }

  function SignedBytes(g: Setting, e: Event): Option<Bytes> {
    match e
    case Challenged(key, h, c, nonce, sid) => Some(TranscriptBytes(ResponderTranscript(g, key, h, c, nonce, sid)))
    case Proved(_, _, h, target, c) => Some(TranscriptBytes(InitiatorTranscript(h, target, c)))
    case SignedEndpoint(_, d) => Some(EndpointBytes(d))
    case SignedMessage(_, m) => Some(MessageBytes(m))
    case Forged(_, bytes) => Some(bytes)
    case Accepted(_, _, _, _, _) => None
    case Connected(_, _, _, _, _) => None
  }

  predicate Verifies(g: Setting, log: seq<Event>, key: Key, bytes: Bytes) {
    exists k :: 0 <= k < |log| && log[k].key == key && SignedBytes(g, log[k]) == Some(bytes)
  }

  /** The responder's checks on a hello. */
  predicate Admits(g: Setting, h: Hello, c: Contact) {
    && h.protocolVersion == PROTOCOL_VERSION
    && h.installationId == g.idOf(c.publicKey)
    && h.endpointSequence >= c.sequence
    && h.capabilityId != [] && h.capabilityId == c.inboundCapabilityId
    && c.capabilitySecret != [] && g.proofValid(c.capabilitySecret, h)
  }

  /** The initiator's checks on a challenge, before the signature. */
  predicate Expects(target: Target, c: Challenge) {
    c.installationId == target.installationId && c.endpointSequence == target.sequence
  }

  /** A session id is drawn afresh for every challenge. */
  predicate FreshSession(log: seq<Event>, sessionId: Text) {
    forall k :: 0 <= k < |log| && log[k].Challenged? ==> log[k].sessionId != sessionId
  }

  predicate Permitted(g: Setting, log: seq<Event>, e: Event) {
    match e
    case Challenged(key, h, c, nonce, sid) => Admits(g, h, c) && FreshSession(log, sid)
    case Proved(key, peer, h, target, c) =>
      && h.installationId == g.idOf(key) && target.installationId == g.idOf(peer)
      && Expects(target, c) && Verifies(g, log, peer, TranscriptBytes(InitiatorTranscript(h, target, c)))
    case Accepted(key, h, c, nonce, sid) =>
      && Challenged(key, h, c, nonce, sid) in log
      && Verifies(g, log, c.publicKey, TranscriptBytes(ResponderTranscript(g, key, h, c, nonce, sid)))
    case Connected(key, peer, h, target, c) => Proved(key, peer, h, target, c) in log
    case SignedEndpoint(_, _) => true
    case SignedMessage(_, _) => true
    case Forged(key, _) => key !in g.honest
  }

  predicate Run(g: Setting, log: seq<Event>) {
    forall k :: 0 <= k < |log| ==> Permitted(g, log[..k], log[k])
  }

  ghost predicate Injective(g: Setting) { forall a: Key, b: Key :: g.idOf(a) == g.idOf(b) ==> a == b }

  predicate ChallengeFor(g: Setting, e: Event, key: Key, t: Transcript) {
    e.Challenged? && e.key == key && ResponderTranscript(g, e.key, e.hello, e.contact, e.nonce, e.sessionId) == t
  }

  predicate ProofFor(e: Event, key: Key, t: Transcript) {
    e.Proved? && e.key == key && InitiatorTranscript(e.hello, e.target, e.challenge) == t
  }

  // ---------------------------------------------------------------- who can have signed a transcript

  lemma NeverEndpoint(d: Endpoint, t: Transcript)
    ensures EndpointBytes(d) != TranscriptBytes(t)
  {
    DomainsDiffer();
    StartsWithDomain(EndpointBytes(d), ENDPOINT_DOMAIN, TranscriptBytes(t), HANDSHAKE_DOMAIN);
  }

  lemma NeverMessage(m: Message, t: Transcript)
    ensures MessageBytes(m) != TranscriptBytes(t)
  {
    DomainsDiffer();
    StartsWithDomain(MessageBytes(m), MESSAGE_DOMAIN, TranscriptBytes(t), HANDSHAKE_DOMAIN);
  }

  lemma TranscriptSigner(g: Setting, e: Event, t: Transcript)
    requires SignedBytes(g, e) == Some(TranscriptBytes(t)) && !e.Forged?
    ensures ChallengeFor(g, e, e.key, t) || ProofFor(e, e.key, t)
  {
    hide TranscriptBytes, EndpointBytes, MessageBytes;
    match e {
      case Challenged(key, h, c, nonce, sid) =>
        TranscriptBytesInjective(ResponderTranscript(g, key, h, c, nonce, sid), t);
      case Proved(_, _, h, target, c) => TranscriptBytesInjective(InitiatorTranscript(h, target, c), t);
      case SignedEndpoint(_, d) => NeverEndpoint(d, t);
      case SignedMessage(_, m) => NeverMessage(m, t);
    }
  }

  /** An honest key's signature over a transcript was made in a handshake, as responder or as initiator. */
  lemma OnlyHandshakesSignTranscripts(g: Setting, log: seq<Event>, key: Key, t: Transcript)
    requires Run(g, log) && key in g.honest && Verifies(g, log, key, TranscriptBytes(t))
    ensures exists e :: e in log && (ChallengeFor(g, e, key, t) || ProofFor(e, key, t))
  {
    hide TranscriptBytes, SignedBytes;
    var k :| 0 <= k < |log| && log[k].key == key && SignedBytes(g, log[k]) == Some(TranscriptBytes(t));
    assert !log[k].Forged? by { assert Permitted(g, log[..k], log[k]); }
    TranscriptSigner(g, log[k], t);
    assert log[k] in log;
  }

  lemma PermittedIn(g: Setting, log: seq<Event>, e: Event) returns (k: nat)
    requires Run(g, log) && e in log
    ensures k < |log| && log[k] == e && Permitted(g, log[..k], e)
  {
    k :| 0 <= k < |log| && log[k] == e;
  }

  lemma VerifiesLater(g: Setting, log: seq<Event>, k: nat, key: Key, bytes: Bytes)
    requires k <= |log| && Verifies(g, log[..k], key, bytes)
    ensures Verifies(g, log, key, bytes)
  {
    var j :| 0 <= j < k && log[..k][j].key == key && SignedBytes(g, log[..k][j]) == Some(bytes);
    assert log[j] == log[..k][j];
  }

  /** Initiators put their own id and their peer's id into what they sign. */
  lemma InitiatorsNameThemselves(g: Setting, log: seq<Event>)
    requires Run(g, log)
    ensures forall e :: e in log && e.Proved? ==>
              && e.hello.installationId == g.idOf(e.key) && e.challenge.installationId == g.idOf(e.peer)
              && e.challenge.endpointSequence == e.target.sequence
  {
    hide TranscriptBytes;
    forall e | e in log && e.Proved?
      ensures e.hello.installationId == g.idOf(e.key) && e.challenge.installationId == g.idOf(e.peer)
              && e.challenge.endpointSequence == e.target.sequence
    {
      var k := PermittedIn(g, log, e);
    }
  }

  // ---------------------------------------------------------------- agreement

  /** An initiator that trusts a challenge shares the whole transcript with the responder that issued it. */
  lemma InitiatorAgreement(g: Setting, log: seq<Event>, e: Event)
    requires Injective(g) && Run(g, log) && e in log && e.Proved? && e.peer in g.honest && e.key != e.peer
    ensures exists c :: c in log && ChallengeFor(g, c, e.peer, InitiatorTranscript(e.hello, e.target, e.challenge))
  {
    hide TranscriptBytes, SignedBytes;
    InitiatorsNameThemselves(g, log);
    var k := PermittedIn(g, log, e);
    var t := InitiatorTranscript(e.hello, e.target, e.challenge);
    VerifiesLater(g, log, k, e.peer, TranscriptBytes(t));
    OnlyHandshakesSignTranscripts(g, log, e.peer, t);
  }

  /** A responder that accepts a proof shares the whole transcript with the initiator that made it for it. */
  lemma ResponderAgreement(g: Setting, log: seq<Event>, a: Event)
    requires Injective(g) && Run(g, log) && a in log && a.Accepted?
    requires a.contact.publicKey in g.honest && a.key != a.contact.publicKey
    ensures var t := ResponderTranscript(g, a.key, a.hello, a.contact, a.nonce, a.sessionId);
            exists e :: e in log && e.Proved? && e.peer == a.key && ProofFor(e, a.contact.publicKey, t)
  {
    hide TranscriptBytes, SignedBytes;
    InitiatorsNameThemselves(g, log);
    var k := PermittedIn(g, log, a);
    var t := ResponderTranscript(g, a.key, a.hello, a.contact, a.nonce, a.sessionId);
    VerifiesLater(g, log, k, a.contact.publicKey, TranscriptBytes(t));
    OnlyHandshakesSignTranscripts(g, log, a.contact.publicKey, t);
  }

  lemma LaterSessionsDiffer(g: Setting, log: seq<Event>, i: nat, j: nat)
    requires Run(g, log) && i < j < |log| && log[i].Challenged? && log[j].Challenged?
    ensures log[i].sessionId != log[j].sessionId
  {
    assert Permitted(g, log[..j], log[j]);
    assert log[..j][i] == log[i];
  }

  /** No two challenges share a session id. */
  lemma ChallengesUnique(g: Setting, log: seq<Event>, a: Event, b: Event)
    requires Run(g, log) && a in log && b in log && a.Challenged? && b.Challenged? && a.sessionId == b.sessionId
    ensures a == b
  {
    hide Permitted;
    var i :| 0 <= i < |log| && log[i] == a;
    var j :| 0 <= j < |log| && log[j] == b;
    if i < j {
      LaterSessionsDiffer(g, log, i, j);
    } else if j < i {
      LaterSessionsDiffer(g, log, j, i);
    }
  }

  /**
   When an initiator and a responder both complete with one session id they are each other's peer, the hello is the
   one that was sent up to its proof, and they agree on both sequences, both nonces, the capability and the onion
   address.
   */
  lemma SessionAgreement(g: Setting, log: seq<Event>, i: Event, r: Event)
    requires Injective(g) && Run(g, log) && i in log && r in log && i.Connected? && r.Accepted?
    requires i.challenge.sessionId == r.sessionId && i.peer in g.honest && i.key != i.peer
    ensures i.peer == r.key && i.key == r.contact.publicKey
    ensures i.hello.(capabilityProof := []) == r.hello.(capabilityProof := [])
    ensures i.target.sequence == r.contact.localSequence && i.target.onionAddress == r.contact.localOnion
    ensures i.challenge.nonce == r.nonce && i.hello.capabilityId == r.contact.inboundCapabilityId
  {
    hide TranscriptBytes, SignedBytes;
    InitiatorsNameThemselves(g, log);
    var proof := Proved(i.key, i.peer, i.hello, i.target, i.challenge);
    var k := PermittedIn(g, log, i);
    assert proof in log;
    InitiatorAgreement(g, log, proof);
    var c :| c in log && ChallengeFor(g, c, i.peer, InitiatorTranscript(i.hello, i.target, i.challenge));
    var j := PermittedIn(g, log, r);
    var mine := Challenged(r.key, r.hello, r.contact, r.nonce, r.sessionId);
    assert mine in log;
    ChallengesUnique(g, log, c, mine);
    var m := PermittedIn(g, log, mine);
  }

  // ---------------------------------------------------------------- who gets in

  /** In any run a responder challenges a hello if and only if all of this holds of it, for a fresh session id. */
  lemma ChallengedIff(g: Setting, log: seq<Event>, key: Key, h: Hello, c: Contact, nonce: Text, sessionId: Text)
    requires Run(g, log)
    ensures Run(g, log + [Challenged(key, h, c, nonce, sessionId)]) <==>
            && h.protocolVersion == PROTOCOL_VERSION && h.installationId == g.idOf(c.publicKey)
            && h.endpointSequence >= c.sequence
            && h.capabilityId == c.inboundCapabilityId && c.inboundCapabilityId != []
            && c.capabilitySecret != [] && g.proofValid(c.capabilitySecret, h)
            && forall e :: e in log && e.Challenged? ==> e.sessionId != sessionId
  {
    var e := Challenged(key, h, c, nonce, sessionId);
    RunSnoc(g, log, e);
    hide Run;
    assert FreshSession(log, sessionId) <==> forall x :: x in log && x.Challenged? ==> x.sessionId != sessionId;
  }

  lemma RunSnoc(g: Setting, log: seq<Event>, e: Event)
    requires Run(g, log)
    ensures Run(g, log + [e]) <==> Permitted(g, log, e)
  {
    hide Permitted;
    var all := log + [e];
    assert all[..|log|] == log && all[|log|] == e;
    forall k | 0 <= k < |log| ensures all[..k] == log[..k] && all[k] == log[k] {}
  }

  /**
   Whoever completes a handshake with a responder held the contact's capability: the proof is valid under the
   contact's secret, which is not empty, the capability is the one the contact was given, its endpoint is not older
   than the one on record, and it speaks this version.
   */
  lemma AcceptedIsEntitled(g: Setting, log: seq<Event>, a: Event)
    requires Run(g, log) && a in log && (a.Accepted? || a.Challenged?)
    ensures a.hello.protocolVersion == PROTOCOL_VERSION && a.hello.installationId == g.idOf(a.contact.publicKey)
    ensures a.hello.endpointSequence >= a.contact.sequence
    ensures a.hello.capabilityId == a.contact.inboundCapabilityId && a.contact.inboundCapabilityId != []
    ensures a.contact.capabilitySecret != [] && g.proofValid(a.contact.capabilitySecret, a.hello)
  {
    hide TranscriptBytes, SignedBytes;
    var k := PermittedIn(g, log, a);
    if a.Accepted? {
      var c := Challenged(a.key, a.hello, a.contact, a.nonce, a.sessionId);
      assert c in log;
      var j := PermittedIn(g, log, c);
    }
  }

  // ---------------------------------------------------------------- honest runs go through

  /** With a contact that matches, both sides' checks pass and the handshake completes. */
  lemma HonestHandshakeCompletes(
      g: Setting, client: Key, server: Key, h: Hello, contact: Contact, target: Target, nonce: Text, sessionId: Text)
    requires h.installationId == g.idOf(client) && contact.publicKey == client && Admits(g, h, contact)
    requires target == Target(g.idOf(server), contact.localSequence, contact.localOnion)
    ensures var c := Challenge(g.idOf(server), contact.localSequence, nonce, sessionId);
            Run(g, [Challenged(server, h, contact, nonce, sessionId), Proved(client, server, h, target, c),
                    Accepted(server, h, contact, nonce, sessionId), Connected(client, server, h, target, c)])
  {
    var c := Challenge(g.idOf(server), contact.localSequence, nonce, sessionId);
    var e0 := Challenged(server, h, contact, nonce, sessionId);
    var e1 := Proved(client, server, h, target, c);
    var e2 := Accepted(server, h, contact, nonce, sessionId);
    var log := [e0, e1, e2, Connected(client, server, h, target, c)];
    hide TranscriptBytes;
    var t := InitiatorTranscript(h, target, c);
    assert t == ResponderTranscript(g, server, h, contact, nonce, sessionId);
    assert log[..1] == [e0] && log[..2] == [e0, e1] && log[..3] == [e0, e1, e2];
    assert log[..1][0] == e0 && SignedBytes(g, log[..1][0]) == Some(TranscriptBytes(t));
    assert log[..2][1] == e1 && SignedBytes(g, log[..2][1]) == Some(TranscriptBytes(t));
    assert e0 in log[..2] && e1 in log[..3];
  }
}
