/** What peers sign: endpoint bundles, handshake transcripts and message envelopes, as length-prefixed bytes. */
module PeerSigning {
  import opened Foundation
  import opened ByteCodec

  const PROTOCOL_VERSION: U16 := 1
  const I64_MIN: int := -0x8000_0000_0000_0000
  const I64_LIMIT: int := 0x8000_0000_0000_0000

  type I64 = x: int | I64_MIN <= x < I64_LIMIT

  /** Text or bytes short enough for a 32-bit length. */
  type Text = b: Bytes | |b| < U32_LIMIT

  const ENDPOINT_DOMAIN: Text := Ascii("torchat-peer-endpoint-v1")
  const HANDSHAKE_DOMAIN: Text := Ascii("torchat-peer-handshake-v1")
  const MESSAGE_DOMAIN: Text := Ascii("torchat-peer-message-v1")

  /** Two's complement. */
  function Unsigned(x: I64): nat { if x < 0 then x + U64_LIMIT else x }

  datatype Endpoint = Endpoint(
    protocolVersion: U16, installationId: Text, onionAddress: Text, virtualPort: U16, identityKey: Text,
    capabilities: seq<Text>, sequence: U64, issuedAt: I64, expiresAt: Option<I64>)

  /** The client's capability proof is not part of what is signed. */
  datatype Transcript = Transcript(
    protocolVersion: U16, clientId: Text, clientSequence: U64, capabilityId: Text, clientNonce: Text,
    serverId: Text, serverSequence: U64, serverNonce: Text, sessionId: Text, onionAddress: Text)

  /** The ciphertext enters by its hash. */
  datatype Message = Message(
    protocolVersion: U16, sessionId: Text, messageId: Text, conversationId: Text, senderId: Text,
    sequence: U64, createdAt: I64, ciphertextHash: Text)

  // ---------------------------------------------------------------- the byte strings

  function Blobs(texts: seq<Text>): Bytes {
    if texts == [] then [] else Blob(texts[0]) + Blobs(texts[1..])
  }

  function ExpiryBytes(expiresAt: Option<I64>): Bytes {
    match expiresAt
    case None => [0]
    case Some(x) => [1] + Be(Unsigned(x), 8)
  }

  function EndpointTail(e: Endpoint): Bytes {
    Be(|e.capabilities| % U32_LIMIT, 4) +
    (Blobs(e.capabilities) + (Be(e.sequence, 8) + (Be(Unsigned(e.issuedAt), 8) + ExpiryBytes(e.expiresAt))))
  }

  function EndpointBytes(e: Endpoint): Bytes {
    Blob(ENDPOINT_DOMAIN) + (Be(e.protocolVersion, 2) + (Blob(e.installationId) + (Blob(e.onionAddress) +
    (Be(e.virtualPort, 2) + (Blob(e.identityKey) + EndpointTail(e))))))
  }

  function TranscriptServer(t: Transcript): Bytes {
    Blob(t.serverId) + (Be(t.serverSequence, 8) + (Blob(t.serverNonce) + (Blob(t.sessionId) + Blob(t.onionAddress))))
  }

  function TranscriptBytes(t: Transcript): Bytes {
    Blob(HANDSHAKE_DOMAIN) + (Be(t.protocolVersion, 2) + (Blob(t.clientId) + (Be(t.clientSequence, 8) +
    (Blob(t.capabilityId) + (Blob(t.clientNonce) + TranscriptServer(t))))))
  }

  function MessageTail(m: Message): Bytes {
    Blob(m.senderId) + (Be(m.sequence, 8) + (Be(Unsigned(m.createdAt), 8) + Blob(m.ciphertextHash)))
  }

  function MessageBytes(m: Message): Bytes {
    Blob(MESSAGE_DOMAIN) + (Be(m.protocolVersion, 2) + (Blob(m.sessionId) + (Blob(m.messageId) +
    (Blob(m.conversationId) + MessageTail(m)))))
  }

  // ---------------------------------------------------------------- peeling fields off the front

  lemma PeelBe(x: nat, y: nat, width: nat, a: Bytes, b: Bytes)
    requires x < Pow256(width) && y < Pow256(width) && Be(x, width) + a == Be(y, width) + b
    ensures x == y && a == b
  {
    TakeUintIff(Be(x, width) + a, width, x, a);
    TakeUintIff(Be(y, width) + b, width, y, b);
  }

  lemma PeelU16(x: U16, y: U16, a: Bytes, b: Bytes)
    requires Be(x, 2) + a == Be(y, 2) + b
    ensures x == y && a == b
  {
    Widths();
    PeelBe(x, y, 2, a, b);
  }

  lemma PeelU64(x: U64, y: U64, a: Bytes, b: Bytes)
    requires Be(x, 8) + a == Be(y, 8) + b
    ensures x == y && a == b
  {
    Widths();
    PeelBe(x, y, 8, a, b);
  }

  lemma PeelI64(x: I64, y: I64, a: Bytes, b: Bytes)
    requires Be(Unsigned(x), 8) + a == Be(Unsigned(y), 8) + b
    ensures x == y && a == b
  {
    Widths();
    PeelBe(Unsigned(x), Unsigned(y), 8, a, b);
  }

  lemma {:induction false} PeelBlobs(xs: seq<Text>, ys: seq<Text>, a: Bytes, b: Bytes)
    requires |xs| == |ys| && Blobs(xs) + a == Blobs(ys) + b
    ensures xs == ys && a == b
    decreases |xs|
  {
    hide Blob;
    if xs == [] {
      assert Blobs(xs) + a == a && Blobs(ys) + b == b;
    } else {
      assert Blobs(xs) + a == Blob(xs[0]) + (Blobs(xs[1..]) + a);
      assert Blobs(ys) + b == Blob(ys[0]) + (Blobs(ys[1..]) + b);
      BlobPrefixFree(xs[0], ys[0], Blobs(xs[1..]) + a, Blobs(ys[1..]) + b);
      PeelBlobs(xs[1..], ys[1..], a, b);
      assert xs == [xs[0]] + xs[1..] && ys == [ys[0]] + ys[1..];
    }
  }

  lemma ExpiryInjective(x: Option<I64>, y: Option<I64>)
    requires ExpiryBytes(x) == ExpiryBytes(y)
    ensures x == y
  {
    assert ExpiryBytes(x)[0] == ExpiryBytes(y)[0];
    if x.Some? && y.Some? {
      assert ExpiryBytes(x)[1..] == Be(Unsigned(x.value), 8) && ExpiryBytes(y)[1..] == Be(Unsigned(y.value), 8);
      assert Be(Unsigned(x.value), 8) + [] == Be(Unsigned(y.value), 8) + [];
      PeelI64(x.value, y.value, [], []);
    }
  }

  // ---------------------------------------------------------------- injectivity

  lemma EndpointTailInjective(d: Endpoint, e: Endpoint)
    requires |d.capabilities| < U32_LIMIT && |e.capabilities| < U32_LIMIT && EndpointTail(d) == EndpointTail(e)
    ensures d.capabilities == e.capabilities && d.sequence == e.sequence
    ensures d.issuedAt == e.issuedAt && d.expiresAt == e.expiresAt
  {
    Widths();
    hide Be, Blobs, ExpiryBytes, Unsigned, Pow256;
    var d1 := Be(Unsigned(d.issuedAt), 8) + ExpiryBytes(d.expiresAt);
    var e1 := Be(Unsigned(e.issuedAt), 8) + ExpiryBytes(e.expiresAt);
    PeelBe(|d.capabilities|, |e.capabilities|, 4,
           Blobs(d.capabilities) + (Be(d.sequence, 8) + d1), Blobs(e.capabilities) + (Be(e.sequence, 8) + e1));
    PeelBlobs(d.capabilities, e.capabilities, Be(d.sequence, 8) + d1, Be(e.sequence, 8) + e1);
    PeelU64(d.sequence, e.sequence, d1, e1);
    PeelI64(d.issuedAt, e.issuedAt, ExpiryBytes(d.expiresAt), ExpiryBytes(e.expiresAt));
    ExpiryInjective(d.expiresAt, e.expiresAt);
  }

  /** Equal endpoint bytes mean equal endpoints. */
  lemma EndpointBytesInjective(d: Endpoint, e: Endpoint)
    requires |d.capabilities| < U32_LIMIT && |e.capabilities| < U32_LIMIT && EndpointBytes(d) == EndpointBytes(e)
    ensures d == e
  {
    hide Be, Blob, EndpointTail, Ascii;
    var d4, e4 := Blob(d.identityKey) + EndpointTail(d), Blob(e.identityKey) + EndpointTail(e);
    var d3, e3 := Be(d.virtualPort, 2) + d4, Be(e.virtualPort, 2) + e4;
    var d2, e2 := Blob(d.onionAddress) + d3, Blob(e.onionAddress) + e3;
    var d1, e1 := Blob(d.installationId) + d2, Blob(e.installationId) + e2;
    BlobPrefixFree(ENDPOINT_DOMAIN, ENDPOINT_DOMAIN, Be(d.protocolVersion, 2) + d1, Be(e.protocolVersion, 2) + e1);
    PeelU16(d.protocolVersion, e.protocolVersion, d1, e1);
    BlobPrefixFree(d.installationId, e.installationId, d2, e2);
    BlobPrefixFree(d.onionAddress, e.onionAddress, d3, e3);
    PeelU16(d.virtualPort, e.virtualPort, d4, e4);
    BlobPrefixFree(d.identityKey, e.identityKey, EndpointTail(d), EndpointTail(e));
    EndpointTailInjective(d, e);
  }

  lemma TranscriptServerInjective(s: Transcript, t: Transcript)
    requires TranscriptServer(s) == TranscriptServer(t)
    ensures s.serverId == t.serverId && s.serverSequence == t.serverSequence && s.serverNonce == t.serverNonce
    ensures s.sessionId == t.sessionId && s.onionAddress == t.onionAddress
  {
    hide Be, Blob;
    var s3, t3 := Blob(s.sessionId) + Blob(s.onionAddress), Blob(t.sessionId) + Blob(t.onionAddress);
    var s2, t2 := Blob(s.serverNonce) + s3, Blob(t.serverNonce) + t3;
    BlobPrefixFree(s.serverId, t.serverId, Be(s.serverSequence, 8) + s2, Be(t.serverSequence, 8) + t2);
    PeelU64(s.serverSequence, t.serverSequence, s2, t2);
    BlobPrefixFree(s.serverNonce, t.serverNonce, s3, t3);
    BlobPrefixFree(s.sessionId, t.sessionId, Blob(s.onionAddress), Blob(t.onionAddress));
    assert Blob(s.onionAddress) + [] == Blob(t.onionAddress) + [];
    BlobPrefixFree(s.onionAddress, t.onionAddress, [], []);
  }

  /** Equal transcripts bytes mean both sides meant the same handshake. */
  lemma TranscriptBytesInjective(s: Transcript, t: Transcript)
    requires TranscriptBytes(s) == TranscriptBytes(t)
    ensures s == t
  {
    hide Be, Blob, TranscriptServer, Ascii;
    var s4, t4 := Blob(s.clientNonce) + TranscriptServer(s), Blob(t.clientNonce) + TranscriptServer(t);
    var s3, t3 := Blob(s.capabilityId) + s4, Blob(t.capabilityId) + t4;
    var s2, t2 := Be(s.clientSequence, 8) + s3, Be(t.clientSequence, 8) + t3;
    var s1, t1 := Blob(s.clientId) + s2, Blob(t.clientId) + t2;
    BlobPrefixFree(HANDSHAKE_DOMAIN, HANDSHAKE_DOMAIN, Be(s.protocolVersion, 2) + s1, Be(t.protocolVersion, 2) + t1);
    PeelU16(s.protocolVersion, t.protocolVersion, s1, t1);
    BlobPrefixFree(s.clientId, t.clientId, s2, t2);
    PeelU64(s.clientSequence, t.clientSequence, s3, t3);
    BlobPrefixFree(s.capabilityId, t.capabilityId, s4, t4);
    BlobPrefixFree(s.clientNonce, t.clientNonce, TranscriptServer(s), TranscriptServer(t));
    TranscriptServerInjective(s, t);
  }

  lemma MessageTailInjective(m: Message, n: Message)
    requires MessageTail(m) == MessageTail(n)
    ensures m.senderId == n.senderId && m.sequence == n.sequence
    ensures m.createdAt == n.createdAt && m.ciphertextHash == n.ciphertextHash
  {
    hide Be, Blob, Unsigned;
    var m2 := Be(Unsigned(m.createdAt), 8) + Blob(m.ciphertextHash);
    var n2 := Be(Unsigned(n.createdAt), 8) + Blob(n.ciphertextHash);
    BlobPrefixFree(m.senderId, n.senderId, Be(m.sequence, 8) + m2, Be(n.sequence, 8) + n2);
    PeelU64(m.sequence, n.sequence, m2, n2);
    PeelI64(m.createdAt, n.createdAt, Blob(m.ciphertextHash), Blob(n.ciphertextHash));
    assert Blob(m.ciphertextHash) + [] == Blob(n.ciphertextHash) + [];
    BlobPrefixFree(m.ciphertextHash, n.ciphertextHash, [], []);
  }

  /** Equal message bytes mean equal envelopes up to the ciphertext behind the hash. */
  lemma MessageBytesInjective(m: Message, n: Message)
    requires MessageBytes(m) == MessageBytes(n)
    ensures m == n
  {
    hide Be, Blob, MessageTail, Ascii;
    var m3, n3 := Blob(m.conversationId) + MessageTail(m), Blob(n.conversationId) + MessageTail(n);
    var m2, n2 := Blob(m.messageId) + m3, Blob(n.messageId) + n3;
    var m1, n1 := Blob(m.sessionId) + m2, Blob(n.sessionId) + n2;
    BlobPrefixFree(MESSAGE_DOMAIN, MESSAGE_DOMAIN, Be(m.protocolVersion, 2) + m1, Be(n.protocolVersion, 2) + n1);
    PeelU16(m.protocolVersion, n.protocolVersion, m1, n1);
    BlobPrefixFree(m.sessionId, n.sessionId, m2, n2);
    BlobPrefixFree(m.messageId, n.messageId, m3, n3);
    BlobPrefixFree(m.conversationId, n.conversationId, MessageTail(m), MessageTail(n));
    MessageTailInjective(m, n);
  }

  // ---------------------------------------------------------------- domain separation

  lemma DomainsDiffer()
    ensures ENDPOINT_DOMAIN != HANDSHAKE_DOMAIN && ENDPOINT_DOMAIN != MESSAGE_DOMAIN
    ensures HANDSHAKE_DOMAIN != MESSAGE_DOMAIN
  {
    assert |ENDPOINT_DOMAIN| == |"torchat-peer-endpoint-v1"| == 24;
    assert |HANDSHAKE_DOMAIN| == |"torchat-peer-handshake-v1"| == 25;
    assert |MESSAGE_DOMAIN| == |"torchat-peer-message-v1"| == 23;
  }

  /** No byte string is signed in two of the three roles. */
  lemma DomainsNeverCollide(e: Endpoint, t: Transcript, m: Message)
    ensures EndpointBytes(e) != TranscriptBytes(t)
    ensures EndpointBytes(e) != MessageBytes(m)
    ensures TranscriptBytes(t) != MessageBytes(m)
  {
    DomainsDiffer();
    StartsWithDomain(EndpointBytes(e), ENDPOINT_DOMAIN, TranscriptBytes(t), HANDSHAKE_DOMAIN);
    StartsWithDomain(EndpointBytes(e), ENDPOINT_DOMAIN, MessageBytes(m), MESSAGE_DOMAIN);
    StartsWithDomain(TranscriptBytes(t), HANDSHAKE_DOMAIN, MessageBytes(m), MESSAGE_DOMAIN);
  }

  lemma StartsWithDomain(a: Bytes, x: Text, b: Bytes, y: Text)
    requires Blob(x) <= a && Blob(y) <= b && x != y
    ensures a != b
  {
    if a == b {
      var p, q := a[|Blob(x)|..], b[|Blob(y)|..];
      assert a == Blob(x) + p && b == Blob(y) + q;
      BlobPrefixFree(x, y, p, q);
    }
  }

  // ---------------------------------------------------------------- the builder with a loop

  lemma {:induction false} BlobsThen(texts: seq<Text>, x: Text)
    ensures Blobs(texts + [x]) == Blobs(texts) + Blob(x)
  {
    if texts == [] {
      assert texts + [x] == [x] && [x][1..] == [];
    } else {
      assert (texts + [x])[1..] == texts[1..] + [x];
      BlobsThen(texts[1..], x);
    }
  }

  /** Appends the capabilities one after the other. */
  method PushCapabilities(start: Bytes, capabilities: seq<Text>) returns (bytes: Bytes)
    ensures bytes == start + Blobs(capabilities)
  {
    hide Blob;
    bytes := start;
    var k := 0;
    while k < |capabilities|
      invariant k <= |capabilities| && bytes == start + Blobs(capabilities[..k])
    {
      BlobsThen(capabilities[..k], capabilities[k]);
      assert capabilities[..k + 1] == capabilities[..k] + [capabilities[k]];
      bytes := bytes + Blob(capabilities[k]);
      k := k + 1;
    }
    assert capabilities[..k] == capabilities;
  }

  method PushEndpointTail(start: Bytes, e: Endpoint) returns (bytes: Bytes)
    ensures bytes == start + EndpointTail(e)
  {
    hide Be, Blobs, Unsigned;
    bytes := start + Be(|e.capabilities| % U32_LIMIT, 4);
    bytes := PushCapabilities(bytes, e.capabilities);
    bytes := bytes + Be(e.sequence, 8);
    bytes := bytes + Be(Unsigned(e.issuedAt), 8);
    match e.expiresAt {
      case Some(x) =>
        bytes := bytes + [1];
        bytes := bytes + Be(Unsigned(x), 8);
      case None => bytes := bytes + [0];
    }
    assert bytes == start + EndpointTail(e);
  }

  /** Appends field after field, with a loop over the capabilities. */
  method BuildEndpointBytes(e: Endpoint) returns (bytes: Bytes)
    ensures bytes == EndpointBytes(e)
  {
    hide Blob, Be, Ascii, EndpointTail;
    bytes := Blob(ENDPOINT_DOMAIN);
    bytes := bytes + Be(e.protocolVersion, 2);
    bytes := bytes + Blob(e.installationId);
    bytes := bytes + Blob(e.onionAddress);
    bytes := bytes + Be(e.virtualPort, 2);
    bytes := bytes + Blob(e.identityKey);
    bytes := PushEndpointTail(bytes, e);
    assert bytes == EndpointBytes(e);
  }
}
