/**
 The sender, two FIFO channels per session and an honest receiver, over any number of sessions. The channel to a
 receiver is the part of that session's wire it has not read yet; the channel back is the receiver's outbox. A
 receiver goes on reading and reporting after the sender has left its session.
 */
module PeerLink {
  import opened Foundation
  import opened PeerTypes
  import opened Delivery
  import opened DeliveryLedger
  import opened DeliveryOrder
  import opened DeliveryRuns
  import opened PeerWire

  // ---------------------------------------------------------------- the receiver

  /** What the acknowledgement forwarder of one envelope is waiting for. */
  datatype Forward = AwaitPersisted | AwaitDelivered | Finished | GaveUp

  datatype Peer = Peer(
    alive: bool,
    read: nat,
    handed: seq<Envelope>,
    forwards: seq<Forward>,
    outbox: seq<Frame>)

  /** One authenticated session: where its frames start on the wire, and its receiver. */
  datatype Session = Session(base: nat, id: Uuid, peer: Peer)

  datatype World = World(sender: Contact, sessions: seq<Session>)

  const START := World(Initial(), [])

  function AckOf(e: Envelope, kind: AckKind): Frame {
    AckFrame(Ack(e.sessionId, e.messageId, kind, Sha256(e.ciphertext)))
  }

  /** The reader of an authenticated session handles one frame. */
  function ReadFrame(p: Peer, f: Frame, sessionId: Uuid): Peer {
    var p := p.(read := p.read + 1);
    match f
    case MessageFrame(e) =>
      if e.sessionId != sessionId || e.sequence == 0 || e.ciphertext == [] then p.(alive := false)
      else p.(handed := p.handed + [e], forwards := p.forwards + [AwaitPersisted],
              outbox := p.outbox + [AckOf(e, Received)])
    case Ping(nonce) => p.(outbox := p.outbox + [Pong(nonce)])
    case ProbeRequest(nonce) => p.(outbox := p.outbox + [ProbeResponse(nonce)])
    case HandshakeOrErrorFrame => p.(alive := false)
    case _ => p
  }

  function Forwarded(p: Peer, i: nat, kind: AckKind, next: Forward): Peer
    requires i < |p.handed| && i < |p.forwards|
  {
    p.(forwards := p.forwards[i := next], outbox := p.outbox + [AckOf(p.handed[i], kind)])
  }

  datatype Move =
    | SenderTurn(round: Round)
    | SenderStep(input: Input)
    | PeerReads(session: nat)
    | PeerPersists(session: nat, index: nat)
    | PeerConcludes(session: nat, index: nat, kind: AckKind)
    | PeerGivesUp(session: nat, index: nat)

  /** Where the frames of a session end: at the next session's, or at the end of the wire. */
  function End(w: World, k: nat): nat
    requires k < |w.sessions|
  {
    if k + 1 < |w.sessions| then w.sessions[k + 1].base else |w.sender.wire|
  }

  /** The session the sender is in, or was in last. */
  function Current(w: World): Session
    requires w.sessions != []
  {
    w.sessions[|w.sessions| - 1]
  }

  function WithPeer(w: World, k: nat, p: Peer): World
    requires k < |w.sessions|
  {
    w.(sessions := w.sessions[k := w.sessions[k].(peer := p)])
  }

  function Consumed(p: Peer): Peer
    requires p.outbox != []
  {
    p.(outbox := p.outbox[1..])
  }

  /** A dial that succeeds opens a session with a receiver of its own. */
  function Opening(w: World, s': Contact): seq<Session> {
    if w.sender.phase == Waiting && s'.phase == Connected
    then w.sessions + [Session(|w.sender.wire|, s'.sessionId, Peer(true, |w.sender.wire|, [], [], []))]
    else w.sessions
  }

  /** What a receiver may do on its own: its application reports on any envelope it was handed, in any order. */
  predicate PeerMoves(w: World, m: Move, k: nat, p': Peer)
    requires k < |w.sessions|
  {
    var p := w.sessions[k].peer;
    match m
    case PeerReads(_) =>
      && p.alive && p.read < End(w, k) <= |w.sender.wire|
      && p' == ReadFrame(p, w.sender.wire[p.read], w.sessions[k].id)
    case PeerPersists(_, i) =>
      && i < |p.handed| && i < |p.forwards| && p.forwards[i] == AwaitPersisted
      && p' == Forwarded(p, i, Persisted, AwaitDelivered)
    case PeerConcludes(_, i, kind) =>
      && i < |p.handed| && i < |p.forwards| && p.forwards[i] == AwaitDelivered
      && (kind == Delivered || kind == Rejected)
      && p' == Forwarded(p, i, kind, Finished)
    case PeerGivesUp(_, i) =>
      && i < |p.forwards| && (p.forwards[i] == AwaitPersisted || p.forwards[i] == AwaitDelivered)
      && p' == p.(forwards := p.forwards[i := if p.forwards[i] == AwaitPersisted then GaveUp else Finished])
    case SenderTurn(_) => false
    case SenderStep(_) => false
  }

  /** Every interleaving of the sender's turns and the receivers' moves. */
  ghost predicate Moves(w: World, m: Move, w': World) {
    match m
    case SenderTurn(r) =>
      && w.sender.phase == Connected && w.sessions != []
      && (r.selected.Incoming? ==> Current(w).peer.outbox != [] && r.selected.frame == Current(w).peer.outbox[0])
      && var answered := if r.selected.Incoming? then WithPeer(w, |w.sessions| - 1, Consumed(Current(w).peer)) else w;
         w' == answered.(sender := ConnectedRound(w.sender, r))
    case SenderStep(i) =>
      && w.sender.phase != Connected
      && w' == World(Step(w.sender, i), Opening(w, Step(w.sender, i)))
    case PeerReads(k) => MovesAt(w, m, k, w')
    case PeerPersists(k, _) => MovesAt(w, m, k, w')
    case PeerConcludes(k, _, _) => MovesAt(w, m, k, w')
    case PeerGivesUp(k, _) => MovesAt(w, m, k, w')
  }

  predicate MovesAt(w: World, m: Move, k: nat, w': World) {
    && k < |w.sessions| && |w'.sessions| == |w.sessions|
    && PeerMoves(w, m, k, w'.sessions[k].peer) && w' == WithPeer(w, k, w'.sessions[k].peer)
  }

  predicate MoveRegistered(reg: Registry, m: Move) {
    && (m.SenderTurn? ==> RoundRegistered(reg, m.round))
    && (m.SenderStep? ==> InputRegistered(reg, m.input))
  }

  /** A run: worlds joined by moves, from the very start. */
  ghost predicate LinkRun(reg: Registry, worlds: seq<World>, moves: seq<Move>) {
    && |worlds| == |moves| + 1 && worlds[0] == START
    && forall i :: 0 <= i < |moves| ==> Moves(worlds[i], moves[i], worlds[i + 1]) && MoveRegistered(reg, moves[i])
  }

  // ---------------------------------------------------------------- what the link keeps

  function Envelopes(frames: seq<Frame>): seq<Envelope>
    decreases |frames|
  {
    if frames == [] then []
    else
      var f := frames[|frames| - 1];
      Envelopes(frames[..|frames| - 1]) + if f.MessageFrame? then [f.envelope] else []
  }

  /** Ids the peer has reported as persisted. */
  function Reported(p: Peer): set<Uuid> {
    set i | 0 <= i < |p.handed| && i < |p.forwards| && (p.forwards[i] == AwaitDelivered || p.forwards[i] == Finished)
      :: p.handed[i].messageId
  }

  predicate Genuine(reg: Registry, e: Envelope, sessionId: Uuid) {
    e.sessionId == sessionId && e.ciphertext == reg(e.messageId).ciphertext
  }

  predicate AwaitsAck(reg: Registry, f: Frame) {
    TagOf(reg, f).Some? && Enveloped(TagOf(reg, f).value)
  }

  predicate FramesGenuine(reg: Registry, wire: seq<Frame>, base: nat, sessionId: Uuid) {
    forall i :: base <= i < |wire| && wire[i].MessageFrame? ==> Genuine(reg, wire[i].envelope, sessionId)
  }

  predicate Answer(reg: Registry, sessionId: Uuid, reported: set<Uuid>, f: Frame) {
    match f
    case Pong(_) => true
    case ProbeResponse(_) => true
    case AckFrame(ack) =>
      && ack.sessionId == sessionId
      && ack.hash == Sha256(reg(ack.messageId).ciphertext)
      && (ack.kind == Received || ack.messageId in reported)
    case _ => false
  }

  predicate OutboxHonest(reg: Registry, outbox: seq<Frame>, sessionId: Uuid, reported: set<Uuid>) {
    forall k :: 0 <= k < |outbox| ==> Answer(reg, sessionId, reported, outbox[k])
  }

  /**
   Of the envelopes that await an acknowledgement, all but the last were reported persisted, and so was the
   last unless it is still in flight.
   */
  predicate WaitsItsTurn(reg: Registry, wire: seq<Frame>, base: nat, inFlight: set<Uuid>, reported: set<Uuid>) {
    forall i :: base <= i < |wire| && AwaitsAck(reg, wire[i]) ==>
      || wire[i].envelope.messageId in reported
      || (wire[i].envelope.messageId in inFlight && forall j :: i < j < |wire| ==> !AwaitsAck(reg, wire[j]))
  }

  /** Of two envelopes that await an acknowledgement, the earlier one was reported. */
  predicate Orderly(reg: Registry, wire: seq<Frame>, base: nat, reported: set<Uuid>) {
    forall i, j :: base <= i < j < |wire| && AwaitsAck(reg, wire[i]) && AwaitsAck(reg, wire[j]) ==>
      wire[i].envelope.messageId in reported
  }

  predicate PeerConsistent(reg: Registry, p: Peer, wire: seq<Frame>, base: nat, sessionId: Uuid) {
    && base <= p.read <= |wire|
    && |p.forwards| == |p.handed|
    && (p.alive ==> p.handed == Envelopes(wire[base..p.read]))
    && p.handed <= Envelopes(wire[base..])
    && (forall i :: 0 <= i < |p.handed| ==> Genuine(reg, p.handed[i], sessionId))
    && OutboxHonest(reg, p.outbox, sessionId, Reported(p))
  }

  /** What holds of one session and the frames it has on the wire so far. */
  predicate SessionSound(reg: Registry, z: Session, wire: seq<Frame>) {
    && z.base <= |wire|
    && PeerConsistent(reg, z.peer, wire, z.base, z.id)
    && FramesGenuine(reg, wire, z.base, z.id)
    && Orderly(reg, wire, z.base, Reported(z.peer))
  }

  predicate Spread(w: World) {
    && (forall k :: 0 <= k < |w.sessions| ==> w.sessions[k].base <= |w.sender.wire|)
    && (forall j, k :: 0 <= j < k < |w.sessions| ==> w.sessions[j].base <= w.sessions[k].base)
  }

  ghost predicate Link(reg: Registry, w: World) {
    && Sound(reg, w.sender) && LeavesNothing(w.sender) && WireLogged(reg, w.sender)
    && Spread(w)
    && (forall k :: 0 <= k < |w.sessions| ==> SessionSound(reg, w.sessions[k], w.sender.wire[..End(w, k)]))
    && (w.sender.phase == Connected ==>
          && w.sessions != [] && Current(w).id == w.sender.sessionId
          && WaitsItsTurn(reg, w.sender.wire, Current(w).base, w.sender.active.Keys, Reported(Current(w).peer)))
  }

  // ---------------------------------------------------------------- the receiver's moves keep it

  lemma EnvelopesSnoc(frames: seq<Frame>, f: Frame)
    ensures Envelopes(frames + [f]) == Envelopes(frames) + if f.MessageFrame? then [f.envelope] else []
  {
    assert (frames + [f])[..|frames|] == frames;
  }

  lemma ReportedGrows(p: Peer, p': Peer)
    requires |p.handed| == |p.forwards| && p.handed <= p'.handed && |p'.handed| == |p'.forwards|
    requires forall i :: 0 <= i < |p.forwards| && (p.forwards[i] == AwaitDelivered || p.forwards[i] == Finished) ==>
                           p'.forwards[i] == AwaitDelivered || p'.forwards[i] == Finished
    ensures Reported(p) <= Reported(p')
  {
    forall u | u in Reported(p) ensures u in Reported(p') {
      var i :| 0 <= i < |p.handed| && (p.forwards[i] == AwaitDelivered || p.forwards[i] == Finished)
          && p.handed[i].messageId == u;
      assert p'.handed[i].messageId == u;
    }
  }

  lemma {:induction false} EnvelopesConcat(a: seq<Frame>, b: seq<Frame>)
    ensures Envelopes(a + b) == Envelopes(a) + Envelopes(b)
    decreases |b|
  {
    if b == [] {
      assert a + b == a;
    } else {
      assert (a + b)[..|a + b| - 1] == a + b[..|b| - 1];
      EnvelopesConcat(a, b[..|b| - 1]);
    }
  }

  lemma ReadKeeps(reg: Registry, p: Peer, wire: seq<Frame>, base: nat, sessionId: Uuid)
    requires PeerConsistent(reg, p, wire, base, sessionId) && FramesGenuine(reg, wire, base, sessionId)
    requires p.alive && p.read < |wire|
    ensures PeerConsistent(reg, ReadFrame(p, wire[p.read], sessionId), wire, base, sessionId)
    ensures Reported(p) <= Reported(ReadFrame(p, wire[p.read], sessionId))
  {
    hide Envelopes;
    var f := wire[p.read];
    var p' := ReadFrame(p, f, sessionId);
    ReportedGrows(p, p');
    hide Reported;
    assert wire[base..p'.read] == wire[base..p.read] + [f];
    EnvelopesSnoc(wire[base..p.read], f);
    assert wire[base..] == wire[base..p'.read] + wire[p'.read..];
    EnvelopesConcat(wire[base..p'.read], wire[p'.read..]);
  }

  lemma ForwardKeeps(reg: Registry, p: Peer, p': Peer, i: nat, kind: AckKind, next: Forward,
                     wire: seq<Frame>, base: nat, sessionId: Uuid)
    requires PeerConsistent(reg, p, wire, base, sessionId)
    requires i < |p.forwards| && (next == AwaitDelivered || next == Finished) && p' == Forwarded(p, i, kind, next)
    ensures PeerConsistent(reg, p', wire, base, sessionId)
    ensures Reported(p) <= Reported(p')
  {
    ReportedGrows(p, p');
    assert p'.handed[i].messageId in Reported(p');
  }

  lemma GiveUpKeeps(reg: Registry, p: Peer, p': Peer, i: nat, next: Forward,
                    wire: seq<Frame>, base: nat, sessionId: Uuid)
    requires PeerConsistent(reg, p, wire, base, sessionId)
    requires i < |p.forwards| && p' == p.(forwards := p.forwards[i := next])
    requires p.forwards[i] == AwaitPersisted || next == Finished
    ensures PeerConsistent(reg, p', wire, base, sessionId)
    ensures Reported(p) <= Reported(p')
  {
    ReportedGrows(p, p');
  }

  lemma PeerMoveSession(reg: Registry, w: World, m: Move, k: nat, p': Peer, wire: seq<Frame>)
    requires k < |w.sessions| && End(w, k) <= |w.sender.wire| && wire == w.sender.wire[..End(w, k)]
    requires SessionSound(reg, w.sessions[k], wire) && PeerMoves(w, m, k, p')
    ensures SessionSound(reg, w.sessions[k].(peer := p'), wire) && Reported(w.sessions[k].peer) <= Reported(p')
  {
    hide Envelopes, Genuine, Answer, AwaitsAck;
    var z := w.sessions[k];
    match m {
      case PeerReads(_) => ReadKeeps(reg, z.peer, wire, z.base, z.id);
      case PeerPersists(_, i) => ForwardKeeps(reg, z.peer, p', i, Persisted, AwaitDelivered, wire, z.base, z.id);
      case PeerConcludes(_, i, kind) => ForwardKeeps(reg, z.peer, p', i, kind, Finished, wire, z.base, z.id);
      case PeerGivesUp(_, i) => GiveUpKeeps(reg, z.peer, p', i, p'.forwards[i], wire, z.base, z.id);
    }
  }

  lemma StillWaits(
      reg: Registry, wire: seq<Frame>, base: nat, inFlight: set<Uuid>, reported: set<Uuid>, reported': set<Uuid>)
    requires WaitsItsTurn(reg, wire, base, inFlight, reported) && reported <= reported'
    ensures WaitsItsTurn(reg, wire, base, inFlight, reported')
  {
  }

  lemma SameBases(w: World, k: nat, p: Peer)
    requires k < |w.sessions| && Spread(w)
    ensures Spread(WithPeer(w, k, p)) && forall j :: 0 <= j < |w.sessions| ==> End(WithPeer(w, k, p), j) == End(w, j)
  {
  }

  lemma PeerMoveKeeps(reg: Registry, w: World, m: Move, k: nat, w': World)
    requires Link(reg, w) && MovesAt(w, m, k, w')
    ensures Link(reg, w')
  {
    hide Sound, LeavesNothing, WireLogged, SessionSound, PeerMoves, WaitsItsTurn, Reported, Spread, End;
    var p' := w'.sessions[k].peer;
    SameBases(w, k, p');
    EndsOnWire(w);
    assert SessionSound(reg, w.sessions[k], w.sender.wire[..End(w, k)]);
    PeerMoveSession(reg, w, m, k, p', w.sender.wire[..End(w, k)]);
    forall j | 0 <= j < |w'.sessions| ensures SessionSound(reg, w'.sessions[j], w'.sender.wire[..End(w', j)]) {
      assert SessionSound(reg, w.sessions[j], w.sender.wire[..End(w, j)]);
    }
    if w.sender.phase == Connected {
      StillWaits(reg, w.sender.wire, Current(w).base, w.sender.active.Keys,
                 Reported(Current(w).peer), Reported(Current(w').peer));
    }
  }

  lemma EndsOnWire(w: World)
    requires Spread(w)
    ensures forall k :: 0 <= k < |w.sessions| ==> w.sessions[k].base <= End(w, k) <= |w.sender.wire|
  {
  }

  // ---------------------------------------------------------------- the sender's turn keeps it

  /** What the sender's side of the link depends on. */
  ghost predicate SenderSide(reg: Registry, s: Contact, base: nat, reported: set<Uuid>) {
    && base <= |s.wire|
    && FramesGenuine(reg, s.wire, base, s.sessionId)
    && WaitsItsTurn(reg, s.wire, base, s.active.Keys, reported)
  }

  lemma SameSide(reg: Registry, s: Contact, s': Contact, base: nat, reported: set<Uuid>)
    requires SenderSide(reg, s, base, reported)
    requires s.wire <= s'.wire && (forall i :: |s.wire| <= i < |s'.wire| ==> !s'.wire[i].MessageFrame?)
    requires s'.sessionId == s.sessionId
    requires forall u :: u in s.active && u !in s'.active ==> u in reported
    ensures SenderSide(reg, s', base, reported)
  {
    forall i | base <= i < |s'.wire| && AwaitsAck(reg, s'.wire[i])
      ensures || s'.wire[i].envelope.messageId in reported
              || (s'.wire[i].envelope.messageId in s'.active.Keys
                  && forall j :: i < j < |s'.wire| ==> !AwaitsAck(reg, s'.wire[j]))
    {
      assert i < |s.wire| && s'.wire[i] == s.wire[i];
    }
  }

  lemma ClosingGenuine(reg: Registry, c: Command, sessionId: Uuid)
    requires Registered(reg, c)
    ensures var f := ClosingFrame(c, sessionId); f.MessageFrame? ==> Genuine(reg, f.envelope, sessionId)
  {
  }

  lemma EnvelopeGenuine(reg: Registry, wire: seq<Frame>, c: Command, sent: nat, sessionId: Uuid, base: nat)
    requires base <= |wire| && FramesGenuine(reg, wire, base, sessionId) && Registered(reg, c)
    ensures FramesGenuine(reg, wire + FramesOf(c, sent, sessionId), base, sessionId)
  {
    hide FramesOf, TrackedIn;
    FramesCarry(reg, c, sent, sessionId);
    var frames := FramesOf(c, sent, sessionId);
    ClosingGenuine(reg, c, sessionId);
    hide Genuine, Registered, ClosingFrame;
    var wire' := wire + frames;
    forall i | base <= i < |wire'| && wire'[i].MessageFrame? ensures Genuine(reg, wire'[i].envelope, sessionId) {
      if i < |wire| {
        assert wire'[i] == wire[i];
      } else {
        assert wire'[i] == frames[i - |wire|];
      }
    }
  }

  lemma EnvelopeWaits(
      reg: Registry, wire: seq<Frame>, c: Command, sent: nat, sessionId: Uuid, base: nat, inFlight: set<Uuid>,
      reported: set<Uuid>)
    requires base <= |wire| && WaitsItsTurn(reg, wire, base, {}, reported) && Registered(reg, c)
    requires Enveloped(c.delivery) ==> c.messageId in inFlight
    ensures WaitsItsTurn(reg, wire + FramesOf(c, sent, sessionId), base, inFlight, reported)
  {
    FramesCarry(reg, c, sent, sessionId);
    hide FramesOf;
    var frames := FramesOf(c, sent, sessionId);
    var wire' := wire + frames;
    forall i | base <= i < |wire'| && AwaitsAck(reg, wire'[i])
      ensures || wire'[i].envelope.messageId in reported
              || (wire'[i].envelope.messageId in inFlight && forall j :: i < j < |wire'| ==> !AwaitsAck(reg, wire'[j]))
    {
      if i < |wire| {
        assert wire'[i] == wire[i];
      } else {
        assert wire'[i] == frames[i - |wire|];
      }
    }
  }

  lemma EnvelopeSide(reg: Registry, s: Contact, s': Contact, c: Command, base: nat, reported: set<Uuid>)
    requires SenderSide(reg, s, base, reported) && s.active == map[] && Registered(reg, c)
    requires s'.wire == s.wire + FramesOf(c, s.sentSequence, s.sessionId) && s'.sessionId == s.sessionId
    requires Enveloped(c.delivery) ==> c.messageId in s'.active
    ensures SenderSide(reg, s', base, reported)
  {
    hide FramesOf, FramesGenuine, WaitsItsTurn, Registered;
    assert s.active.Keys == {};
    EnvelopeGenuine(reg, s.wire, c, s.sentSequence, s.sessionId, base);
    EnvelopeWaits(reg, s.wire, c, s.sentSequence, s.sessionId, base, s'.active.Keys, reported);
  }

  /** One step of the send loop. */
  lemma FillOnce(s: Contact, budget: nat, at: int, c: Command, rest: Queues)
    requires |s.active| < MAX_IN_FLIGHT && PopNext(s.queues) == (Some(c), rest)
    ensures var frames := FramesOf(c, s.sentSequence, s.sessionId);
            Fill(s, budget, at) ==
            if c.endpoint != s.endpoint then
              (Disconnect(ReleaseAll(s.(queues := PushFront(rest, c)))), EndpointChanged)
            else if |frames| <= budget then Fill(Written(s.(queues := rest), c, at), budget - |frames|, at)
            else (FailSession(FailPopped(s.(queues := rest, wire := s.wire + frames[..budget]), c.delivery)),
                  WriteFailed)
  {
    hide Disconnect, ReleaseAll, PushFront, Written, FailSession, FailPopped, FramesOf, PopNext, QueueSize;
  }

  lemma FillNothing(s: Contact, budget: nat, at: int)
    requires |s.active| >= MAX_IN_FLIGHT || PopNext(s.queues).0.None?
    ensures Fill(s, budget, at) == (s, Filled)
  {
  }

  lemma EmptyWindow(s: Contact)
    requires |s.active| < MAX_IN_FLIGHT
    ensures s.active == map[]
  {
  }

  lemma PoppedIsRegistered(reg: Registry, s: Contact)
    requires Sound(reg, s) && PopNext(s.queues).0.Some?
    ensures Registered(reg, PopNext(s.queues).0.value)
  {
    hide Conserved, Ledger, InOrder;
    PopRegistered(reg, s.queues);
  }

  lemma WrittenSide(reg: Registry, s: Contact, p: Contact, c: Command, at: int, base: nat, reported: set<Uuid>)
    requires SenderSide(reg, s, base, reported) && |s.active| < MAX_IN_FLIGHT && Registered(reg, c)
    requires p == s.(queues := p.queues)
    ensures var w := Written(p, c, at);
            SenderSide(reg, w, base, reported) && w.sessionId == s.sessionId && s.wire <= w.wire
  {
    WrittenEntersWindow(p, c, at);
    WrittenWire(p, c, at);
    hide Written;
    EnvelopeSide(reg, p, Written(p, c, at), c, base, reported);
  }

  lemma {:induction false} FillSide(reg: Registry, s: Contact, budget: nat, at: int, base: nat, reported: set<Uuid>)
    requires Sound(reg, s) && s.phase == Connected && SenderSide(reg, s, base, reported)
    ensures var (s', r) := Fill(s, budget, at);
            r == Filled ==> SenderSide(reg, s', base, reported) && s'.sessionId == s.sessionId && s.wire <= s'.wire
    decreases QueueSize(s.queues)
  {
    hide *;
    var (next, rest) := PopNext(s.queues);
    PopShrinks(s.queues);
    if |s.active| >= MAX_IN_FLIGHT || next.None? {
      FillNothing(s, budget, at);
    } else {
      var c, frames := next.value, FramesOf(next.value, s.sentSequence, s.sessionId);
      FillOnce(s, budget, at, c, rest);
      if c.endpoint == s.endpoint && |frames| <= budget {
        PoppedIsRegistered(reg, s);
        EmptyWindow(s);
        SoundWritten(reg, s, c, at);
        var p := s.(queues := rest);
        WrittenSide(reg, s, p, c, at, base, reported);
        FillSide(reg, Written(p, c, at), budget - |frames|, at, base, reported);
      }
    }
  }

  lemma ApplyAckWindow(s: Contact, u: Uuid, kind: AckKind)
    requires KnowsDelivery(s, u)
    ensures var s' := ApplyAck(s, u, kind);
            && s'.wire == s.wire && s'.sessionId == s.sessionId
            && s'.active == if kind == Received then s.active else s.active - {u}
  {
    assert u !in s.active ==> s.active - {u} == s.active;
  }

  /** An honest answer never trips the hash check and only clears the window of what was reported. */
  lemma AnswerHandled(reg: Registry, s: Contact, f: Frame, reported: set<Uuid>, replyOk: bool, eventsOpen: bool)
    requires Typed(reg, s) && Answer(reg, s.sessionId, reported, f)
    ensures var (s', ok) := HandleFrame(s, f, replyOk, eventsOpen);
            && (ok <==> !f.ProbeResponse? || eventsOpen)
            && s'.wire == s.wire && s'.sessionId == s.sessionId
            && (forall u :: u in s.active && u !in s'.active ==> u in reported)
  {
    hide Typed, KnowsDelivery, FindDelivery, ApplyAck;
    if f.AckFrame? && KnowsDelivery(s, f.ack.messageId) {
      KnownHash(reg, s, f.ack.messageId);
      ApplyAckWindow(s, f.ack.messageId, f.ack.kind);
    }
  }

  lemma KnownHash(reg: Registry, s: Contact, u: Uuid)
    requires Typed(reg, s) && KnowsDelivery(s, u)
    ensures FindDelivery(s, u).expectedHash == Sha256(reg(u).ciphertext)
  {
    hide QueuesTyped, ProbesUntracked;
  }

  lemma SelectSide(reg: Registry, s: Contact, r: Round, base: nat, reported: set<Uuid>)
    requires Sound(reg, s) && s.phase == Connected && SenderSide(reg, s, base, reported)
    requires r.selected.Incoming? ==> Answer(reg, s.sessionId, reported, r.selected.frame)
    ensures Select(s, r).phase == Connected ==>
              && SenderSide(reg, Select(s, r), base, reported) && Select(s, r).sessionId == s.sessionId
              && Select(s, r).wire == s.wire
  {
    hide Conserved, Ledger, InOrder;
    match r.selected {
      case FromChannel(c) => SameSide(reg, s, Take(s, c), base, reported);
      case ChannelClosed =>
      case StreamBroken => SoundFailSession(reg, s);
      case Incoming(f) =>
        var a := s.(lastActivity := r.now);
        SoundElsewhere(reg, s, a);
        AnswerHandled(reg, a, f, reported, r.replyOk, r.eventsOpen);
        var (h, ok) := HandleFrame(a, f, r.replyOk, r.eventsOpen);
        SoundHandleFrame(reg, a, f, r.replyOk, r.eventsOpen);
        SoundFailSession(reg, h);
        SameSide(reg, s, h, base, reported);
      case Tick =>
    }
  }

  /** The state in which a turn looks at its events, unless the session already ended. */
  function BeforeSelect(s: Contact, r: Round): Contact {
    var a := Release(s, Expired(s, r.now));
    if r.now >= a.nextKeepalive then SendKeepalive(a, r) else a
  }

  lemma ReleaseSide(reg: Registry, s: Contact, waiters: set<Uuid>, base: nat, reported: set<Uuid>)
    requires SenderSide(reg, s, base, reported)
    ensures SenderSide(reg, Release(s, waiters), base, reported)
  {
  }

  lemma KeepaliveSide(reg: Registry, a: Contact, r: Round, base: nat, reported: set<Uuid>)
    requires Sound(reg, a) && a.phase == Connected && SenderSide(reg, a, base, reported)
    ensures Sound(reg, SendKeepalive(a, r)) && SenderSide(reg, SendKeepalive(a, r), base, reported)
  {
    hide Conserved, Ledger, InOrder;
    SoundElsewhere(reg, a, SendKeepalive(a, r));
    SameSide(reg, a, SendKeepalive(a, r), base, reported);
  }

  lemma BeforeSelectSide(reg: Registry, s: Contact, r: Round, base: nat, reported: set<Uuid>)
    requires Sound(reg, s) && s.phase == Connected && SenderSide(reg, s, base, reported)
    ensures var b := BeforeSelect(s, r);
            && Sound(reg, b) && b.phase == Connected && SenderSide(reg, b, base, reported)
            && b.sessionId == s.sessionId && s.wire <= b.wire
  {
    hide Conserved, Ledger, InOrder;
    var a := Release(s, Expired(s, r.now));
    SoundRelease(reg, s, Expired(s, r.now));
    ReleaseSide(reg, s, Expired(s, r.now), base, reported);
    assert a.wire == s.wire && a.sessionId == s.sessionId && a.phase == s.phase;
    KeepaliveSide(reg, a, r, base, reported);
  }

  lemma AfterFillCases(reg: Registry, s: Contact, r: Round)
    requires Sound(reg, s)
    ensures AfterFill(s, r).phase == Connected ==> AfterFill(s, r) == Select(BeforeSelect(s, r), r)
  {
    hide Conserved, Ledger, InOrder;
    SoundRelease(reg, s, Expired(s, r.now));
    SoundFailSession(reg, Release(s, Expired(s, r.now)));
  }

  lemma AfterFillSide(reg: Registry, s: Contact, r: Round, base: nat, reported: set<Uuid>)
    requires Sound(reg, s) && s.phase == Connected && SenderSide(reg, s, base, reported)
    requires r.selected.Incoming? ==> Answer(reg, s.sessionId, reported, r.selected.frame)
    ensures AfterFill(s, r).phase == Connected ==>
              && SenderSide(reg, AfterFill(s, r), base, reported)
              && AfterFill(s, r).sessionId == s.sessionId && s.wire <= AfterFill(s, r).wire
  {
    hide Conserved, Ledger, InOrder;
    AfterFillCases(reg, s, r);
    BeforeSelectSide(reg, s, r, base, reported);
    SelectSide(reg, BeforeSelect(s, r), r, base, reported);
  }

  lemma RoundSide(reg: Registry, s: Contact, r: Round, base: nat, reported: set<Uuid>)
    requires Sound(reg, s) && s.phase == Connected && SenderSide(reg, s, base, reported) && RoundRegistered(reg, r)
    requires r.selected.Incoming? ==> Answer(reg, s.sessionId, reported, r.selected.frame)
    ensures ConnectedRound(s, r).phase == Connected ==>
              && SenderSide(reg, ConnectedRound(s, r), base, reported)
              && ConnectedRound(s, r).sessionId == s.sessionId && s.wire <= ConnectedRound(s, r).wire
  {
    hide Conserved, Ledger, InOrder;
    var t := TakeAll(s, r.arrivals);
    SoundTakeAll(reg, s, r.arrivals);
    TakeAllQuiet(s, r.arrivals);
    SameSide(reg, s, t, base, reported);
    SoundFill(reg, t, r.budget, r.at);
    FillSide(reg, t, r.budget, r.at, base, reported);
    var (f, result) := Fill(t, r.budget, r.at);
    if result == Filled { AfterFillSide(reg, f, r, base, reported); }
  }

  /** Frames that carry no envelope disturb nothing, whatever they follow. */
  lemma QuietOrderly(
      reg: Registry, wire: seq<Frame>, wire': seq<Frame>, base: nat, sessionId: Uuid, reported: set<Uuid>)
    requires base <= |wire| && FramesGenuine(reg, wire, base, sessionId) && Orderly(reg, wire, base, reported)
    requires wire <= wire' && forall i :: |wire| <= i < |wire'| ==> !wire'[i].MessageFrame?
    ensures FramesGenuine(reg, wire', base, sessionId) && Orderly(reg, wire', base, reported)
  {
    hide Genuine;
    forall i | base <= i < |wire'| && wire'[i].MessageFrame? ensures Genuine(reg, wire'[i].envelope, sessionId) {
      assert wire'[i] == wire[i];
    }
    forall i, j | base <= i < j < |wire'| && AwaitsAck(reg, wire'[i]) && AwaitsAck(reg, wire'[j])
      ensures wire'[i].envelope.messageId in reported
    {
      assert wire'[i] == wire[i] && wire'[j] == wire[j];
    }
  }

  lemma SideOrderly(reg: Registry, s: Contact, base: nat, reported: set<Uuid>)
    requires SenderSide(reg, s, base, reported)
    ensures base <= |s.wire| && FramesGenuine(reg, s.wire, base, s.sessionId) && Orderly(reg, s.wire, base, reported)
  {
  }

  /** Whichever way the send loop ends, what it wrote is genuine and waited its turn. */
  lemma {:induction false} FillWire(reg: Registry, s: Contact, budget: nat, at: int, base: nat, reported: set<Uuid>)
    requires Sound(reg, s) && s.phase == Connected && SenderSide(reg, s, base, reported)
    ensures var wire := Fill(s, budget, at).0.wire;
            s.wire <= wire && FramesGenuine(reg, wire, base, s.sessionId) && Orderly(reg, wire, base, reported)
    decreases QueueSize(s.queues)
  {
    hide *;
    SideOrderly(reg, s, base, reported);
    var (next, rest) := PopNext(s.queues);
    PopShrinks(s.queues);
    if |s.active| >= MAX_IN_FLIGHT || next.None? {
      FillNothing(s, budget, at);
    } else {
      var c := next.value;
      var frames := FramesOf(c, s.sentSequence, s.sessionId);
      FillOnce(s, budget, at, c, rest);
      PoppedIsRegistered(reg, s);
      if c.endpoint != s.endpoint {
        EndpointChangeWire(s.(queues := PushFront(rest, c)));
      } else if |frames| <= budget {
        EmptyWindow(s);
        SoundWritten(reg, s, c, at);
        var p := s.(queues := rest);
        WrittenSide(reg, s, p, c, at, base, reported);
        FillWire(reg, Written(p, c, at), budget - |frames|, at, base, reported);
      } else {
        FailedWriteWire(reg, s, c, rest, budget, base, reported);
      }
    }
  }

  lemma EndpointChangeWire(s: Contact)
    ensures Disconnect(ReleaseAll(s)).wire == s.wire
  {
  }

  lemma FailedWriteWire(
      reg: Registry, s: Contact, c: Command, rest: Queues, budget: nat, base: nat, reported: set<Uuid>)
    requires base <= |s.wire| && FramesGenuine(reg, s.wire, base, s.sessionId) && Orderly(reg, s.wire, base, reported)
    requires Registered(reg, c) && budget < |FramesOf(c, s.sentSequence, s.sessionId)|
    ensures var written := FramesOf(c, s.sentSequence, s.sessionId)[..budget];
            var wire := FailSession(FailPopped(s.(queues := rest, wire := s.wire + written), c.delivery)).wire;
            s.wire <= wire && FramesGenuine(reg, wire, base, s.sessionId) && Orderly(reg, wire, base, reported)
  {
    hide Orderly, FramesGenuine, FramesOf, FailSession, TrackedIn;
    FramesCarry(reg, c, s.sentSequence, s.sessionId);
    var written := FramesOf(c, s.sentSequence, s.sessionId)[..budget];
    FailSessionQuiet(FailPopped(s.(queues := rest, wire := s.wire + written), c.delivery));
    QuietOrderly(reg, s.wire, s.wire + written, base, s.sessionId, reported);
  }

  /** The same for a whole turn, through every exit. */
  lemma RoundWire(reg: Registry, s: Contact, r: Round, base: nat, reported: set<Uuid>)
    requires Sound(reg, s) && s.phase == Connected && SenderSide(reg, s, base, reported) && RoundRegistered(reg, r)
    ensures var wire := ConnectedRound(s, r).wire;
            s.wire <= wire && FramesGenuine(reg, wire, base, s.sessionId) && Orderly(reg, wire, base, reported)
  {
    hide Conserved, Ledger, InOrder, Orderly, FramesGenuine, Fill, AfterFill;
    var t := TakeAll(s, r.arrivals);
    SoundTakeAll(reg, s, r.arrivals);
    TakeAllQuiet(s, r.arrivals);
    SameSide(reg, s, t, base, reported);
    FillWire(reg, t, r.budget, r.at, base, reported);
    var (f, result) := Fill(t, r.budget, r.at);
    if result == Filled {
      AfterFillQuiet(f, r);
      QuietOrderly(reg, f.wire, AfterFill(f, r).wire, base, s.sessionId, reported);
    }
  }

  lemma LongerWire(reg: Registry, p: Peer, wire: seq<Frame>, wire': seq<Frame>, base: nat, sessionId: Uuid)
    requires PeerConsistent(reg, p, wire, base, sessionId) && wire <= wire'
    ensures PeerConsistent(reg, p, wire', base, sessionId)
  {
    hide Genuine, Answer, Reported;
    assert wire'[base..p.read] == wire[base..p.read];
    assert wire'[base..] == wire[base..] + wire'[|wire|..];
    EnvelopesConcat(wire[base..], wire'[|wire|..]);
  }

  lemma ConsumedKeeps(reg: Registry, p: Peer, wire: seq<Frame>, base: nat, sessionId: Uuid)
    requires PeerConsistent(reg, p, wire, base, sessionId) && p.outbox != []
    ensures PeerConsistent(reg, Consumed(p), wire, base, sessionId) && Reported(Consumed(p)) == Reported(p)
    ensures Answer(reg, sessionId, Reported(p), p.outbox[0])
  {
    hide Envelopes, Genuine;
    assert Reported(Consumed(p)) == Reported(p);
  }

  /** The current session after a turn, whether the sender is still in it or not. */
  lemma TurnSession(reg: Registry, s: Contact, s': Contact, r: Round, z: Session, p': Peer)
    requires Sound(reg, s) && s.phase == Connected && RoundRegistered(reg, r) && s' == ConnectedRound(s, r)
    requires SessionSound(reg, z, s.wire) && z.id == s.sessionId
    requires WaitsItsTurn(reg, s.wire, z.base, s.active.Keys, Reported(z.peer))
    requires r.selected.Incoming? ==> z.peer.outbox != [] && r.selected.frame == z.peer.outbox[0]
    requires p' == if r.selected.Incoming? then Consumed(z.peer) else z.peer
    ensures s.wire <= s'.wire && SessionSound(reg, z.(peer := p'), s'.wire)
    ensures s'.phase == Connected ==>
              s'.sessionId == z.id && WaitsItsTurn(reg, s'.wire, z.base, s'.active.Keys, Reported(p'))
  {
    hide Sound, Answer, ConnectedRound, WaitsItsTurn, Reported, PeerConsistent, FramesGenuine, Orderly, RoundRegistered;
    if r.selected.Incoming? { ConsumedKeeps(reg, z.peer, s.wire, z.base, z.id); }
    assert SenderSide(reg, s, z.base, Reported(z.peer));
    RoundWire(reg, s, r, z.base, Reported(z.peer));
    RoundSide(reg, s, r, z.base, Reported(z.peer));
    LongerWire(reg, p', s.wire, s'.wire, z.base, z.id);
  }

  lemma SenderTurnKeeps(reg: Registry, w: World, r: Round, w': World)
    requires Link(reg, w) && Moves(w, SenderTurn(r), w') && RoundRegistered(reg, r)
    ensures Link(reg, w')
  {
    hide Sound, WireLogged, SessionSound, ConnectedRound, WaitsItsTurn, Reported, RoundRegistered, Consumed;
    var s, s' := w.sender, w'.sender;
    SoundRound(reg, s, r);
    RoundKeepsWire(reg, s, r);
    var last := |w.sessions| - 1;
    assert s.wire[..End(w, last)] == s.wire;
    assert SessionSound(reg, w.sessions[last], s.wire[..End(w, last)]);
    TurnSession(reg, s, s', r, w.sessions[last], w'.sessions[last].peer);
    forall k | 0 <= k < |w'.sessions| ensures SessionSound(reg, w'.sessions[k], s'.wire[..End(w', k)]) {
      if k == last {
        assert s'.wire[..End(w', last)] == s'.wire;
      } else {
        assert w'.sessions[k] == w.sessions[k] && End(w', k) == End(w, k);
        assert s'.wire[..End(w', k)] == s.wire[..End(w, k)];
        assert SessionSound(reg, w.sessions[k], s.wire[..End(w, k)]);
      }
    }
  }

  // ---------------------------------------------------------------- the sender between sessions

  /** Outside a session nothing is written, and a session opens only from waiting, with an empty window. */
  lemma IdleStep(s: Contact, i: Input)
    requires s.phase != Connected
    ensures var s' := Step(s, i);
            s'.wire == s.wire && (s'.phase == Connected ==> s.phase == Waiting && s'.active == map[])
  {
    hide TakeAll, FailQueued;
    if s.phase == Top && i.Drain? { TakeAllQuiet(s, i.arrivals); }
    FailQueuedQuiet(s);
  }

  lemma FreshSession(reg: Registry, wire: seq<Frame>, id: Uuid)
    ensures SessionSound(reg, Session(|wire|, id, Peer(true, |wire|, [], [], [])), wire)
  {
    assert wire[|wire|..|wire|] == [] && wire[|wire|..] == [];
  }

  lemma SenderStepKeeps(reg: Registry, w: World, i: Input, w': World)
    requires Link(reg, w) && Moves(w, SenderStep(i), w') && InputRegistered(reg, i)
    ensures Link(reg, w')
  {
    hide Sound, LeavesNothing, WireLogged, SessionSound, Step, InputRegistered, Reported;
    var s, s' := w.sender, w'.sender;
    SoundStep(reg, s, i);
    StepKeepsWire(reg, s, i);
    IdleStep(s, i);
    FreshSession(reg, s.wire, s'.sessionId);
    forall k | 0 <= k < |w'.sessions| ensures SessionSound(reg, w'.sessions[k], s'.wire[..End(w', k)]) {
      if k < |w.sessions| {
        assert w'.sessions[k] == w.sessions[k] && End(w', k) == End(w, k);
        assert SessionSound(reg, w.sessions[k], s.wire[..End(w, k)]);
      } else {
        assert s'.wire[..End(w', k)] == s.wire;
      }
    }
  }

  lemma MoveKeepsLink(reg: Registry, w: World, m: Move, w': World)
    requires Link(reg, w) && Moves(w, m, w') && MoveRegistered(reg, m)
    ensures Link(reg, w')
  {
    hide Link, MovesAt, InputRegistered, RoundRegistered;
    match m {
      case SenderTurn(r) => SenderTurnKeeps(reg, w, r, w');
      case SenderStep(i) => SenderStepKeeps(reg, w, i, w');
      case PeerReads(k) => PeerMoveKeeps(reg, w, m, k, w');
      case PeerPersists(k, _) => PeerMoveKeeps(reg, w, m, k, w');
      case PeerConcludes(k, _, _) => PeerMoveKeeps(reg, w, m, k, w');
      case PeerGivesUp(k, _) => PeerMoveKeeps(reg, w, m, k, w');
    }
  }

  lemma LinkInitially(reg: Registry)
    ensures Link(reg, START)
  {
    hide Sound;
    SoundInitially(reg);
  }

  /** In every run the link invariant holds in every world. */
  lemma {:induction false} LinkAlways(reg: Registry, worlds: seq<World>, moves: seq<Move>, n: nat)
    requires LinkRun(reg, worlds, moves) && n < |worlds|
    ensures Link(reg, worlds[n])
    decreases n
  {
    hide Link, Moves, MoveRegistered;
    if n == 0 {
      LinkInitially(reg);
    } else {
      LinkAlways(reg, worlds, moves, n - 1);
      MoveKeepsLink(reg, worlds[n - 1], moves[n - 1], worlds[n]);
    }
  }

  // ---------------------------------------------------------------- theorems

  /**
   In every world of every run, of two envelopes of one session that await an acknowledgement the earlier one has
   been reported persisted by that session's receiver, whether or not the session still lasts.
   */
  lemma NextWaitsForPersisted(reg: Registry, worlds: seq<World>, moves: seq<Move>, n: nat, k: nat, i: nat, j: nat)
    requires LinkRun(reg, worlds, moves) && n < |worlds| && k < |worlds[n].sessions|
    requires var w := worlds[n];
             && w.sessions[k].base <= i < j < End(w, k) <= |w.sender.wire|
             && AwaitsAck(reg, w.sender.wire[i]) && AwaitsAck(reg, w.sender.wire[j])
    ensures worlds[n].sender.wire[i].envelope.messageId in Reported(worlds[n].sessions[k].peer)
  {
    LinkAlways(reg, worlds, moves, n);
    hide LinkRun, Sound, WireLogged, PeerConsistent, FramesGenuine, AwaitsAck, Reported;
    var w := worlds[n];
    assert SessionSound(reg, w.sessions[k], w.sender.wire[..End(w, k)]);
    assert w.sender.wire[..End(w, k)][i] == w.sender.wire[i] && w.sender.wire[..End(w, k)][j] == w.sender.wire[j];
  }

  /**
   No turn of any run fails on an answer of the receiver: where a turn handles the frame, after it took commands,
   wrote and released, the frame is refused only if it is a probe response and the event queue is closed.
   */
  lemma HashMismatchUnreachable(reg: Registry, worlds: seq<World>, moves: seq<Move>, n: nat)
    requires LinkRun(reg, worlds, moves) && n < |moves| && moves[n].SenderTurn? && moves[n].round.selected.Incoming?
    requires var r := moves[n].round; Fill(TakeAll(worlds[n].sender, r.arrivals), r.budget, r.at).1 == Filled
    ensures var r := moves[n].round;
            var f := Fill(TakeAll(worlds[n].sender, r.arrivals), r.budget, r.at).0;
            HandleFrame(BeforeSelect(f, r).(lastActivity := r.now), r.selected.frame, r.replyOk, r.eventsOpen).1
            <==> !r.selected.frame.ProbeResponse? || r.eventsOpen
  {
    LinkAlways(reg, worlds, moves, n);
    var w, r := worlds[n], moves[n].round;
    assert Moves(w, moves[n], worlds[n + 1]) && MoveRegistered(reg, moves[n]);
    var last := |w.sessions| - 1;
    assert w.sender.wire[..End(w, last)] == w.sender.wire;
    assert SessionSound(reg, w.sessions[last], w.sender.wire[..End(w, last)]);
    ConsumedKeeps(reg, Current(w).peer, w.sender.wire, Current(w).base, w.sender.sessionId);
    hide LinkRun, Moves;
    TurnHandlesAnswer(reg, w.sender, r, Current(w).base, Reported(Current(w).peer));
  }

  lemma TurnHandlesAnswer(reg: Registry, s: Contact, r: Round, base: nat, reported: set<Uuid>)
    requires Sound(reg, s) && s.phase == Connected && SenderSide(reg, s, base, reported) && RoundRegistered(reg, r)
    requires r.selected.Incoming? && Answer(reg, s.sessionId, reported, r.selected.frame)
    requires Fill(TakeAll(s, r.arrivals), r.budget, r.at).1 == Filled
    ensures var f := Fill(TakeAll(s, r.arrivals), r.budget, r.at).0;
            HandleFrame(BeforeSelect(f, r).(lastActivity := r.now), r.selected.frame, r.replyOk, r.eventsOpen).1
            <==> !r.selected.frame.ProbeResponse? || r.eventsOpen
  {
    hide Conserved, Ledger, InOrder, Fill, HandleFrame, BeforeSelect, Answer;
    var t := TakeAll(s, r.arrivals);
    SoundTakeAll(reg, s, r.arrivals);
    TakeAllQuiet(s, r.arrivals);
    SameSide(reg, s, t, base, reported);
    SoundFill(reg, t, r.budget, r.at);
    FillSide(reg, t, r.budget, r.at, base, reported);
    var f := Fill(t, r.budget, r.at).0;
    BeforeSelectSide(reg, f, r, base, reported);
    var b := BeforeSelect(f, r);
    SoundElsewhere(reg, b, b.(lastActivity := r.now));
    AnswerHandled(reg, b.(lastActivity := r.now), r.selected.frame, reported, r.replyOk, r.eventsOpen);
  }

  // ---------------------------------------------------------------- what the receivers hand over

  lemma {:induction false} TrackedOfEnvelopes(reg: Registry, frames: seq<Frame>)
    ensures TrackedIn(reg, frames) == TrackedIn(reg, Reframed(Envelopes(frames)))
    decreases |frames|
  {
    if frames != [] {
      var front, f := frames[..|frames| - 1], frames[|frames| - 1];
      TrackedOfEnvelopes(reg, front);
      if f.MessageFrame? {
        var all := Reframed(Envelopes(frames));
        assert all[..|all| - 1] == Reframed(Envelopes(front));
        assert all[|all| - 1] == f;
      } else {
        assert Envelopes(frames) == Envelopes(front);
      }
    }
  }

  function Reframed(es: seq<Envelope>): seq<Frame> {
    seq(|es|, i requires 0 <= i < |es| => MessageFrame(es[i]))
  }

  /** The deliveries handed to the receiving application, in order. */
  function HandedOver(reg: Registry, p: Peer): seq<DeliveryTag> { TrackedIn(reg, Reframed(p.handed)) }

  /** How many tracked envelopes earlier sessions put on the wire. */
  function Before(reg: Registry, w: World, k: nat): nat
    requires k < |w.sessions|
  {
    if w.sessions[k].base <= |w.sender.wire| then |TrackedIn(reg, w.sender.wire[..w.sessions[k].base])| else 0
  }

  /** The log position at which the i-th delivery handed over in session k was accepted. */
  function AcceptedAt(reg: Registry, w: World, k: nat, i: nat): int
    requires k < |w.sessions|
  {
    if Before(reg, w, k) + i < |WrittenTickets(w.sender.log)|
    then WrittenTickets(w.sender.log)[Before(reg, w, k) + i] else -1
  }

  lemma {:induction false} TrackedOfPrefix(reg: Registry, es: seq<Envelope>, all: seq<Envelope>)
    requires es <= all
    ensures TrackedIn(reg, Reframed(es)) <= TrackedIn(reg, Reframed(all))
  {
    assert Reframed(all) == Reframed(es) + Reframed(all)[|es|..];
    TrackedInConcat(reg, Reframed(es), Reframed(all)[|es|..]);
  }

  lemma StretchOnWire(reg: Registry, wire: seq<Frame>, base: nat, end: nat, handed: seq<Envelope>)
    requires base <= end <= |wire| && handed <= Envelopes(wire[base..end])
    ensures TrackedIn(reg, wire[..base]) + TrackedIn(reg, Reframed(handed)) <= TrackedIn(reg, wire[..end])
    ensures TrackedIn(reg, wire[..end]) <= TrackedIn(reg, wire)
  {
    hide TrackedIn, Envelopes, Reframed;
    var mine := wire[base..end];
    assert wire == wire[..end] + wire[end..] && wire[..end] == wire[..base] + mine;
    TrackedInConcat(reg, wire[..end], wire[end..]);
    TrackedInConcat(reg, wire[..base], mine);
    TrackedOfEnvelopes(reg, mine);
    TrackedOfPrefix(reg, handed, Envelopes(mine));
  }

  lemma HandedFromSegment(reg: Registry, z: Session, wire: seq<Frame>, end: nat)
    requires z.base <= end <= |wire| && SessionSound(reg, z, wire[..end])
    ensures z.peer.handed <= Envelopes(wire[z.base..end])
  {
    assert wire[..end][z.base..] == wire[z.base..end];
  }

  lemma SessionPart(reg: Registry, w: World, k: nat)
    requires Link(reg, w) && k < |w.sessions|
    ensures w.sessions[k].base <= End(w, k) <= |w.sender.wire|
    ensures SessionSound(reg, w.sessions[k], w.sender.wire[..End(w, k)])
    ensures TrackedIn(reg, w.sender.wire) == WroteTracked(w.sender.log)
  {
    hide SessionSound, TrackedIn, WroteTracked;
  }

  /** What session k handed over is a stretch of the sender's writes that ends before the next session's begins. */
  lemma HandedIsStretch(reg: Registry, w: World, k: nat)
    requires Link(reg, w) && k < |w.sessions|
    ensures var handed, wrote, first :=
              HandedOver(reg, w.sessions[k].peer), WroteTracked(w.sender.log), Before(reg, w, k);
            && first + |handed| <= |wrote| && handed == wrote[first..first + |handed|]
            && (k + 1 < |w.sessions| ==> first + |handed| <= Before(reg, w, k + 1))
  {
    hide Link, SessionSound, Envelopes, TrackedIn, WroteTracked, Reframed;
    var wire, z, end := w.sender.wire, w.sessions[k], End(w, k);
    SessionPart(reg, w, k);
    HandedFromSegment(reg, z, wire, end);
    StretchOnWire(reg, wire, z.base, end, z.peer.handed);
    Stretch(TrackedIn(reg, wire[..z.base]), HandedOver(reg, z.peer), TrackedIn(reg, wire[..end]), TrackedIn(reg, wire));
  }

  lemma Stretch<T>(a: seq<T>, b: seq<T>, c: seq<T>, d: seq<T>)
    requires a + b <= c <= d
    ensures |a| + |b| <= |c| <= |d| && b == d[|a|..|a| + |b|]
  {
    assert a + b <= d;
    assert b == (a + b)[|a|..] == d[..|a + b|][|a|..];
  }

  /**
   Over all sessions of a run, the receivers hand tracked envelopes over in acceptance order: each was accepted at a
   log position that rises within a session and from every session to the next, even after the sender has left.
   */
  lemma HandedInAcceptanceOrder(reg: Registry, worlds: seq<World>, moves: seq<Move>, n: nat)
    requires LinkRun(reg, worlds, moves) && n < |worlds|
    ensures var w := worlds[n];
            && (forall k, i :: 0 <= k < |w.sessions| && 0 <= i < |HandedOver(reg, w.sessions[k].peer)| ==>
                  && 0 <= AcceptedAt(reg, w, k, i) < |w.sender.log|
                  && w.sender.log[AcceptedAt(reg, w, k, i)] == Accepted(HandedOver(reg, w.sessions[k].peer)[i]))
            && (forall k, i, l, j ::
                  && 0 <= k <= l < |w.sessions| && 0 <= i < |HandedOver(reg, w.sessions[k].peer)|
                  && 0 <= j < |HandedOver(reg, w.sessions[l].peer)| && (k == l ==> i < j)
                  ==> AcceptedAt(reg, w, k, i) < AcceptedAt(reg, w, l, j))
  {
    hide *;
    LinkAlways(reg, worlds, moves, n);
    var w := worlds[n];
    forall k, i | 0 <= k < |w.sessions| && 0 <= i < |HandedOver(reg, w.sessions[k].peer)|
      ensures 0 <= AcceptedAt(reg, w, k, i) < |w.sender.log|
           && w.sender.log[AcceptedAt(reg, w, k, i)] == Accepted(HandedOver(reg, w.sessions[k].peer)[i])
    {
      HandedWasAccepted(reg, w, k, i);
    }
    forall k, i, l, j |
        && 0 <= k <= l < |w.sessions| && 0 <= i < |HandedOver(reg, w.sessions[k].peer)|
        && 0 <= j < |HandedOver(reg, w.sessions[l].peer)| && (k == l ==> i < j)
      ensures AcceptedAt(reg, w, k, i) < AcceptedAt(reg, w, l, j)
    {
      HandedRises(reg, w, k, i, l, j);
    }
  }

  lemma LinkLog(reg: Registry, w: World)
    requires Link(reg, w)
    ensures Increasing(WrittenTickets(w.sender.log))
    ensures |WrittenTickets(w.sender.log)| == |WroteTracked(w.sender.log)|
    ensures forall k :: 0 <= k < |WroteTracked(w.sender.log)| ==>
              && 0 <= WrittenTickets(w.sender.log)[k] < |w.sender.log|
              && w.sender.log[WrittenTickets(w.sender.log)[k]] == Accepted(WroteTracked(w.sender.log)[k])
  {
    SoundLog(reg, w.sender);
    hide Sound, Increasing, SessionSound, WaitsItsTurn;
    WritesFollowAcceptances(w.sender.log);
  }

  lemma HandedWasAccepted(reg: Registry, w: World, k: nat, i: nat)
    requires Link(reg, w) && k < |w.sessions| && i < |HandedOver(reg, w.sessions[k].peer)|
    ensures 0 <= AcceptedAt(reg, w, k, i) < |w.sender.log|
    ensures w.sender.log[AcceptedAt(reg, w, k, i)] == Accepted(HandedOver(reg, w.sessions[k].peer)[i])
  {
    hide Link, HandedOver, WroteTracked, WrittenTickets, Before, Increasing;
    LinkLog(reg, w);
    HandedIsStretch(reg, w, k);
  }

  lemma HandedRises(reg: Registry, w: World, k: nat, i: nat, l: nat, j: nat)
    requires Link(reg, w) && k <= l < |w.sessions| && (k == l ==> i < j)
    requires i < |HandedOver(reg, w.sessions[k].peer)| && j < |HandedOver(reg, w.sessions[l].peer)|
    ensures AcceptedAt(reg, w, k, i) < AcceptedAt(reg, w, l, j)
  {
    hide Link, HandedOver, WroteTracked, WrittenTickets, Before;
    LinkLog(reg, w);
    HandedIsStretch(reg, w, k);
    HandedIsStretch(reg, w, l);
    StretchesFollow(reg, w, k, l);
  }

  lemma {:induction false} StretchesFollow(reg: Registry, w: World, k: nat, l: nat)
    requires Link(reg, w) && k <= l < |w.sessions|
    ensures k < l ==> Before(reg, w, k) + |HandedOver(reg, w.sessions[k].peer)| <= Before(reg, w, l)
    decreases l
  {
    hide Link, HandedOver, Before;
    if k < l {
      StretchesFollow(reg, w, k, l - 1);
      HandedIsStretch(reg, w, l - 1);
    }
  }
}
