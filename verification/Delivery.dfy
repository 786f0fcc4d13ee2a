/**
 The per-contact delivery task as a state machine: command queues, the one-slot in-flight window, the
 deliveries persisted by the peer but not yet delivered, and every exit of a connected session.
 A `Contact` is the whole state between two awaits; `Step` is one turn of the contact task. `log` records what the
 task did with each delivery, in order.
 */
module Delivery {
  import opened Foundation
  import opened PeerTypes

  const MAX_IN_FLIGHT := 1
  const ACK_TIMEOUT := 60_000
  const SESSION_IDLE_TIMEOUT := 90_000
  const KEEPALIVE_INTERVAL := 25_000
  const KEEPALIVE_TIMEOUT := 15_000

  // ---------------------------------------------------------------- command queues

  datatype Queues = Queues(
    durable: seq<Command>,
    endpointUpdate: Option<Command>,
    probe: Option<Command>,
    ephemeral: Option<Command>,
    dedupe: set<string>)

  const EMPTY_QUEUES := Queues([], None, None, None, {})

  function Complete(q: Queues, tag: DeliveryTag): Queues {
    match tag.DedupeKey()
    case Some(key) => q.(dedupe := q.dedupe - {key})
    case None => q
  }

  predicate Accepts(q: Queues, c: Command) {
    c.delivery.Tracked() && c.delivery.DedupeKey().value !in q.dedupe
  }

  function Enqueue(q: Queues, c: Command): Queues {
    if c.delivery.Tracked() then
      if Accepts(q, c)
      then q.(durable := q.durable + [c], dedupe := q.dedupe + {c.delivery.DedupeKey().value})
      else q
    else PutSlot(q, c)
  }

  function PutSlot(q: Queues, c: Command): Queues {
    if c.delivery.EndpointUpdate? then q.(endpointUpdate := Some(c))
    else if c.delivery.Probe? then q.(probe := Some(c))
    else q.(ephemeral := Some(c))
  }

  function PushFront(q: Queues, c: Command): Queues {
    if c.delivery.Tracked() then q.(durable := [c] + q.durable) else PutSlot(q, c)
  }

  predicate HasDialWorthy(q: Queues) {
    q.durable != [] || q.endpointUpdate.Some? || q.probe.Some?
  }

  predicate IsEmpty(q: Queues) {
    q.durable == [] && q.endpointUpdate.None? && q.probe.None? && q.ephemeral.None?
  }

  function ConnectionTemplate(q: Queues): Option<Command> {
    if q.durable != [] then Some(q.durable[0])
    else if q.endpointUpdate.Some? then q.endpointUpdate
    else q.probe
  }

  /** The next command to write, and the queues without it. */
  function PopNext(q: Queues): (Option<Command>, Queues) {
    if q.durable != [] then (Some(q.durable[0]), q.(durable := q.durable[1..]))
    else if q.endpointUpdate.Some? then (q.endpointUpdate, q.(endpointUpdate := None))
    else if q.probe.Some? then (q.probe, q.(probe := None))
    else (q.ephemeral, q.(ephemeral := None))
  }

  function Slots(o: Option<Command>): nat { if o.Some? then 1 else 0 }

  function QueueSize(q: Queues): nat {
    |q.durable| + Slots(q.endpointUpdate) + Slots(q.probe) + Slots(q.ephemeral)
  }

  /** Each command waits in the place its delivery tag belongs to. */
  predicate SlotsTyped(q: Queues) {
    && (forall i :: 0 <= i < |q.durable| ==> q.durable[i].delivery.Tracked())
    && (q.endpointUpdate.Some? ==> q.endpointUpdate.value.delivery.EndpointUpdate?)
    && (q.probe.Some? ==> q.probe.value.delivery.Probe?)
    && (q.ephemeral.Some? ==>
          var t := q.ephemeral.value.delivery;
          !t.Tracked() && !t.EndpointUpdate? && !t.Probe?)
  }

  // ---------------------------------------------------------------- session state

  datatype ActiveDelivery = ActiveDelivery(
    delivery: DeliveryTag, expectedHash: Digest, endpointSequence: Option<nat>, sentAt: int)

  datatype EndpointProbe = EndpointProbe(endpointSequence: Option<nat>, sentAt: int, delivery: DeliveryTag)

  datatype Keepalive = Keepalive(nonce: nat, deadline: int)

  datatype Phase = Top | Waiting | Connected | Returned

  /**
   What happened to a delivery. All but `Released` are visible outside the contact task; `upTo` is the endpoint
   sequence an acknowledgement confirms along with its delivery.
   */
  datatype Entry =
    | Accepted(tag: DeliveryTag)
    | Wrote(tag: DeliveryTag)
    | Acked(tag: DeliveryTag, kind: AckKind, upTo: Option<nat>)
    | BackedOff(tag: DeliveryTag)
    | Released(tags: set<DeliveryTag>)

  datatype Contact = Contact(
    queues: Queues,
    channelOpen: bool,
    phase: Phase,
    endpoint: PeerAddress,
    sessionId: Uuid,
    active: map<Uuid, ActiveDelivery>,
    awaiting: map<Uuid, ActiveDelivery>,
    probes: map<nat, EndpointProbe>,
    sentSequence: nat,
    lastActivity: int,
    nextKeepalive: int,
    keepalive: Option<Keepalive>,
    wire: seq<Frame>,
    log: seq<Entry>)

  function Initial(): Contact {
    Contact(EMPTY_QUEUES, true, Top, PeerAddress("", "", "", 0, 0), "",
            map[], map[], map[], 0, 0, 0, None, [], [])
  }

  function TagsIn(m: map<Uuid, ActiveDelivery>): set<DeliveryTag> {
    set u | u in m :: m[u].delivery
  }

  function KeysOf(tags: set<DeliveryTag>): set<string> {
    set t | t in tags && t.DedupeKey().Some? :: t.DedupeKey().value
  }

  function Log(s: Contact, e: Entry): Contact { s.(log := s.log + [e]) }

  function Take(s: Contact, c: Command): Contact {
    var s' := s.(queues := Enqueue(s.queues, c));
    if Accepts(s.queues, c) then Log(s', Accepted(c.delivery)) else s'
  }

  function TakeAll(s: Contact, cs: seq<Command>): Contact
    decreases |cs|
  {
    if cs == [] then s else TakeAll(Take(s, cs[0]), cs[1..])
  }

  // ---------------------------------------------------------------- writing

  /** The endpoint updates of a command that this session has not sent yet, in order. */
  function UnsentUpdates(updates: seq<nat>, sent: nat): (r: seq<nat>)
    decreases |updates|
  {
    if updates == [] then []
    else if updates[0] <= sent then UnsentUpdates(updates[1..], sent)
    else [updates[0]] + UnsentUpdates(updates[1..], updates[0])
  }

  function Last(s: seq<nat>, otherwise: nat): nat { if s == [] then otherwise else s[|s| - 1] }

  function EnvelopeOf(c: Command, sessionId: Uuid): Envelope {
    Envelope(sessionId, c.messageId, c.sequence, c.ciphertext)
  }

  predicate IsControl(tag: DeliveryTag) { tag.Presence? || tag.Typing? || tag.ConversationFocus? }

  function ClosingFrame(c: Command, sessionId: Uuid): Frame {
    match c.delivery
    case Presence(online) => PresenceFrame(if online then Online else Away, c.sequence)
    case Typing(typing) => TypingFrame(typing, c.sequence)
    case ConversationFocus(focused) => FocusFrame(focused, c.sequence)
    case EndpointUpdate => Ping(c.sequence)
    case Probe => ProbeRequest(c.sequence)
    case _ => MessageFrame(EnvelopeOf(c, sessionId))
  }

  function UpdateFrames(sequences: seq<nat>): seq<Frame> {
    seq(|sequences|, i requires 0 <= i < |sequences| => EndpointUpdateFrame(sequences[i]))
  }

  /** Everything one command puts on the wire, in order. */
  function FramesOf(c: Command, sent: nat, sessionId: Uuid): seq<Frame> {
    if IsControl(c.delivery) then [ClosingFrame(c, sessionId)]
    else UpdateFrames(UnsentUpdates(c.endpointUpdates, sent)) + [ClosingFrame(c, sessionId)]
  }

  function ActiveOf(c: Command, sent: nat, at: int): ActiveDelivery {
    var updates := UnsentUpdates(c.endpointUpdates, sent);
    ActiveDelivery(c.delivery, Sha256(c.ciphertext), if updates == [] then None else Some(Last(updates, 0)), at)
  }

  /** The state after all frames of a popped command were written. */
  function Written(s: Contact, c: Command, at: int): Contact {
    var a := ActiveOf(c, s.sentSequence, at);
    var w := s.(wire := s.wire + FramesOf(c, s.sentSequence, s.sessionId), lastActivity := at);
    if IsControl(c.delivery) then w
    else
      var v := w.(sentSequence := Last(UnsentUpdates(c.endpointUpdates, s.sentSequence), s.sentSequence));
      if c.delivery.EndpointUpdate? || c.delivery.Probe? then
        v.(probes := v.probes[c.sequence := EndpointProbe(a.endpointSequence, at, c.delivery)])
      else if c.delivery.Ephemeral? then v
      else Log(v.(active := v.active[c.messageId := a]), Wrote(c.delivery))
  }

  // ---------------------------------------------------------------- ending a session

  function Disconnect(s: Contact): Contact {
    s.(phase := Top, active := map[], awaiting := map[], probes := map[],
       sentSequence := 0, lastActivity := 0, nextKeepalive := 0, keepalive := None)
  }

  function Release(s: Contact, waiters: set<Uuid>): Contact {
    var tags := TagsIn(map u | u in s.awaiting && u in waiters :: s.awaiting[u]);
    s.(queues := s.queues.(dedupe := s.queues.dedupe - KeysOf(tags)),
       awaiting := s.awaiting - waiters,
       log := s.log + [Released(tags)])
  }

  function ReleaseAll(s: Contact): Contact { Release(s, s.awaiting.Keys) }

  function Expired(s: Contact, now: int): set<Uuid> {
    set u | u in s.awaiting && now - s.awaiting[u].sentAt >= ACK_TIMEOUT
  }

  /** The entries for failing what is in flight; at most one delivery is. */
  ghost function ActiveFailures(active: map<Uuid, ActiveDelivery>): seq<Entry> {
    if active == map[] then [] else var u :| u in active; [BackedOff(active[u].delivery)]
  }

  ghost function FailActive(s: Contact): Contact {
    ReleaseAll(s.(queues := s.queues.(dedupe := s.queues.dedupe - KeysOf(TagsIn(s.active))),
                  active := map[],
                  log := s.log + ActiveFailures(s.active)))
  }

  /** Reporting one queued delivery as failed and forgetting it. */
  function FailHead(s: Contact): Contact
    requires s.queues.durable != []
  {
    var c := s.queues.durable[0];
    Log(s.(queues := Complete(s.queues.(durable := s.queues.durable[1..]), c.delivery)), BackedOff(c.delivery))
  }

  function FailQueued(s: Contact): Contact
    decreases |s.queues.durable|
  {
    if s.queues.durable != [] then FailQueued(FailHead(s))
    else
      var emptied := s.(queues := s.queues.(endpointUpdate := None, probe := None, ephemeral := None));
      if s.queues.endpointUpdate.Some? then Log(emptied, BackedOff(s.queues.endpointUpdate.value.delivery))
      else emptied
  }

  /** Every error exit of a connected session, and what the outer loop does with it. */
  ghost function FailSession(s: Contact): Contact {
    FailQueued(Disconnect(FailActive(s)))
  }

  /** A popped command whose frames could not be written. */
  function FailPopped(s: Contact, tag: DeliveryTag): Contact {
    var s' := s.(queues := Complete(s.queues, tag));
    if tag.IsDurable() then Log(s', BackedOff(tag)) else s'
  }

  // ---------------------------------------------------------------- one turn of the contact task

  datatype FillResult = Filled | EndpointChanged | WriteFailed

  lemma PopShrinks(q: Queues)
    ensures PopNext(q).0.Some? ==> QueueSize(PopNext(q).1) == QueueSize(q) - 1
  {
  }

  /** Writes queued commands while the window is open; `budget` frames can be written before the socket fails. */
  ghost function Fill(s: Contact, budget: nat, at: int): (r: (Contact, FillResult))
    decreases QueueSize(s.queues)
  {
    if |s.active| >= MAX_IN_FLIGHT then (s, Filled)
    else
      var (next, rest) := PopNext(s.queues);
      PopShrinks(s.queues);
      if next.None? then (s, Filled)
      else
        var c := next.value;
        if c.endpoint != s.endpoint then
          (Disconnect(ReleaseAll(s.(queues := PushFront(rest, c)))), EndpointChanged)
        else
          var frames := FramesOf(c, s.sentSequence, s.sessionId);
          if |frames| <= budget then Fill(Written(s.(queues := rest), c, at), budget - |frames|, at)
          else (FailSession(FailPopped(s.(queues := rest, wire := s.wire + frames[..budget]), c.delivery)), WriteFailed)
  }

  predicate InFlightTimedOut(s: Contact, now: int) {
    || (exists u :: u in s.active && now - s.active[u].sentAt >= ACK_TIMEOUT)
    || (exists n :: n in s.probes && now - s.probes[n].sentAt >= ACK_TIMEOUT)
  }

  predicate KeepaliveTimedOut(s: Contact, now: int) {
    s.keepalive.Some? && now >= s.keepalive.value.deadline
  }

  predicate Quiescent(s: Contact) {
    IsEmpty(s.queues) && s.active == map[] && s.awaiting == map[] && s.probes == map[]
  }

  function Settle(s: Contact, u: Uuid, tag: DeliveryTag): Contact {
    s.(queues := Complete(s.queues, tag),
       active := s.active - {u},
       awaiting := if u in s.active then s.awaiting else s.awaiting - {u})
  }

  predicate KnowsDelivery(s: Contact, u: Uuid) { u in s.active || u in s.awaiting }

  function FindDelivery(s: Contact, u: Uuid): ActiveDelivery
    requires KnowsDelivery(s, u)
  {
    if u in s.active then s.active[u] else s.awaiting[u]
  }

  function AckEntry(d: ActiveDelivery, kind: AckKind): Entry { Acked(d.delivery, kind, d.endpointSequence) }

  /** An acknowledgement whose hash matches the delivery it names. */
  function ApplyAck(s: Contact, u: Uuid, kind: AckKind): Contact
    requires KnowsDelivery(s, u)
  {
    var d := FindDelivery(s, u);
    var logged := Log(s, AckEntry(d, kind));
    match kind
    case Received => logged
    case Persisted =>
      if u !in s.active then logged
      else if d.delivery.Message? then logged.(active := s.active - {u}, awaiting := s.awaiting[u := d])
      else Settle(logged, u, d.delivery)
    case Delivered => Settle(logged, u, d.delivery)
    case Rejected => Settle(logged, u, d.delivery)
  }

  function ProbeEntry(p: EndpointProbe): Entry { Acked(p.delivery, Persisted, p.endpointSequence) }

  function AnswerProbe(s: Contact, nonce: nat): Contact {
    if nonce in s.probes
    then Log(s.(probes := s.probes - {nonce}), ProbeEntry(s.probes[nonce]))
    else s
  }

  /** The new state and whether the frame was handled without an error. */
  function HandleFrame(s: Contact, f: Frame, replyOk: bool, eventsOpen: bool): (Contact, bool) {
    match f
    case AckFrame(ack) =>
      if ack.sessionId != s.sessionId || !KnowsDelivery(s, ack.messageId) then (s, true)
      else if ack.hash != FindDelivery(s, ack.messageId).expectedHash then (s, false)
      else (ApplyAck(s, ack.messageId, ack.kind), true)
    case Pong(nonce) =>
      var cleared := if s.keepalive.Some? && s.keepalive.value.nonce == nonce then s.(keepalive := None) else s;
      (AnswerProbe(cleared, nonce), true)
    case Ping(nonce) => (if replyOk then s.(wire := s.wire + [Pong(nonce)]) else s, replyOk)
    case ProbeRequest(nonce) => (if replyOk then s.(wire := s.wire + [ProbeResponse(nonce)]) else s, replyOk)
    case ProbeResponse(nonce) => (AnswerProbe(s, nonce), eventsOpen)
    case PresenceFrame(_, _) => (s, eventsOpen)
    case TypingFrame(_, _) => (s, eventsOpen)
    case FocusFrame(_, _) => (s, eventsOpen)
    case EndpointUpdateFrame(_) => (s, true)
    case MessageFrame(_) => (s, true)
    case HandshakeOrErrorFrame => (s, false)
  }

  datatype Selected =
    | FromChannel(command: Command)
    | ChannelClosed
    | StreamBroken
    | Incoming(frame: Frame)
    | Tick

  datatype Round = Round(
    arrivals: seq<Command>, budget: nat, at: int, now: int, nonce: nat,
    pingOk: bool, replyOk: bool, eventsOpen: bool, selected: Selected)

  ghost function Select(s: Contact, r: Round): Contact {
    match r.selected
    case FromChannel(c) => if s.channelOpen then Take(s, c) else s
    case ChannelClosed => s.(channelOpen := false)
    case StreamBroken => FailSession(s)
    case Incoming(f) =>
      var (s', ok) := HandleFrame(s.(lastActivity := r.now), f, r.replyOk, r.eventsOpen);
      if ok then s' else FailSession(s')
    case Tick => s
  }

  function SendKeepalive(s: Contact, r: Round): Contact {
    s.(wire := s.wire + [Ping(r.nonce)],
       keepalive := Some(Keepalive(r.nonce, r.now + KEEPALIVE_TIMEOUT)),
       nextKeepalive := r.now + KEEPALIVE_INTERVAL)
  }

  /** One turn of the connected loop after the window was filled. */
  ghost function AfterFill(s: Contact, r: Round): Contact {
    var s := Release(s, Expired(s, r.now));
    if KeepaliveTimedOut(s, r.now) || InFlightTimedOut(s, r.now) then FailSession(s)
    else if r.now >= s.nextKeepalive && !r.pingOk then FailSession(s)
    else
      var s := if r.now >= s.nextKeepalive then SendKeepalive(s, r) else s;
      if Quiescent(s) && (r.now - s.lastActivity >= SESSION_IDLE_TIMEOUT || !s.channelOpen) then Disconnect(s)
      else Select(s, r)
  }

  ghost function ConnectedRound(s: Contact, r: Round): Contact {
    var (s, result) := Fill(TakeAll(s, r.arrivals), r.budget, r.at);
    if result == Filled then AfterFill(s, r) else s
  }

  datatype Dialled = Refused | Opened(sessionId: Uuid)

  datatype Input =
    | Drain(arrivals: seq<Command>)
    | Wait(received: Option<Command>, dialled: Dialled, at: int)
    | Turn(round: Round)

  function Connect(s: Contact, sessionId: Uuid, at: int): Contact
    requires HasDialWorthy(s.queues)
  {
    s.(phase := Connected, endpoint := ConnectionTemplate(s.queues).value.endpoint, sessionId := sessionId,
       active := map[], awaiting := map[], probes := map[], sentSequence := 0, lastActivity := at,
       nextKeepalive := at + KEEPALIVE_INTERVAL, keepalive := None)
  }

  ghost function WaitStep(s: Contact, received: Option<Command>, dialled: Dialled, at: int): Contact {
    if HasDialWorthy(s.queues) then
      match dialled
      case Refused => FailQueued(s).(phase := Top)
      case Opened(id) => Connect(s, id, at)
    else if !s.channelOpen || received.None? then s.(phase := Returned)
    else
      var t := Take(s, received.value);
      t.(queues := t.queues.(ephemeral := None))
  }

  ghost function Step(s: Contact, i: Input): Contact {
    match (s.phase, i)
    case (Top, Drain(cs)) => TakeAll(s, cs).(phase := Waiting)
    case (Waiting, Wait(received, dialled, at)) => WaitStep(s, received, dialled, at)
    case (Connected, Turn(r)) => ConnectedRound(s, r)
    case _ => s
  }

  ghost function Run(s: Contact, inputs: seq<Input>): Contact
    decreases |inputs|
  {
    if inputs == [] then s else Run(Step(s, inputs[0]), inputs[1..])
  }
}
