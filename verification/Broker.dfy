/**
 The pairing broker as a state machine over its three maps. `log` records every frame offered to a client and
 the moments at which slots are issued and bridges appear or vanish.
 */
module Broker {
  import opened Foundation
  import opened PairingCode

  const SLOT_TTL := 120
  const BRIDGE_TTL := 180
  const MAX_CONNECTIONS := 2_000
  const MAX_SLOTS := 1_000
  const MAX_SLOTS_PER_CONNECTION := 2
  const MAX_PAIRINGS_PER_CONNECTION := 2
  const MAX_CODE_ATTEMPTS := 5
  const ATTEMPT_WINDOW := 60
  const MAX_PAIRING_BLOB_BYTES := 49_152

  type Secret = Hash<string>

  datatype Connection = Connection(slots: nat, pairings: nat, attempts: seq<int>)

  datatype Slot = Slot(
    owner: Uuid, handle: string, capability: Secret, code: Secret, publicKey: Bytes, expiresAt: int)

  datatype Bridge = Bridge(
    owner: Uuid, joiner: Uuid, ownerToken: Secret, joinerToken: Secret, slotHash: Secret, expiresAt: int)

  datatype ClientFrame =
    | Ping
    | CreatePairingSlot(requestId: Uuid, publicKey: Bytes, ttl: nat)
    | ResolvePairingCode(requestId: Uuid, displayCode: string)
    | BeginPairing(requestId: Uuid, pairingId: Uuid, slotHandle: string, publicKey: Bytes, offer: Bytes)
    | AcceptPairing(pairingId: Uuid, sideToken: string, response: Bytes)
    | RejectPairing(pairingId: Uuid, sideToken: string)
    | PairingCommitted(pairingId: Uuid, sideToken: string)
    | FinalizePairing(pairingId: Uuid, sideToken: string)
    | CancelPairing(pairingId: Uuid, sideToken: string)
    | CancelPairingSlot(slotHandle: string, slotCapability: string)

  datatype Notice = Rejected | Finalized | Cancelled

  datatype ServerFrame =
    | Pong
    | PairingSlotCreated(requestId: Uuid, slotHandle: string, displayCode: string, slotCapability: string,
                         expiresAt: int)
    | PairingSlotResolved(requestId: Uuid, slotHandle: string, ownerKey: Bytes, expiresAt: int)
    | PairingRequested(pairingId: Uuid, slotHandle: string, ownerToken: string, joinerKey: Bytes, offer: Bytes,
                       expiresAt: int)
    | PairingStarted(requestId: Uuid, pairingId: Uuid, joinerToken: string, expiresAt: int)
    | PairingAccepted(pairingId: Uuid, response: Bytes)
    | PairingEnded(pairingId: Uuid, notice: Notice)
    | Error(requestId: Uuid, code: string)

  datatype Entry =
    | Joined(id: Uuid)
    | Sent(to: Uuid, frame: ServerFrame)
    | Issued(code: string, slot: Secret)
    | Attempted(id: Uuid, at: int)
    | Opened(pairingId: Uuid, slot: Secret, owner: Uuid, joiner: Uuid)
    | Dropped(pairingIds: set<Uuid>)

  datatype State = State(
    connections: map<Uuid, Connection>,
    slots: map<Secret, Slot>,
    bridges: map<Uuid, Bridge>,
    log: seq<Entry>)

  const INITIAL := State(map[], map[], map[], [])

  /** The clock and the random values one frame may consume; `codes` are the successive draws of a pairing code. */
  datatype Draw = Draw(
    now: int, codes: seq<string>, handle: string, capability: string, ownerToken: string, joinerToken: string)

  // ---------------------------------------------------------------- small steps

  function Monus(a: nat, b: nat): nat { if a >= b then a - b else 0 }

  function Note(s: State, e: Entry): State { s.(log := s.log + [e]) }

  function Send(s: State, id: Uuid, frame: ServerFrame): State {
    if id in s.connections then Note(s, Sent(id, frame)) else s
  }

  function Reject(s: State, id: Uuid, requestId: Uuid, code: string): State { Send(s, id, Error(requestId, code)) }

  predicate Touches(b: Bridge, id: Uuid) { b.owner == id || b.joiner == id }

  /** The bridges a connection takes part in. */
  function Touching(bridges: map<Uuid, Bridge>, id: Uuid): set<Uuid> {
    set p | p in bridges && Touches(bridges[p], id)
  }

  function Degree(bridges: map<Uuid, Bridge>, id: Uuid): nat { |Touching(bridges, id)| }

  function Owned(slots: map<Secret, Slot>, id: Uuid): set<Secret> {
    set h | h in slots && slots[h].owner == id
  }

  function Restrict(bridges: map<Uuid, Bridge>, ps: set<Uuid>): map<Uuid, Bridge> {
    map p | p in bridges && p in ps :: bridges[p]
  }

  /** Every party of a removed bridge gives one pairing back. */
  function Discharge(connections: map<Uuid, Connection>, gone: map<Uuid, Bridge>): map<Uuid, Connection> {
    map c | c in connections :: connections[c].(pairings := Monus(connections[c].pairings, Degree(gone, c)))
  }

  function RemoveBridges(s: State, ps: set<Uuid>): State {
    s.(connections := Discharge(s.connections, Restrict(s.bridges, ps)), bridges := s.bridges - ps)
  }

  function ReturnSlot(connections: map<Uuid, Connection>, owner: Uuid): map<Uuid, Connection> {
    if owner in connections
    then connections[owner := connections[owner].(slots := Monus(connections[owner].slots, 1))]
    else connections
  }

  function RemoveSlot(s: State, h: Secret): State
    requires h in s.slots
  {
    s.(slots := s.slots - {h}, connections := ReturnSlot(s.connections, s.slots[h].owner))
  }

  // ---------------------------------------------------------------- commands

  function Connected(s: State, id: Uuid): State {
    if |s.connections| < MAX_CONNECTIONS
    then Note(s.(connections := s.connections[id := Connection(0, 0, [])]), Joined(id))
    else s
  }

  function Disconnected(s: State, id: Uuid): State {
    var gone := Touching(s.bridges, id);
    var s' := s.(connections := s.connections - {id},
                 slots := map h | h in s.slots && s.slots[h].owner != id :: s.slots[h]);
    Note(RemoveBridges(s', gone), Dropped(gone))
  }

  function Expire(s: State, now: int): State {
    var gone := set p | p in s.bridges && s.bridges[p].expiresAt <= now;
    var s' := s.(slots := map h | h in s.slots && s.slots[h].expiresAt > now :: s.slots[h]);
    Note(RemoveBridges(s', gone), Dropped(gone))
  }

  function Clamp(ttl: nat): nat { if ttl < 10 then 10 else if ttl > SLOT_TTL then SLOT_TTL else ttl }

  predicate CodeTaken(slots: map<Secret, Slot>, code: string) {
    exists h :: h in slots && slots[h].code == Sha256(code)
  }

  /** Some draw is a code that no live slot uses, so the redraw loop ends. */
  predicate SomeFree(slots: map<Secret, Slot>, codes: seq<string>) {
    exists k :: 0 <= k < |codes| && !CodeTaken(slots, codes[k])
  }

  /** The first draw that no live slot uses. */
  function FirstFree(slots: map<Secret, Slot>, codes: seq<string>): string {
    if codes == [] then "" else if CodeTaken(slots, codes[0]) then FirstFree(slots, codes[1..]) else codes[0]
  }

  function CreateSlot(s: State, id: Uuid, requestId: Uuid, publicKey: Bytes, ttl: nat, d: Draw): State
    requires id in s.connections
  {
    var c := s.connections[id];
    if c.slots >= MAX_SLOTS_PER_CONNECTION || |s.slots| >= MAX_SLOTS then Reject(s, id, requestId, "capacity")
    else
      var code := FirstFree(s.slots, d.codes);
      var slot := Slot(id, d.handle, Sha256(d.capability), Sha256(code), publicKey, d.now + Clamp(ttl));
      var issued := Note(s.(slots := s.slots[Sha256(d.handle) := slot],
                            connections := s.connections[id := c.(slots := c.slots + 1)]),
                         Issued(code, Sha256(d.handle)));
      Send(issued, id, PairingSlotCreated(requestId, d.handle, FormatCode(code), d.capability, slot.expiresAt))
  }

  /** Attempts still inside the window. */
  function Recent(attempts: seq<int>, now: int): seq<int>
    decreases |attempts|
  {
    if attempts == [] then []
    else
      var rest := Recent(attempts[..|attempts| - 1], now);
      if attempts[|attempts| - 1] + ATTEMPT_WINDOW > now then rest + [attempts[|attempts| - 1]] else rest
  }

  /** A live, unexpired slot with this code. */
  predicate Resolves(s: State, code: string, now: int, h: Secret) {
    h in s.slots && s.slots[h].code == Sha256(code) && s.slots[h].expiresAt > now
  }

  ghost function Lookup(s: State, id: Uuid, requestId: Uuid, displayCode: string, now: int): State {
    match NormalizeCode(displayCode)
    case None => Reject(s, id, requestId, "invalid_code")
    case Some(code) =>
      if exists h :: Resolves(s, code, now, h) then
        var h :| Resolves(s, code, now, h);
        Send(s, id, PairingSlotResolved(requestId, s.slots[h].handle, s.slots[h].publicKey, s.slots[h].expiresAt))
      else Reject(s, id, requestId, "invalid_code")
  }

  ghost function Resolve(s: State, id: Uuid, requestId: Uuid, displayCode: string, now: int): State
    requires id in s.connections
  {
    var c := s.connections[id];
    var recent := Recent(c.attempts, now);
    var trimmed := s.(connections := s.connections[id := c.(attempts := recent)]);
    if |recent| >= MAX_CODE_ATTEMPTS then Reject(trimmed, id, requestId, "rate_limited")
    else
      var counted := s.(connections := s.connections[id := c.(attempts := recent + [now])]);
      Lookup(Note(counted, Attempted(id, now)), id, requestId, displayCode, now)
  }

  function Raise(connections: map<Uuid, Connection>, id: Uuid): map<Uuid, Connection>
    requires id in connections
  {
    connections[id := connections[id].(pairings := connections[id].pairings + 1)]
  }

  /** Looking up the slot owner's connection does not fail. */
  predicate OwnerIndexable(s: State, slotHandle: string) {
    Sha256(slotHandle) in s.slots ==> s.slots[Sha256(slotHandle)].owner in s.connections
  }

  function Begin(s: State, id: Uuid, f: ClientFrame, d: Draw): State
    requires id in s.connections && f.BeginPairing? && OwnerIndexable(s, f.slotHandle)
  {
    var h := Sha256(f.slotHandle);
    if |f.offer| > MAX_PAIRING_BLOB_BYTES then Reject(s, id, f.requestId, "blob_too_large")
    else if h !in s.slots then Reject(s, id, f.requestId, "invalid_slot")
    else if s.slots[h].expiresAt <= d.now || s.slots[h].owner == id then Reject(s, id, f.requestId, "invalid_slot")
    else if f.pairingId in s.bridges then Reject(s, id, f.requestId, "duplicate_pairing")
    else if s.connections[id].pairings >= MAX_PAIRINGS_PER_CONNECTION
         || s.connections[s.slots[h].owner].pairings >= MAX_PAIRINGS_PER_CONNECTION
      then Reject(s, id, f.requestId, "capacity")
    else Open(s, id, f, d)
  }

  function Open(s: State, id: Uuid, f: ClientFrame, d: Draw): State
    requires id in s.connections && f.BeginPairing? && Sha256(f.slotHandle) in s.slots
    requires s.slots[Sha256(f.slotHandle)].owner in s.connections
  {
    var h := Sha256(f.slotHandle);
    var slot := s.slots[h];
    var owner := slot.owner;
    var bridge := Bridge(owner, id, Sha256(d.ownerToken), Sha256(d.joinerToken), h, d.now + BRIDGE_TTL);
    var r := RemoveSlot(s, h);
    var bridged := Note(r.(bridges := r.bridges[f.pairingId := bridge],
                          connections := Raise(Raise(r.connections, id), owner)),
                       Opened(f.pairingId, h, owner, id));
    var asked := Send(bridged, owner,
                      PairingRequested(f.pairingId, slot.handle, d.ownerToken, f.publicKey, f.offer,
                                       d.now + BRIDGE_TTL));
    Send(asked, id, PairingStarted(f.requestId, f.pairingId, d.joinerToken, d.now + BRIDGE_TTL))
  }

  predicate Authorized(bridges: map<Uuid, Bridge>, p: Uuid, id: Uuid, token: string, owner: bool) {
    p in bridges &&
    var b := bridges[p];
    || (owner && b.owner == id && b.ownerToken == Sha256(token))
    || (!owner && b.joiner == id && b.joinerToken == Sha256(token))
  }

  predicate AuthorizedEither(bridges: map<Uuid, Bridge>, p: Uuid, id: Uuid, token: string) {
    Authorized(bridges, p, id, token, true) || Authorized(bridges, p, id, token, false)
  }

  function Accept(s: State, id: Uuid, p: Uuid, token: string, response: Bytes): State {
    if p in s.bridges && s.bridges[p].owner == id && s.bridges[p].ownerToken == Sha256(token)
       && |response| <= MAX_PAIRING_BLOB_BYTES
    then Send(s, s.bridges[p].joiner, PairingAccepted(p, response))
    else s
  }

  function Finish(s: State, p: Uuid, notice: Notice): State
    requires p in s.bridges
  {
    var b := s.bridges[p];
    var told := Send(Send(RemoveBridges(s, {p}), b.owner, PairingEnded(p, notice)), b.joiner, PairingEnded(p, notice));
    if b.slotHash in told.slots then RemoveSlot(told, b.slotHash) else told
  }

  function CancelSlot(s: State, id: Uuid, handle: string, capability: string): State {
    var h := Sha256(handle);
    if h in s.slots && s.slots[h].owner == id && s.slots[h].capability == Sha256(capability)
    then RemoveSlot(s, h) else s
  }

  ghost function Process(s: State, id: Uuid, f: ClientFrame, d: Draw): State
    requires f.BeginPairing? ==> OwnerIndexable(s, f.slotHandle)
  {
    if id !in s.connections then s
    else
      match f
      case Ping => Send(s, id, Pong)
      case CreatePairingSlot(req, key, ttl) => CreateSlot(s, id, req, key, ttl, d)
      case ResolvePairingCode(req, code) => Resolve(s, id, req, code, d.now)
      case BeginPairing(_, _, _, _, _) => Begin(s, id, f, d)
      case AcceptPairing(p, token, response) => Accept(s, id, p, token, response)
      case RejectPairing(p, token) => if AuthorizedEither(s.bridges, p, id, token) then Finish(s, p, Rejected) else s
      case PairingCommitted(p, token) =>
        if Authorized(s.bridges, p, id, token, false) then Finish(s, p, Finalized) else s
      case FinalizePairing(p, token) => if Authorized(s.bridges, p, id, token, true) then Finish(s, p, Finalized) else s
      case CancelPairing(p, token) => if AuthorizedEither(s.bridges, p, id, token) then Finish(s, p, Cancelled) else s
      case CancelPairingSlot(handle, capability) => CancelSlot(s, id, handle, capability)
  }
}
