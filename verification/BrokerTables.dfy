/** Exactly when the broker's tables gain and lose an entry, in every run. */
module BrokerTables {
  import opened Foundation
  import opened PairingCode
  import opened Broker
  import opened BrokerLedger
  import opened BrokerRuns
  import opened BrokerRouting
  import opened BrokerSlots
  import opened BrokerCauses

  // ---------------------------------------------------------------- the reasons

  /** A frame from a connected client. */
  predicate Heard(s: State, i: Input) { i.Frame? && i.id in s.connections }

  /** The frame asks to join a slot, and nothing stands in the way. */
  predicate Joins(s: State, i: Input) {
    && Heard(s, i) && i.frame.BeginPairing? && |i.frame.offer| <= MAX_PAIRING_BLOB_BYTES
    && Joinable(s, i.id, i.frame.slotHandle, i.draw.now) && i.frame.pairingId !in s.bridges
    && !Busy(s, i.id) && !Busy(s, s.slots[Sha256(i.frame.slotHandle)].owner)
  }

  predicate EndsBridge(s: State, i: Input, p: Uuid) {
    p in s.bridges &&
    match i
    case Frame(id, f, _) => id in s.connections && EndsPairing(s, id, f, p)
    case Leave(id) => Touches(s.bridges[p], id)
    case Tick(now) => s.bridges[p].expiresAt <= now
    case Arrive(_) => false
  }

  predicate EndsSlot(s: State, i: Input, h: Secret) {
    h in s.slots &&
    match i
    case Frame(id, f, _) =>
      || (Joins(s, i) && Sha256(f.slotHandle) == h)
      || (id in s.connections && f.CancelPairingSlot? && Sha256(f.slotHandle) == h && s.slots[h].owner == id
          && s.slots[h].capability == Sha256(f.slotCapability))
    case Leave(id) => s.slots[h].owner == id
    case Tick(now) => s.slots[h].expiresAt <= now
    case Arrive(_) => false
  }

  predicate MakesSlot(s: State, i: Input) {
    Heard(s, i) && i.frame.CreatePairingSlot? && !SlotFull(s, i.id)
  }

  /** The slots and bridges that come with an input: at most one. */
  function NewBridges(s: State, i: Input): map<Uuid, Bridge> {
    if !Joins(s, i) then map[]
    else
      var h := Sha256(i.frame.slotHandle);
      map[i.frame.pairingId := Bridge(s.slots[h].owner, i.id, Sha256(i.draw.ownerToken), Sha256(i.draw.joinerToken), h,
                                      i.draw.now + BRIDGE_TTL)]
  }

  function NewSlots(s: State, i: Input): map<Secret, Slot> {
    if !MakesSlot(s, i) then map[]
    else
      var d := i.draw;
      map[Sha256(d.handle) := Slot(i.id, d.handle, Sha256(d.capability), Sha256(FirstFree(s.slots, d.codes)),
                                   i.frame.publicKey, d.now + Clamp(i.frame.ttl))]
  }

  /** What nothing ends stays as it is; only what comes is added. */
  predicate TablesFollow(s: State, i: Input, s': State) {
    s'.bridges == KeptBridges(s, i) + NewBridges(s, i) && s'.slots == KeptSlots(s, i) + NewSlots(s, i)
  }

  function KeptBridges(s: State, i: Input): map<Uuid, Bridge> {
    map p | p in s.bridges && !EndsBridge(s, i, p) :: s.bridges[p]
  }

  function KeptSlots(s: State, i: Input): map<Secret, Slot> {
    map h | h in s.slots && !EndsSlot(s, i, h) :: s.slots[h]
  }

  // ---------------------------------------------------------------- one input

  /** A bridge's slot has left the table. */
  predicate SlotsSpent(s: State) { forall p :: p in s.bridges ==> s.bridges[p].slotHash !in s.slots }

  lemma AllBridgesKept(s: State, i: Input)
    requires forall p :: p in s.bridges ==> !EndsBridge(s, i, p)
    ensures KeptBridges(s, i) == s.bridges
  {
  }

  lemma AllSlotsKept(s: State, i: Input)
    requires forall h :: h in s.slots ==> !EndsSlot(s, i, h)
    ensures KeptSlots(s, i) == s.slots
  {
  }

  lemma OneBridgeEnds(s: State, i: Input, p: Uuid)
    requires Heard(s, i) && EndsPairing(s, i.id, i.frame, p) && p in s.bridges
    ensures KeptBridges(s, i) == s.bridges - {p} && NewBridges(s, i) == map[] && NewSlots(s, i) == map[]
  {
  }

  lemma FinishTables(s: State, i: Input, p: Uuid, notice: Notice)
    requires SlotsSpent(s) && Heard(s, i) && EndsPairing(s, i.id, i.frame, p) && p in s.bridges
    ensures TablesFollow(s, i, Finish(s, p, notice))
  {
    OneBridgeEnds(s, i, p);
    AllSlotsKept(s, i);
    hide KeptBridges, KeptSlots, NewBridges, NewSlots, EndsPairing;
    FinishRemoves(s, p, notice);
    FinishLeavesSlots(s, p, notice);
    hide Finish;
  }

  lemma FinishLeavesSlots(s: State, p: Uuid, notice: Notice)
    requires p in s.bridges && s.bridges[p].slotHash !in s.slots
    ensures Finish(s, p, notice).slots == s.slots
  {
    hide Discharge, Restrict;
  }

  lemma BeginTables(s: State, i: Input)
    requires Heard(s, i) && i.frame.BeginPairing? && OwnerIndexable(s, i.frame.slotHandle)
    ensures TablesFollow(s, i, Begin(s, i.id, i.frame, i.draw))
  {
    AllBridgesKept(s, i);
    JoinedSlot(s, i);
    hide Open, KeptBridges, KeptSlots;
    if Sha256(i.frame.slotHandle) in s.slots { OpenTables(s, i); }
  }

  lemma JoinedSlot(s: State, i: Input)
    requires Heard(s, i) && i.frame.BeginPairing?
    ensures KeptSlots(s, i) == if Joins(s, i) then s.slots - {Sha256(i.frame.slotHandle)} else s.slots
  {
  }

  lemma OpenTables(s: State, i: Input)
    requires Heard(s, i) && i.frame.BeginPairing? && Sha256(i.frame.slotHandle) in s.slots
    requires s.slots[Sha256(i.frame.slotHandle)].owner in s.connections
    ensures var h := Sha256(i.frame.slotHandle);
            var s' := Open(s, i.id, i.frame, i.draw);
            && s'.slots == s.slots - {h}
            && s'.bridges == s.bridges[i.frame.pairingId :=
                 Bridge(s.slots[h].owner, i.id, Sha256(i.draw.ownerToken), Sha256(i.draw.joinerToken), h,
                        i.draw.now + BRIDGE_TTL)]
  {
    hide Raise, ReturnSlot;
  }

  lemma SameTables(s: State, i: Input, s': State)
    requires Heard(s, i) && s'.bridges == s.bridges && s'.slots == s.slots
    requires NoticeFor(i.frame).None? && !i.frame.BeginPairing? && !i.frame.CreatePairingSlot?
    requires !i.frame.CancelPairingSlot?
    ensures TablesFollow(s, i, s')
  {
    AllBridgesKept(s, i);
    AllSlotsKept(s, i);
    hide KeptBridges, KeptSlots;
  }

  lemma RefusedTables(s: State, i: Input)
    requires Heard(s, i) && NoticeFor(i.frame).Some? && forall p :: p in s.bridges ==> !EndsPairing(s, i.id, i.frame, p)
    ensures TablesFollow(s, i, s)
  {
    AllBridgesKept(s, i);
    AllSlotsKept(s, i);
    hide KeptBridges, KeptSlots;
  }

  lemma ResolveTables(s: State, id: Uuid, r: Uuid, display: string, now: int)
    requires id in s.connections
    ensures Resolve(s, id, r, display, now).bridges == s.bridges && Resolve(s, id, r, display, now).slots == s.slots
  {
    hide Recent, NormalizeCode, Resolves;
  }

  lemma CreateShape(s: State, id: Uuid, r: Uuid, key: Bytes, ttl: nat, d: Draw)
    requires id in s.connections
    ensures var slot := Slot(id, d.handle, Sha256(d.capability), Sha256(FirstFree(s.slots, d.codes)), key,
                             d.now + Clamp(ttl));
            CreateSlot(s, id, r, key, ttl, d).slots
            == if SlotFull(s, id) then s.slots else s.slots[Sha256(d.handle) := slot]
    ensures CreateSlot(s, id, r, key, ttl, d).bridges == s.bridges
  {
    hide FirstFree, FormatCode;
  }

  lemma CreateTables(s: State, i: Input)
    requires Heard(s, i) && i.frame.CreatePairingSlot?
    ensures TablesFollow(s, i, CreateSlot(s, i.id, i.frame.requestId, i.frame.publicKey, i.frame.ttl, i.draw))
  {
    AllBridgesKept(s, i);
    AllSlotsKept(s, i);
    NothingJoined(s, i);
    OneSlotMade(s, i);
    hide KeptBridges, KeptSlots, CreateSlot, NewBridges, NewSlots, MakesSlot, FirstFree, SlotFull, Clamp;
    CreateShape(s, i.id, i.frame.requestId, i.frame.publicKey, i.frame.ttl, i.draw);
  }

  lemma NothingJoined(s: State, i: Input)
    requires Heard(s, i) && i.frame.CreatePairingSlot?
    ensures s.bridges + NewBridges(s, i) == s.bridges
  {
  }

  lemma OneSlotMade(s: State, i: Input)
    requires Heard(s, i) && i.frame.CreatePairingSlot?
    ensures var d := i.draw;
            var slot := Slot(i.id, d.handle, Sha256(d.capability), Sha256(FirstFree(s.slots, d.codes)),
                             i.frame.publicKey, d.now + Clamp(i.frame.ttl));
            s.slots + NewSlots(s, i) == if SlotFull(s, i.id) then s.slots else s.slots[Sha256(d.handle) := slot]
  {
    hide FirstFree, Clamp, SlotFull;
  }

  lemma CancelTables(s: State, i: Input)
    requires Heard(s, i) && i.frame.CancelPairingSlot?
    ensures TablesFollow(s, i, CancelSlot(s, i.id, i.frame.slotHandle, i.frame.slotCapability))
  {
    hide ReturnSlot;
    AllBridgesKept(s, i);
    hide KeptBridges;
  }

  lemma EndOrRefuse(s: State, i: Input, p: Uuid, granted: bool, notice: Notice)
    requires SlotsSpent(s) && Heard(s, i) && NoticeFor(i.frame).Some? && granted == EndsPairing(s, i.id, i.frame, p)
    requires forall q :: EndsPairing(s, i.id, i.frame, q) ==> q == p && q in s.bridges
    ensures granted ==> p in s.bridges && TablesFollow(s, i, Finish(s, p, notice))
    ensures !granted ==> TablesFollow(s, i, s)
  {
    hide Finish, TablesFollow, EndsPairing;
    if granted { FinishTables(s, i, p, notice); } else { RefusedTables(s, i); }
  }

  lemma ProcessTables(s: State, i: Input)
    requires Heard(s, i) && SlotsSpent(s) && !Panics(s, i)
    ensures TablesFollow(s, i, Process(s, i.id, i.frame, i.draw))
  {
    hide Finish, Begin, Resolve, CreateSlot, CancelSlot, TablesFollow, SlotsSpent, OwnerIndexable;
    var id := i.id;
    match i.frame {
      case CreatePairingSlot(_, _, _) => CreateTables(s, i);
      case ResolvePairingCode(r, display) =>
        ResolveTables(s, id, r, display, i.draw.now);
        SameTables(s, i, Resolve(s, id, r, display, i.draw.now));
      case BeginPairing(_, _, _, _, _) => BeginTables(s, i);
      case AcceptPairing(p, token, response) =>
        AcceptCalm(s, id, p, token, response);
        SameTables(s, i, Accept(s, id, p, token, response));
      case RejectPairing(p, token) => EndOrRefuse(s, i, p, AuthorizedEither(s.bridges, p, id, token), Rejected);
      case PairingCommitted(p, token) => EndOrRefuse(s, i, p, Authorized(s.bridges, p, id, token, false), Finalized);
      case FinalizePairing(p, token) => EndOrRefuse(s, i, p, Authorized(s.bridges, p, id, token, true), Finalized);
      case CancelPairing(p, token) => EndOrRefuse(s, i, p, AuthorizedEither(s.bridges, p, id, token), Cancelled);
      case CancelPairingSlot(_, _) => CancelTables(s, i);
      case Ping => SameTables(s, i, Send(s, id, Pong));
    }
  }

  lemma LeaveTables(s: State, i: Input)
    requires i.Leave?
    ensures TablesFollow(s, i, Disconnected(s, i.id))
  {
    hide Discharge, Restrict;
  }

  lemma TickTables(s: State, i: Input)
    requires i.Tick?
    ensures TablesFollow(s, i, Expire(s, i.now))
  {
    hide Discharge, Restrict;
  }

  lemma QuietTables(s: State, i: Input, s': State)
    requires i.Arrive? || (i.Frame? && i.id !in s.connections)
    requires s'.bridges == s.bridges && s'.slots == s.slots
    ensures TablesFollow(s, i, s')
  {
    AllBridgesKept(s, i);
    AllSlotsKept(s, i);
    hide KeptBridges, KeptSlots;
  }

  /**
   In every run, after every input: a bridge leaves the table if and only if a party ends it with its token, a party
   leaves, or a tick finds it expired; a slot if and only if it is joined, cancelled by its owner with its capability,
   expired at a tick, or its owner leaves. A bridge comes with a frame that joins a live slot of someone else while
   both have room, a slot with a request that finds room, and everything else stays as it was.
   */
  lemma TablesFollowTheirReasons(inputs: seq<Input>)
    requires Admissible(inputs) && inputs != [] && Run(inputs[..|inputs| - 1]).Some? && Run(inputs).Some?
    ensures TablesFollow(Run(inputs[..|inputs| - 1]).value, inputs[|inputs| - 1], Run(inputs).value)
  {
    LastStep(inputs);
    var before, i := inputs[..|inputs| - 1], inputs[|inputs| - 1];
    SlotsAlwaysSound(before);
    hide Run, Admissible, Books, Allowed, Process, Disconnected, Expire, TablesFollow, SlotsSpent, Panics;
    var s := Run(before).value;
    Spent(s);
    hide SlotsSound;
    match i {
      case Arrive(id) => QuietTables(s, i, Connected(s, id));
      case Leave(_) => LeaveTables(s, i);
      case Tick(_) => TickTables(s, i);
      case Frame(id, _, _) => if id in s.connections { ProcessTables(s, i); } else { QuietTables(s, i, s); }
    }
  }

  lemma Spent(s: State)
    requires SlotsSound(s)
    ensures SlotsSpent(s)
  {
    hide Issues, Opens, Findable;
    forall p | p in s.bridges ensures s.bridges[p].slotHash !in s.slots {
      assert UsedOnce(s.slots, s.log, s.bridges[p].slotHash);
    }
  }

  /** In every run, a client is connected exactly from an arrival that finds room until it leaves. */
  lemma MembersFollowTheirReasons(inputs: seq<Input>, c: Uuid)
    requires Admissible(inputs) && inputs != [] && Run(inputs[..|inputs| - 1]).Some? && Run(inputs).Some?
    ensures var s, i := Run(inputs[..|inputs| - 1]).value, inputs[|inputs| - 1];
            c in Run(inputs).value.connections <==>
            || (c in s.connections && i != Leave(c))
            || (i == Arrive(c) && |s.connections| < MAX_CONNECTIONS)
  {
    LastStep(inputs);
    var s, i := Run(inputs[..|inputs| - 1]).value, inputs[|inputs| - 1];
    hide Run, Admissible, Books, Allowed, Process, Disconnected, Expire, OwnerIndexable;
    match i {
      case Arrive(_) =>
      case Leave(id) => LeaveMembers(s, id);
      case Tick(now) => TickMembers(s, now);
      case Frame(id, f, d) => if id in s.connections { ProcessMembers(s, id, f, d); }
    }
  }
}
