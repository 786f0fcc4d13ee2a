/** Capacity by double counting, and the exact drift of the slot counter. */
module BrokerCapacity {
  import opened Foundation
  import opened PairingCode
  import opened Broker
  import opened BrokerLedger
  import opened BrokerRuns
  import opened BrokerSlots

  // ---------------------------------------------------------------- double counting

  ghost function Total(f: map<Uuid, nat>): nat
    decreases |f|
  {
    if f == map[] then 0
    else
      var c :| c in f;
      f[c] + Total(f - {c})
  }

  lemma {:induction false} TotalWithout(f: map<Uuid, nat>, c: Uuid)
    requires c in f
    ensures Total(f) == f[c] + Total(f - {c})
    decreases |f|
  {
    var d :| d in f && Total(f) == f[d] + Total(f - {d});
    if d != c {
      TotalWithout(f - {d}, c);
      TotalWithout(f - {c}, d);
      assert f - {d} - {c} == f - {c} - {d};
    }
  }

  lemma {:induction false} TotalBump(f: map<Uuid, nat>, c: Uuid)
    requires c in f
    ensures Total(f[c := f[c] + 1]) == Total(f) + 1
  {
    var g := f[c := f[c] + 1];
    TotalWithout(f, c);
    TotalWithout(g, c);
    assert g - {c} == f - {c};
  }

  lemma {:induction false} TotalOfZeros(f: map<Uuid, nat>)
    requires forall c :: c in f ==> f[c] == 0
    ensures Total(f) == 0
    decreases |f|
  {
    if f != map[] {
      var c :| c in f && Total(f) == f[c] + Total(f - {c});
      TotalOfZeros(f - {c});
    }
  }

  lemma {:induction false} TotalOfTwos(f: map<Uuid, nat>)
    requires forall c :: c in f ==> f[c] <= 2
    ensures Total(f) <= 2 * |f|
    decreases |f|
  {
    if f != map[] {
      var c :| c in f && Total(f) == f[c] + Total(f - {c});
      TotalOfTwos(f - {c});
      assert f.Keys == (f - {c}).Keys + {c};
      assert |f| == |f - {c}| + 1;
    }
  }

  function Degrees(ids: set<Uuid>, bridges: map<Uuid, Bridge>): map<Uuid, nat> {
    map c | c in ids :: Degree(bridges, c)
  }

  /** Every bridge is counted once by its owner and once by its joiner. */
  lemma {:induction false} BridgesCountTwice(ids: set<Uuid>, bridges: map<Uuid, Bridge>)
    requires PartiesConnected(ids, bridges)
    ensures Total(Degrees(ids, bridges)) == 2 * |bridges|
    decreases |bridges|
  {
    if bridges == map[] {
      TotalOfZeros(Degrees(ids, bridges));
    } else {
      hide Degrees, Total;
      var p :| p in bridges;
      var rest := bridges - {p};
      assert bridges.Keys == rest.Keys + {p};
      assert bridges == rest[p := bridges[p]];
      assert Bridges(bridges[p], ids);
      BridgesCountTwice(ids, rest);
      AddBridge(ids, rest, p, bridges[p]);
    }
  }

  lemma AddBridge(ids: set<Uuid>, bridges: map<Uuid, Bridge>, p: Uuid, b: Bridge)
    requires p !in bridges && Bridges(b, ids)
    ensures Total(Degrees(ids, bridges[p := b])) == Total(Degrees(ids, bridges)) + 2
  {
    hide Degree;
    var f, f' := Degrees(ids, bridges), Degrees(ids, bridges[p := b]);
    var g := f[b.owner := f[b.owner] + 1];
    forall c | c in ids ensures f'[c] == g[b.joiner := g[b.joiner] + 1][c] { DegreeAdd(bridges, p, b, c); }
    assert f' == g[b.joiner := g[b.joiner] + 1];
    TotalBump(f, b.owner);
    TotalBump(g, b.joiner);
  }

  function Pairings(s: State): map<Uuid, nat> { map c | c in s.connections :: s.connections[c].pairings }

  lemma PairingsAreDegrees(s: State)
    requires Books(s)
    ensures Pairings(s) == Degrees(s.connections.Keys, s.bridges)
    ensures forall c :: c in Pairings(s) ==> Pairings(s)[c] <= MAX_PAIRINGS_PER_CONNECTION
  {
    hide Degree;
    forall c | c in s.connections
      ensures s.connections[c].pairings == Degree(s.bridges, c) <= MAX_PAIRINGS_PER_CONNECTION
    {
      assert Counted(s.connections[c], s.bridges, s.slots, c);
    }
  }

  /**
   After any run the pairing counters add up to twice the number of bridges, so bridges are bounded by live
   connections, although the broker never checks a global bridge limit.
   */
  lemma CapacityByDoubleCounting(inputs: seq<Input>)
    requires Admissible(inputs)
    ensures Run(inputs).Some?
    ensures var s := Run(inputs).value;
            && Total(Pairings(s)) == 2 * |s.bridges|
            && |s.bridges| <= |s.connections| <= MAX_CONNECTIONS
            && |s.slots| <= MAX_SLOTS
  {
    NeverPanics(inputs);
    hide Run, Admissible;
    var s := Run(inputs).value;
    Counting(s);
  }

  lemma Counting(s: State)
    requires Books(s)
    ensures Total(Pairings(s)) == 2 * |s.bridges| && |s.bridges| <= |s.connections|
  {
    PairingsAreDegrees(s);
    hide Counted;
    BridgesCountTwice(s.connections.Keys, s.bridges);
    TotalOfTwos(Pairings(s));
    assert Pairings(s).Keys == s.connections.Keys;
    SameKeys(Pairings(s), s.connections);
  }

  // ---------------------------------------------------------------- the slot counter drifts

  /** By how much a connection's slot counter exceeds the slots it still has. */
  function Drift(s: State, c: Uuid): int
    requires c in s.connections
  {
    s.connections[c].slots - |Owned(s.slots, c)|
  }

  function Lapsing(s: State, now: int, c: Uuid): set<Secret> {
    set h | h in Owned(s.slots, c) && s.slots[h].expiresAt <= now
  }

  lemma OwnedGains(slots: map<Secret, Slot>, h: Secret, slot: Slot, c: Uuid)
    requires h !in slots
    ensures |Owned(slots[h := slot], c)| == |Owned(slots, c)| + if slot.owner == c then 1 else 0
  {
    if slot.owner == c {
      assert Owned(slots[h := slot], c) == Owned(slots, c) + {h};
    } else {
      assert Owned(slots[h := slot], c) == Owned(slots, c);
    }
  }

  lemma OwnedElsewhere(slots: map<Secret, Slot>, id: Uuid, c: Uuid)
    requires c != id
    ensures Owned(map h | h in slots && slots[h].owner != id :: slots[h], c) == Owned(slots, c)
  {
  }

  lemma OwnedUnexpired(s: State, now: int, c: Uuid)
    ensures |Owned(map h | h in s.slots && s.slots[h].expiresAt > now :: s.slots[h], c)|
            == |Owned(s.slots, c)| - |Lapsing(s, now, c)|
  {
    var kept := Owned(map h | h in s.slots && s.slots[h].expiresAt > now :: s.slots[h], c);
    assert Owned(s.slots, c) == kept + Lapsing(s, now, c);
    assert kept !! Lapsing(s, now, c);
  }

  lemma RemoveSlotDrift(s: State, h: Secret, c: Uuid)
    requires Books(s) && h in s.slots && c in s.connections
    ensures c in RemoveSlot(s, h).connections && Drift(RemoveSlot(s, h), c) == Drift(s, c)
  {
    LiveSlotCounted(s, h);
    OwnedLoses(s.slots, h, c);
  }

  lemma RemoveBridgesSlots(s: State, ps: set<Uuid>, c: Uuid)
    requires c in s.connections
    ensures c in RemoveBridges(s, ps).connections && RemoveBridges(s, ps).connections[c].slots == s.connections[c].slots
  {
    hide Degree, Restrict;
  }

  lemma FinishDrift(s: State, p: Uuid, notice: Notice, c: Uuid)
    requires Books(s) && p in s.bridges && c in s.connections
    ensures c in Finish(s, p, notice).connections && Drift(Finish(s, p, notice), c) == Drift(s, c)
  {
    RemoveBridgesSlots(s, {p}, c);
    RemoveBridgesKeeps(s, {p});
    hide Owned, Books, RemoveBridges, RemoveSlot;
    var r, b := RemoveBridges(s, {p}), s.bridges[p];
    assert r.slots == s.slots by { RemoveBridgesOnlyBridges(s, {p}); }
    var told := Send(Send(r, b.owner, PairingEnded(p, notice)), b.joiner, PairingEnded(p, notice));
    LogAside(r, told);
    if b.slotHash in told.slots { RemoveSlotDrift(told, b.slotHash, c); }
  }

  lemma RemoveBridgesOnlyBridges(s: State, ps: set<Uuid>)
    ensures RemoveBridges(s, ps).slots == s.slots
  {
  }

  lemma OpenDrift(s: State, id: Uuid, f: ClientFrame, d: Draw, c: Uuid)
    requires Books(s) && id in s.connections && f.BeginPairing? && Sha256(f.slotHandle) in s.slots
    requires c in s.connections
    ensures c in Open(s, id, f, d).connections && Drift(Open(s, id, f, d), c) == Drift(s, c)
  {
    RemoveSlotDrift(s, Sha256(f.slotHandle), c);
    hide Owned, CountersExact, PartiesConnected;
  }

  lemma CreateDrift(s: State, id: Uuid, requestId: Uuid, publicKey: Bytes, ttl: nat, d: Draw, c: Uuid)
    requires SlotsSound(s) && FreshDraw(s, d) && id in s.connections && c in s.connections
    ensures var s' := CreateSlot(s, id, requestId, publicKey, ttl, d);
            c in s'.connections && Drift(s', c) == Drift(s, c)
  {
    hide Owned, Issues, Opens, FormatCode;
    assert UsedOnce(s.slots, s.log, Sha256(d.handle));
    var slot := Slot(id, d.handle, Sha256(d.capability), Sha256(FirstFree(s.slots, d.codes)), publicKey,
                     d.now + Clamp(ttl));
    OwnedGains(s.slots, Sha256(d.handle), slot, c);
  }

  lemma ProcessDrift(s: State, id: Uuid, f: ClientFrame, d: Draw, c: Uuid)
    requires Books(s) && SlotsSound(s) && (f.CreatePairingSlot? ==> FreshDraw(s, d)) && c in s.connections
    ensures c in Process(s, id, f, d).connections && Drift(Process(s, id, f, d), c) == Drift(s, c)
  {
    hide SlotsSound, FreshDraw, Owned, CountersExact, PartiesConnected, CreateSlot, Open, Finish, RemoveSlot, Lookup,
         Recent;
    if id in s.connections {
      match f {
        case CreatePairingSlot(req, key, ttl) => CreateDrift(s, id, req, key, ttl, d, c);
        case BeginPairing(_, _, _, _, _) =>
          if Sha256(f.slotHandle) in s.slots { OpenDrift(s, id, f, d, c); }
        case RejectPairing(p, token) => if p in s.bridges { FinishDrift(s, p, Rejected, c); }
        case PairingCommitted(p, token) => if p in s.bridges { FinishDrift(s, p, Finalized, c); }
        case FinalizePairing(p, token) => if p in s.bridges { FinishDrift(s, p, Finalized, c); }
        case CancelPairing(p, token) => if p in s.bridges { FinishDrift(s, p, Cancelled, c); }
        case CancelPairingSlot(handle, capability) =>
          if Sha256(handle) in s.slots { RemoveSlotDrift(s, Sha256(handle), c); }
        case ResolvePairingCode(req, code) => ResolveDrift(s, id, req, code, d.now, c);
        case AcceptPairing(_, _, _) =>
        case Ping =>
      }
    }
  }

  lemma ResolveDrift(s: State, id: Uuid, requestId: Uuid, displayCode: string, now: int, c: Uuid)
    requires id in s.connections && c in s.connections
    ensures var s' := Resolve(s, id, requestId, displayCode, now); c in s'.connections && Drift(s', c) == Drift(s, c)
  {
    hide Owned, Recent, NormalizeCode, Resolves;
  }

  /** A tick adds to the drift exactly the slots it takes; every other input moves counter and table together. */
  lemma DriftIsExpiry(s: State, i: Input, c: Uuid)
    requires Books(s) && SlotsSound(s) && Allowed(s, i) && !Panics(s, i)
    requires c in s.connections && c in Step(s, i).connections
    ensures Drift(Step(s, i), c) == Drift(s, c) + if i.Tick? then |Lapsing(s, i.now, c)| else 0
  {
    hide SlotsSound, Owned, Books, Process, RemoveBridges, Lapsing, FreshDraw, OwnerIndexable;
    match i {
      case Arrive(id) =>
      case Leave(id) =>
        LeaveMembers(s, id);
        OwnedElsewhere(s.slots, id, c);
        LeaveSlots(s, id, c);
      case Tick(now) =>
        OwnedUnexpired(s, now, c);
        TickSlots(s, now, c);
      case Frame(id, f, d) =>
        if id in s.connections { ProcessDrift(s, id, f, d, c); }
    }
  }

  lemma LeaveSlots(s: State, id: Uuid, c: Uuid)
    requires c in s.connections && c != id
    ensures var s' := Disconnected(s, id);
            && c in s'.connections && s'.connections[c].slots == s.connections[c].slots
            && s'.slots == map h | h in s.slots && s.slots[h].owner != id :: s.slots[h]
  {
    hide Degree, Restrict, Touching;
  }

  lemma TickSlots(s: State, now: int, c: Uuid)
    requires c in s.connections
    ensures var s' := Expire(s, now);
            && c in s'.connections && s'.connections[c].slots == s.connections[c].slots
            && s'.slots == map h | h in s.slots && s.slots[h].expiresAt > now :: s.slots[h]
  {
    hide Degree, Restrict;
  }

  /** While a connection stays, its drift never shrinks. */
  lemma {:induction false} DriftNeverShrinks(inputs: seq<Input>, k: nat, c: Uuid)
    requires Admissible(inputs) && k <= |inputs|
    requires Run(inputs[..k]).Some? && c in Run(inputs[..k]).value.connections
    requires Run(inputs).Some? && c in Run(inputs).value.connections
    ensures Drift(Run(inputs[..k]).value, c) <= Drift(Run(inputs).value, c)
    decreases |inputs|
  {
    hide SlotsSound, Books, Announced, Step, Panics, Allowed, Drift, Evolves;
    if k == |inputs| {
      assert inputs[..k] == inputs;
    } else {
      var before, i := inputs[..|inputs| - 1], inputs[|inputs| - 1];
      assert inputs[..k] == before[..k];
      NeverPanics(before);
      SlotsAlwaysSound(before);
      AlwaysAnnounced(before);
      RunEvolves(before, k);
      AlwaysAnnounced(before[..k]);
      StillThere(Run(before[..k]).value, Run(before).value, i, c);
      DriftNeverShrinks(before, k, c);
      DriftIsExpiry(Run(before).value, i, c);
    }
  }

  lemma StillThere(r: State, s: State, i: Input, c: Uuid)
    requires Announced(r) && c in r.connections && Evolves(r, s)
    requires Announced(s) && Allowed(s, i) && !Panics(s, i) && c in Step(s, i).connections
    ensures c in s.connections
  {
    hide Step, Panics, Allowed;
    StepMembers(s, i);
    assert Joined(c) in s.log;
  }

  /**
   Once two slots of a connection have lapsed in the table, then for as long as it stays connected it owns
   nothing and every slot it asks for is refused.
   */
  lemma LockedOut(inputs: seq<Input>, k: nat, c: Uuid, requestId: Uuid, publicKey: Bytes, ttl: nat, d: Draw)
    requires Admissible(inputs) && k <= |inputs|
    requires Run(inputs[..k]).Some? && c in Run(inputs[..k]).value.connections
    requires Run(inputs).Some? && c in Run(inputs).value.connections
    requires Drift(Run(inputs[..k]).value, c) >= MAX_SLOTS_PER_CONNECTION
    ensures var s := Run(inputs).value;
            && Owned(s.slots, c) == {}
            && CreateSlot(s, c, requestId, publicKey, ttl, d) == Reject(s, c, requestId, "capacity")
  {
    DriftNeverShrinks(inputs, k, c);
    NeverPanics(inputs);
    hide Run, Admissible;
    var s := Run(inputs).value;
    assert Counted(s.connections[c], s.bridges, s.slots, c);
  }

  // ---------------------------------------------------------------- the total over a run

  /** How many slots of a connection the expiry ticks of a run took out of the table. */
  ghost function Lapsed(inputs: seq<Input>, c: Uuid): nat {
    if inputs == [] then 0
    else
      var before, i := inputs[..|inputs| - 1], inputs[|inputs| - 1];
      Lapsed(before, c) + if i.Tick? && Run(before).Some? then |Lapsing(Run(before).value, i.now, c)| else 0
  }

  lemma StrangersOwnNothing(s: State, now: int, c: Uuid)
    requires Books(s) && c !in s.connections
    ensures Owned(s.slots, c) == {} && Lapsing(s, now, c) == {}
  {
    hide Counted;
  }

  /** Before a connection has ever joined, no tick takes a slot from it. */
  lemma {:induction false} NothingLapsesBefore(inputs: seq<Input>, c: Uuid)
    requires Admissible(inputs) && Run(inputs).Some? && Joined(c) !in Run(inputs).value.log
    ensures Lapsed(inputs, c) == 0
  {
    hide Books, Announced, Step, Panics, Allowed, Lapsing, Evolves;
    if inputs != [] {
      var before, i := inputs[..|inputs| - 1], inputs[|inputs| - 1];
      NeverPanics(before);
      AlwaysAnnounced(before);
      StepMembers(Run(before).value, i);
      NothingLapsesBefore(before, c);
      if i.Tick? { AbsentOwnsNothing(Run(before).value, i.now, c); }
    }
  }

  lemma AbsentOwnsNothing(s: State, now: int, c: Uuid)
    requires Books(s) && Announced(s) && Joined(c) !in s.log
    ensures Lapsing(s, now, c) == {}
  {
    hide Books, Lapsing;
    StrangersOwnNothing(s, now, c);
  }

  /**
   Over every run, a connection's slot counter exceeds its live slots by exactly the number of its slots that ticks
   took out of the table since it arrived; so the counter is right if and only if none of them lapsed.
   */
  lemma {:induction false} DriftIsTotalExpiry(inputs: seq<Input>, c: Uuid)
    requires Admissible(inputs) && Run(inputs).Some? && c in Run(inputs).value.connections
    ensures Drift(Run(inputs).value, c) == Lapsed(inputs, c)
    ensures Run(inputs).value.connections[c].slots == |Owned(Run(inputs).value.slots, c)| <==> Lapsed(inputs, c) == 0
  {
    hide Books, Announced, SlotsSound, Step, Panics, Allowed, Lapsing, Owned;
    if inputs != [] {
      var before, i := inputs[..|inputs| - 1], inputs[|inputs| - 1];
      NeverPanics(before);
      SlotsAlwaysSound(before);
      AlwaysAnnounced(before);
      var s := Run(before).value;
      if c in s.connections {
        DriftIsTotalExpiry(before, c);
        DriftIsExpiry(s, i, c);
      } else {
        StepMembers(s, i);
        Arrived(s, i, c);
        NothingLapsesBefore(before, c);
      }
    }
  }

  /** A connection appears by arriving, for the first time and with nothing. */
  lemma Arrived(s: State, i: Input, c: Uuid)
    requires Books(s) && Announced(s) && Allowed(s, i) && !Panics(s, i) && c !in s.connections
    requires c in Step(s, i).connections
    ensures Joined(c) !in s.log && !i.Tick? && Drift(Step(s, i), c) == 0
  {
    StepMembers(s, i);
    StrangersOwnNothing(s, 0, c);
    hide Owned, Process, Disconnected, Expire, CountersExact, PartiesConnected, FreshDraw, OwnerIndexable;
    match i {
      case Arrive(id) =>
      case Leave(id) => LeaveMembers(s, id);
      case Tick(now) => TickMembers(s, now);
      case Frame(id, f, d) => if id in s.connections { ProcessMembers(s, id, f, d); }
    }
  }

  // ---------------------------------------------------------------- it really happens

  /** A connected client with nothing in the table that asks for a slot and lets it lapse. */
  lemma OneMoreLapses(inputs: seq<Input>, s: State, d: Draw) returns (inputs': seq<Input>, s': State)
    requires Admissible(inputs) && Run(inputs) == Some(s)
    requires "c" in s.connections && s.connections["c"].slots < MAX_SLOTS_PER_CONNECTION && s.slots == map[]
    requires d.now == 0 && d.codes == ["00000000"] && Issues(s.log, Sha256(d.handle)) == 0
    ensures Admissible(inputs') && Run(inputs') == Some(s') && "c" in s'.connections && s'.slots == map[]
    ensures s'.connections["c"].slots == s.connections["c"].slots + 1
    ensures forall h :: Issues(s'.log, h) == Issues(s.log, h) + if h == Sha256(d.handle) then 1 else 0
  {
    hide *;
    var create, tick := Frame("c", CreatePairingSlot("r", [], 10), d), Tick(10);
    var made := SlotMade(s, create, d);
    RunThen(inputs, create, s);
    TickAllowed(made, 10);
    RunThen(inputs + [create], tick, made);
    s' := Step(made, tick);
    SlotLapses(made, s');
    forall h ensures Issues(s'.log, h) == Issues(s.log, h) + if h == Sha256(d.handle) then 1 else 0 {
      PlainEntries(made.log, s'.log, h, "");
    }
    inputs' := inputs + [create] + [tick];
  }

  lemma SlotMade(s: State, create: Input, d: Draw) returns (made: State)
    requires "c" in s.connections && s.connections["c"].slots < MAX_SLOTS_PER_CONNECTION && s.slots == map[]
    requires d.now == 0 && d.codes == ["00000000"] && Issues(s.log, Sha256(d.handle)) == 0
    requires create == Frame("c", CreatePairingSlot("r", [], 10), d)
    ensures Allowed(s, create) && !Panics(s, create) && made == Step(s, create)
    ensures "c" in made.connections && made.connections["c"].slots == s.connections["c"].slots + 1
    ensures forall h :: h in made.slots ==> made.slots[h].expiresAt == 10
    ensures forall h :: Issues(made.log, h) == Issues(s.log, h) + if h == Sha256(d.handle) then 1 else 0
  {
    assert !CodeTaken(s.slots, d.codes[0]);
    hide Issues;
    made := CreateSlot(s, "c", "r", [], 10, d);
    var code := FirstFree(s.slots, d.codes);
    var slot := Slot("c", d.handle, Sha256(d.capability), Sha256(code), [], 10);
    forall h ensures Issues(made.log, h) == Issues(s.log, h) + if h == Sha256(d.handle) then 1 else 0 {
      IssueCounts(s, made, code, Sha256(d.handle), slot, h, "");
    }
  }

  lemma TickAllowed(s: State, now: int)
    ensures Allowed(s, Tick(now)) && !Panics(s, Tick(now))
  {
  }

  lemma SlotLapses(s: State, s': State)
    requires "c" in s.connections && s' == Step(s, Tick(10)) && forall h :: h in s.slots ==> s.slots[h].expiresAt == 10
    ensures "c" in s'.connections && s'.connections["c"].slots == s.connections["c"].slots && s'.slots == map[]
    ensures s.log <= s'.log && forall k :: |s.log| <= k < |s'.log| ==> Plain(s'.log[k])
  {
    TickSlots(s, 10, "c");
    ExpireTrims(s, 10);
    hide Expire;
    assert s'.slots == map[];
  }

  lemma NoInputs()
    ensures Admissible([]) && Run([]) == Some(INITIAL)
  {
  }

  lemma ArrivalStep(s: State)
    requires s == Connected(INITIAL, "c")
    ensures Allowed(INITIAL, Arrive("c")) && !Panics(INITIAL, Arrive("c")) && Step(INITIAL, Arrive("c")) == s
    ensures "c" in s.connections && s.connections["c"].slots == 0 && s.slots == map[] && s.log == [Joined("c")]
  {
  }

  lemma NoneIssued(h: Secret)
    ensures Issues([Joined("c")], h) == 0
  {
    var log := [Joined("c")];
    assert log[..0] == [];
  }

  lemma FirstArrival() returns (s: State)
    ensures Admissible([Arrive("c")]) && Run([Arrive("c")]) == Some(s)
    ensures "c" in s.connections && s.connections["c"].slots == 0 && s.slots == map[]
    ensures forall h :: Issues(s.log, h) == 0
  {
    hide *;
    s := Connected(INITIAL, "c");
    ArrivalStep(s);
    NoInputs();
    RunThen([], Arrive("c"), INITIAL);
    assert [] + [Arrive("c")] == [Arrive("c")];
    forall h ensures Issues(s.log, h) == 0 { NoneIssued(h); }
  }

  /** Two slots asked for and lapsed: the table is empty, and the next request is refused for capacity. */
  lemma LockOutHappens(publicKey: Bytes, ttl: nat, d: Draw) returns (inputs: seq<Input>)
    ensures Admissible(inputs) && Run(inputs).Some? && "c" in Run(inputs).value.connections
    ensures var s := Run(inputs).value;
            && s.slots == map[] && Drift(s, "c") == MAX_SLOTS_PER_CONNECTION
            && CreateSlot(s, "c", "again", publicKey, ttl, d) == Reject(s, "c", "again", "capacity")
  {
    hide Run, Admissible, CreateSlot, Issues, Drift;
    var s := FirstArrival();
    inputs := [Arrive("c")];
    inputs, s := OneMoreLapses(inputs, s, Draw(0, ["00000000"], "h1", "p", "o", "j"));
    inputs, s := OneMoreLapses(inputs, s, Draw(0, ["00000000"], "h2", "p", "o", "j"));
    Refused(s, publicKey, ttl, d);
  }

  lemma Refused(s: State, publicKey: Bytes, ttl: nat, d: Draw)
    requires "c" in s.connections && s.slots == map[] && s.connections["c"].slots == 2
    ensures Drift(s, "c") == MAX_SLOTS_PER_CONNECTION
    ensures CreateSlot(s, "c", "again", publicKey, ttl, d) == Reject(s, "c", "again", "capacity")
  {
    assert Owned(s.slots, "c") == {};
  }
}
