/** The broker's counters agree with its maps in every reachable state. */
module BrokerLedger {
  import opened Foundation
  import opened Broker

  predicate Counted(c: Connection, bridges: map<Uuid, Bridge>, slots: map<Secret, Slot>, id: Uuid) {
    && c.pairings == Degree(bridges, id) <= MAX_PAIRINGS_PER_CONNECTION
    && |Owned(slots, id)| <= c.slots <= MAX_SLOTS_PER_CONNECTION
  }

  predicate CountersExact(connections: map<Uuid, Connection>, slots: map<Secret, Slot>, bridges: map<Uuid, Bridge>) {
    forall c :: c in connections ==> Counted(connections[c], bridges, slots, c)
  }

  predicate Bridges(b: Bridge, ids: set<Uuid>) { b.owner in ids && b.joiner in ids && b.owner != b.joiner }

  predicate PartiesConnected(ids: set<Uuid>, bridges: map<Uuid, Bridge>) {
    forall p :: p in bridges ==> Bridges(bridges[p], ids)
  }

  predicate OwnersConnected(ids: set<Uuid>, slots: map<Secret, Slot>) {
    forall h :: h in slots ==> slots[h].owner in ids
  }

  predicate Books(s: State) {
    && CountersExact(s.connections, s.slots, s.bridges)
    && PartiesConnected(s.connections.Keys, s.bridges)
    && OwnersConnected(s.connections.Keys, s.slots)
    && |s.connections| <= MAX_CONNECTIONS && |s.slots| <= MAX_SLOTS
  }

  // ---------------------------------------------------------------- cardinalities

  lemma SmallerMap<K, V>(m: map<K, V>, m': map<K, V>)
    requires m'.Keys <= m.Keys
    ensures |m'| <= |m|
  {
    SubsetSize(m'.Keys, m.Keys);
  }

  lemma DegreeSplit(bridges: map<Uuid, Bridge>, ps: set<Uuid>, c: Uuid)
    ensures Degree(bridges, c) == Degree(bridges - ps, c) + Degree(Restrict(bridges, ps), c)
  {
    assert Touching(bridges, c) == Touching(bridges - ps, c) + Touching(Restrict(bridges, ps), c);
    assert Touching(bridges - ps, c) !! Touching(Restrict(bridges, ps), c);
  }

  lemma DegreeAdd(bridges: map<Uuid, Bridge>, p: Uuid, b: Bridge, c: Uuid)
    requires p !in bridges
    ensures Degree(bridges[p := b], c) == Degree(bridges, c) + if Touches(b, c) then 1 else 0
  {
    if Touches(b, c) {
      assert Touching(bridges[p := b], c) == Touching(bridges, c) + {p};
    } else {
      assert Touching(bridges[p := b], c) == Touching(bridges, c);
    }
  }

  lemma DegreeUntouched(bridges: map<Uuid, Bridge>, c: Uuid)
    requires forall p :: p in bridges ==> !Touches(bridges[p], c)
    ensures Degree(bridges, c) == 0
  {
    assert Touching(bridges, c) == {};
  }

  lemma OwnedShrinks(slots: map<Secret, Slot>, slots': map<Secret, Slot>, c: Uuid)
    requires forall h :: h in slots' ==> h in slots && slots'[h] == slots[h]
    ensures |Owned(slots', c)| <= |Owned(slots, c)|
  {
    SubsetSize(Owned(slots', c), Owned(slots, c));
  }

  lemma OwnedAdds(slots: map<Secret, Slot>, h: Secret, slot: Slot, c: Uuid)
    ensures |Owned(slots[h := slot], c)| <= |Owned(slots, c)| + if slot.owner == c then 1 else 0
  {
    if slot.owner == c {
      assert Owned(slots[h := slot], c) <= Owned(slots, c) + {h};
      SubsetSize(Owned(slots[h := slot], c), Owned(slots, c) + {h});
    } else {
      SubsetSize(Owned(slots[h := slot], c), Owned(slots, c));
    }
  }

  lemma OwnedLoses(slots: map<Secret, Slot>, h: Secret, c: Uuid)
    requires h in slots
    ensures |Owned(slots - {h}, c)| == |Owned(slots, c)| - if slots[h].owner == c then 1 else 0
  {
    if slots[h].owner == c {
      assert Owned(slots, c) == Owned(slots - {h}, c) + {h};
    } else {
      assert Owned(slots, c) == Owned(slots - {h}, c);
    }
  }

  // ---------------------------------------------------------------- each primitive keeps the books

  lemma SameKeys<V, W>(m: map<Uuid, V>, m': map<Uuid, W>)
    requires m.Keys == m'.Keys
    ensures |m| == |m'|
  {
    assert |m| == |m.Keys| && |m'| == |m'.Keys|;
  }

  /** Removing bridges never drives a counter below zero: the subtraction is exact. */
  lemma RemoveBridgesCounts(s: State, ps: set<Uuid>, c: Uuid)
    requires Books(s) && c in s.connections
    ensures var s' := RemoveBridges(s, ps);
            && c in s'.connections
            && s'.connections[c].pairings == s.connections[c].pairings - Degree(Restrict(s.bridges, ps), c)
            && Counted(s'.connections[c], s'.bridges, s'.slots, c)
  {
    hide Degree, Owned, Restrict;
    assert Counted(s.connections[c], s.bridges, s.slots, c);
    DegreeSplit(s.bridges, ps, c);
  }

  lemma RemoveBridgesKeeps(s: State, ps: set<Uuid>)
    requires Books(s)
    ensures Books(RemoveBridges(s, ps))
    ensures RemoveBridges(s, ps).connections.Keys == s.connections.Keys
  {
    hide Degree, Owned, Restrict, Counted;
    var s' := RemoveBridges(s, ps);
    assert s'.connections.Keys == s.connections.Keys;
    forall c | c in s'.connections ensures Counted(s'.connections[c], s'.bridges, s'.slots, c) {
      RemoveBridgesCounts(s, ps, c);
    }
    SameKeys(s.connections, s'.connections);
  }

  lemma FewerSlotsKeeps(s: State, slots': map<Secret, Slot>)
    requires Books(s) && forall h :: h in slots' ==> h in s.slots && slots'[h] == s.slots[h]
    ensures Books(s.(slots := slots'))
  {
    hide Degree, Owned;
    forall c | c in s.connections ensures Counted(s.connections[c], s.bridges, slots', c) {
      assert Counted(s.connections[c], s.bridges, s.slots, c);
      OwnedShrinks(s.slots, slots', c);
    }
    assert slots'.Keys <= s.slots.Keys;
    SmallerMap(s.slots, slots');
  }

  lemma LiveSlotCounted(s: State, h: Secret)
    requires Books(s) && h in s.slots
    ensures s.slots[h].owner in s.connections && s.connections[s.slots[h].owner].slots >= 1
  {
    var owner := s.slots[h].owner;
    assert Counted(s.connections[owner], s.bridges, s.slots, owner);
    SubsetSize({h}, Owned(s.slots, owner));
  }

  /** Returning a live slot never saturates the slot counter. */
  lemma RemoveSlotKeeps(s: State, h: Secret)
    requires Books(s) && h in s.slots
    ensures Books(RemoveSlot(s, h))
    ensures RemoveSlot(s, h).connections.Keys == s.connections.Keys
  {
    LiveSlotCounted(s, h);
    hide Degree, Owned;
    var s' := RemoveSlot(s, h);
    assert s'.connections.Keys == s.connections.Keys;
    forall c | c in s'.connections ensures Counted(s'.connections[c], s'.bridges, s'.slots, c) {
      assert Counted(s.connections[c], s.bridges, s.slots, c);
      OwnedLoses(s.slots, h, c);
    }
    SameKeys(s.connections, s'.connections);
    SmallerMap(s.slots, s'.slots);
  }

  /** The log plays no part in the books. */
  lemma LogAside(s: State, s': State)
    requires Books(s) && s'.connections == s.connections && s'.slots == s.slots && s'.bridges == s.bridges
    ensures Books(s')
  {
    hide Counted;
  }

  lemma AttemptsKeep(s: State, id: Uuid, attempts: seq<int>)
    requires Books(s) && id in s.connections
    ensures Books(s.(connections := s.connections[id := s.connections[id].(attempts := attempts)]))
  {
    hide Degree, Owned;
    var s' := s.(connections := s.connections[id := s.connections[id].(attempts := attempts)]);
    assert s'.connections.Keys == s.connections.Keys;
    forall c | c in s'.connections ensures Counted(s'.connections[c], s'.bridges, s'.slots, c) {
      assert Counted(s.connections[c], s.bridges, s.slots, c);
    }
    SameKeys(s.connections, s'.connections);
  }

  // ---------------------------------------------------------------- commands keep the books

  lemma NewcomerCounted(s: State, id: Uuid)
    requires Books(s) && id !in s.connections
    ensures Counted(Connection(0, 0, []), s.bridges, s.slots, id)
  {
    DegreeUntouched(s.bridges, id);
    assert Owned(s.slots, id) == {};
  }

  lemma GrowMap<V>(m: map<Uuid, V>, id: Uuid, v: V)
    ensures m[id := v].Keys == m.Keys + {id}
    ensures |m[id := v]| <= |m| + 1
  {
    assert |m[id := v]| == |m[id := v].Keys| && |m| == |m.Keys|;
  }

  lemma MorePartiesConnected(ids: set<Uuid>, ids': set<Uuid>, slots: map<Secret, Slot>, bridges: map<Uuid, Bridge>)
    requires ids <= ids' && PartiesConnected(ids, bridges) && OwnersConnected(ids, slots)
    ensures PartiesConnected(ids', bridges) && OwnersConnected(ids', slots)
  {
    forall p | p in bridges ensures Bridges(bridges[p], ids') {
      assert Bridges(bridges[p], ids);
    }
  }

  lemma JoinKeeps(s: State, s': State, id: Uuid)
    requires Books(s) && id !in s.connections && |s.connections| < MAX_CONNECTIONS
    requires s'.slots == s.slots && s'.bridges == s.bridges
    requires s'.connections == s.connections[id := Connection(0, 0, [])]
    ensures Books(s')
  {
    hide Counted, PartiesConnected, OwnersConnected;
    NewcomerCounted(s, id);
    forall c | c in s'.connections ensures Counted(s'.connections[c], s'.bridges, s'.slots, c) {
      assert c != id ==> c in s.connections && s'.connections[c] == s.connections[c];
    }
    GrowMap(s.connections, id, Connection(0, 0, []));
    MorePartiesConnected(s.connections.Keys, s'.connections.Keys, s.slots, s.bridges);
  }

  lemma ConnectedKeeps(s: State, id: Uuid)
    requires Books(s) && id !in s.connections
    ensures Books(Connected(s, id))
  {
    hide Books;
    if |s.connections| < MAX_CONNECTIONS {
      JoinKeeps(s, Connected(s, id), id);
    }
  }

  /** Leaving is: drop the slots, settle the bridges, then forget the connection. */
  lemma DisconnectedShape(s: State, s1: State, id: Uuid)
    requires s1 == s.(slots := map h | h in s.slots && s.slots[h].owner != id :: s.slots[h])
    ensures var r, s' := RemoveBridges(s1, Touching(s.bridges, id)), Disconnected(s, id);
            && s'.slots == r.slots == s1.slots && s'.bridges == r.bridges == s.bridges - Touching(s.bridges, id)
            && s'.connections == r.connections - {id}
  {
    hide Degree, Restrict, Touching;
  }

  lemma DisconnectedKeeps(s: State, id: Uuid)
    requires Books(s)
    ensures Books(Disconnected(s, id))
  {
    hide Books, RemoveBridges, Disconnected;
    var s1 := s.(slots := map h | h in s.slots && s.slots[h].owner != id :: s.slots[h]);
    FewerSlotsKeeps(s, s1.slots);
    var gone := Touching(s.bridges, id);
    RemoveBridgesKeeps(s1, gone);
    DisconnectedShape(s, s1, id);
    ForgetConnection(RemoveBridges(s1, gone), Disconnected(s, id), id);
  }

  lemma OthersConnected(ids: set<Uuid>, id: Uuid, slots: map<Secret, Slot>, bridges: map<Uuid, Bridge>)
    requires PartiesConnected(ids, bridges) && OwnersConnected(ids, slots)
    requires forall h :: h in slots ==> slots[h].owner != id
    requires forall p :: p in bridges ==> !Touches(bridges[p], id)
    ensures PartiesConnected(ids - {id}, bridges) && OwnersConnected(ids - {id}, slots)
  {
    forall p | p in bridges ensures Bridges(bridges[p], ids - {id}) {
      assert Bridges(bridges[p], ids) && !Touches(bridges[p], id);
    }
  }

  lemma OthersCounted(connections: map<Uuid, Connection>, slots: map<Secret, Slot>,
                      bridges: map<Uuid, Bridge>, id: Uuid)
    requires CountersExact(connections, slots, bridges)
    ensures CountersExact(connections - {id}, slots, bridges)
    ensures (connections - {id}).Keys == connections.Keys - {id} && |connections - {id}| <= |connections|
  {
    hide Counted;
    assert (connections - {id}).Keys == connections.Keys - {id};
    SmallerMap(connections, connections - {id});
  }

  /** A connection that owns nothing and takes part in nothing can leave. */
  lemma ForgetConnection(s: State, s': State, id: Uuid)
    requires Books(s) && s'.slots == s.slots && s'.bridges == s.bridges && s'.connections == s.connections - {id}
    requires forall h :: h in s.slots ==> s.slots[h].owner != id
    requires forall p :: p in s.bridges ==> !Touches(s.bridges[p], id)
    ensures Books(s')
  {
    hide CountersExact, PartiesConnected, OwnersConnected, Touches;
    OthersConnected(s.connections.Keys, id, s.slots, s.bridges);
    OthersCounted(s.connections, s.slots, s.bridges, id);
  }

  lemma ExpireKeeps(s: State, now: int)
    requires Books(s)
    ensures Books(Expire(s, now))
  {
    hide Counted, Degree, Owned, Restrict;
    var slots' := map h | h in s.slots && s.slots[h].expiresAt > now :: s.slots[h];
    FewerSlotsKeeps(s, slots');
    var gone := set p | p in s.bridges && s.bridges[p].expiresAt <= now;
    RemoveBridgesKeeps(s.(slots := slots'), gone);
    LogAside(RemoveBridges(s.(slots := slots'), gone), Expire(s, now));
  }

  lemma NewSlotKeeps(s: State, s': State, h: Secret, slot: Slot)
    requires Books(s) && slot.owner in s.connections && |s.slots| < MAX_SLOTS
    requires s.connections[slot.owner].slots < MAX_SLOTS_PER_CONNECTION
    requires s'.slots == s.slots[h := slot] && s'.bridges == s.bridges
    requires var c := s.connections[slot.owner];
             s'.connections == s.connections[slot.owner := c.(slots := c.slots + 1)]
    ensures Books(s')
  {
    hide Degree, Owned;
    assert s'.connections.Keys == s.connections.Keys && s'.slots.Keys == s.slots.Keys + {h};
    forall x | x in s'.connections ensures Counted(s'.connections[x], s'.bridges, s'.slots, x) {
      assert Counted(s.connections[x], s.bridges, s.slots, x);
      OwnedAdds(s.slots, h, slot, x);
    }
    SameKeys(s.connections, s'.connections);
    assert |s'.slots| == |s'.slots.Keys| <= |s.slots.Keys| + 1;
  }

  lemma CreateSlotKeeps(s: State, id: Uuid, requestId: Uuid, publicKey: Bytes, ttl: nat, d: Draw)
    requires Books(s) && id in s.connections
    ensures Books(CreateSlot(s, id, requestId, publicKey, ttl, d))
  {
    hide Counted;
    var s' := CreateSlot(s, id, requestId, publicKey, ttl, d);
    if s.connections[id].slots < MAX_SLOTS_PER_CONNECTION && |s.slots| < MAX_SLOTS {
      var slot := Slot(id, d.handle, Sha256(d.capability), Sha256(FirstFree(s.slots, d.codes)), publicKey,
                       d.now + Clamp(ttl));
      NewSlotKeeps(s, s', Sha256(d.handle), slot);
    } else {
      LogAside(s, s');
    }
  }

  lemma ResolveKeeps(s: State, id: Uuid, requestId: Uuid, displayCode: string, now: int)
    requires Books(s) && id in s.connections
    ensures Books(Resolve(s, id, requestId, displayCode, now))
  {
    hide Counted, Recent;
    var recent := Recent(s.connections[id].attempts, now);
    AttemptsKeep(s, id, recent);
    AttemptsKeep(s, id, recent + [now]);
    var s' := Resolve(s, id, requestId, displayCode, now);
    var attempts := if |recent| >= MAX_CODE_ATTEMPTS then recent else recent + [now];
    LogAside(s.(connections := s.connections[id := s.connections[id].(attempts := attempts)]), s');
  }

  lemma RaiseKeeps(r: State, a: State, p: Uuid, b: Bridge)
    requires Books(r) && p !in r.bridges && Bridges(b, r.connections.Keys)
    requires r.connections[b.owner].pairings < MAX_PAIRINGS_PER_CONNECTION
    requires r.connections[b.joiner].pairings < MAX_PAIRINGS_PER_CONNECTION
    requires a.bridges == r.bridges[p := b] && a.slots == r.slots
    requires a.connections == Raise(Raise(r.connections, b.joiner), b.owner)
    ensures Books(a)
  {
    hide Degree, Owned;
    assert a.connections.Keys == r.connections.Keys;
    forall c | c in a.connections ensures Counted(a.connections[c], a.bridges, a.slots, c) {
      assert Counted(r.connections[c], r.bridges, r.slots, c);
      DegreeAdd(r.bridges, p, b, c);
    }
    SameKeys(r.connections, a.connections);
  }

  lemma OpenKeeps(s: State, id: Uuid, f: ClientFrame, d: Draw)
    requires Books(s) && id in s.connections && f.BeginPairing? && Sha256(f.slotHandle) in s.slots
    requires s.slots[Sha256(f.slotHandle)].owner != id && f.pairingId !in s.bridges
    requires s.connections[id].pairings < MAX_PAIRINGS_PER_CONNECTION
    requires s.connections[s.slots[Sha256(f.slotHandle)].owner].pairings < MAX_PAIRINGS_PER_CONNECTION
    ensures Books(Open(s, id, f, d))
  {
    hide Counted;
    var h := Sha256(f.slotHandle);
    var owner := s.slots[h].owner;
    RemoveSlotKeeps(s, h);
    var r := RemoveSlot(s, h);
    var bridge := Bridge(owner, id, Sha256(d.ownerToken), Sha256(d.joinerToken), h, d.now + BRIDGE_TTL);
    RaiseKeeps(r, Open(s, id, f, d), f.pairingId, bridge);
  }

  lemma BeginKeeps(s: State, id: Uuid, f: ClientFrame, d: Draw)
    requires Books(s) && id in s.connections && f.BeginPairing?
    ensures Books(Begin(s, id, f, d))
  {
    hide Counted, Open;
    var h := Sha256(f.slotHandle);
    if |f.offer| > MAX_PAIRING_BLOB_BYTES || h !in s.slots || s.slots[h].expiresAt <= d.now || s.slots[h].owner == id
       || f.pairingId in s.bridges || s.connections[id].pairings >= MAX_PAIRINGS_PER_CONNECTION
       || s.connections[s.slots[h].owner].pairings >= MAX_PAIRINGS_PER_CONNECTION
    {
      LogAside(s, Begin(s, id, f, d));
    } else {
      OpenKeeps(s, id, f, d);
    }
  }

  lemma FinishKeeps(s: State, p: Uuid, notice: Notice)
    requires Books(s) && p in s.bridges
    ensures Books(Finish(s, p, notice))
  {
    hide Counted, Degree, Owned, Restrict, RemoveBridges;
    RemoveBridgesKeeps(s, {p});
    var r, b := RemoveBridges(s, {p}), s.bridges[p];
    var told := Send(Send(r, b.owner, PairingEnded(p, notice)), b.joiner, PairingEnded(p, notice));
    LogAside(r, told);
    if b.slotHash in told.slots { RemoveSlotKeeps(told, b.slotHash); }
  }

  lemma ProcessKeeps(s: State, id: Uuid, f: ClientFrame, d: Draw)
    requires Books(s)
    ensures Books(Process(s, id, f, d))
  {
    hide Counted, CreateSlot, Resolve, Begin, Finish, RemoveSlot;
    if id in s.connections {
      match f {
        case CreatePairingSlot(req, key, ttl) => CreateSlotKeeps(s, id, req, key, ttl, d);
        case ResolvePairingCode(req, code) => ResolveKeeps(s, id, req, code, d.now);
        case BeginPairing(_, _, _, _, _) => BeginKeeps(s, id, f, d);
        case RejectPairing(p, token) => if p in s.bridges { FinishKeeps(s, p, Rejected); }
        case PairingCommitted(p, token) => if p in s.bridges { FinishKeeps(s, p, Finalized); }
        case FinalizePairing(p, token) => if p in s.bridges { FinishKeeps(s, p, Finalized); }
        case CancelPairing(p, token) => if p in s.bridges { FinishKeeps(s, p, Cancelled); }
        case CancelPairingSlot(handle, capability) =>
          if Sha256(handle) in s.slots { RemoveSlotKeeps(s, Sha256(handle)); }
        case AcceptPairing(_, _, _) => LogAside(s, Process(s, id, f, d));
        case Ping => LogAside(s, Process(s, id, f, d));
      }
    }
  }
}
