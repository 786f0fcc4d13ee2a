/** The broker task itself: three maps updated in place, one command at a time. */
module BrokerActor {
  import opened Foundation
  import opened PairingCode
  import opened Broker
  import opened BrokerLedger
  import opened BrokerRuns
  import opened BrokerSlots

  /** The ids in a list of removed bridges. */
  ghost function Among(ids: seq<Uuid>): set<Uuid> { set p | p in ids }

  /** Removed bridges in the order they came out, each id once. */
  ghost predicate Lists(removed: seq<Bridge>, ids: seq<Uuid>, table: map<Uuid, Bridge>) {
    && |ids| == |removed|
    && (forall k :: 0 <= k < |ids| ==> ids[k] in table && removed[k] == table[ids[k]])
    && (forall j, k :: 0 <= j < k < |ids| ==> ids[j] != ids[k])
  }

  lemma ListsOneMore(removed: seq<Bridge>, ids: seq<Uuid>, table: map<Uuid, Bridge>, p: Uuid)
    requires Lists(removed, ids, table) && p in table && p !in Among(ids)
    ensures Lists(removed + [table[p]], ids + [p], table) && Among(ids + [p]) == Among(ids) + {p}
  {
  }

  /** Taking one more bridge out charges its two parties once each. */
  lemma DischargeOneMore(connections: map<Uuid, Connection>, bridges: map<Uuid, Bridge>, done: set<Uuid>,
                         p: Uuid, c: Uuid)
    requires p in bridges && p !in done && c in connections
    ensures Monus(connections[c].pairings, Degree(Restrict(bridges, done + {p}), c))
         == Monus(Monus(connections[c].pairings, Degree(Restrict(bridges, done), c)),
                  if Touches(bridges[p], c) then 1 else 0)
  {
    assert Restrict(bridges, done + {p}) == Restrict(bridges, done)[p := bridges[p]];
    DegreeAdd(Restrict(bridges, done), p, bridges[p], c);
  }

  lemma LaterFree(slots: map<Secret, Slot>, codes: seq<string>)
    requires SomeFree(slots, codes) && CodeTaken(slots, codes[0])
    ensures |codes| > 1 && SomeFree(slots, codes[1..])
  {
    var k :| 0 <= k < |codes| && !CodeTaken(slots, codes[k]);
    assert codes[1..][k - 1] == codes[k];
  }

  function Lower(connections: map<Uuid, Connection>, id: Uuid): map<Uuid, Connection> {
    if id in connections
    then connections[id := connections[id].(pairings := Monus(connections[id].pairings, 1))]
    else connections
  }

  lemma LowerBoth(connections: map<Uuid, Connection>, bridges: map<Uuid, Bridge>, done: set<Uuid>, p: Uuid)
    requires p in bridges && p !in done && bridges[p].owner != bridges[p].joiner
    ensures Lower(Lower(Discharge(connections, Restrict(bridges, done)), bridges[p].owner), bridges[p].joiner)
         == Discharge(connections, Restrict(bridges, done + {p}))
  {
    hide Degree, Restrict;
    forall c | c in connections
      ensures Discharge(connections, Restrict(bridges, done + {p}))[c]
           == Lower(Lower(Discharge(connections, Restrict(bridges, done)), bridges[p].owner), bridges[p].joiner)[c]
    {
      DischargeOneMore(connections, bridges, done, p, c);
    }
  }

  lemma DischargeNone(connections: map<Uuid, Connection>, bridges: map<Uuid, Bridge>)
    ensures Discharge(connections, Restrict(bridges, {})) == connections
  {
    forall c | c in connections ensures Degree(Restrict(bridges, {}), c) == 0 {
      DegreeUntouched(Restrict(bridges, {}), c);
    }
  }

  class Actor {
    var connections: map<Uuid, Connection>
    var slots: map<Secret, Slot>
    var bridges: map<Uuid, Bridge>
    ghost var log: seq<Entry>

    ghost function View(): State
      reads this
    {
      State(connections, slots, bridges, log)
    }

    constructor ()
      ensures View() == INITIAL
    {
      connections, slots, bridges, log := map[], map[], map[], [];
    }

    // -------------------------------------------------------------- helpers

    method Offer(id: Uuid, frame: ServerFrame)
      modifies this`log
      ensures View() == Send(old(View()), id, frame)
    {
      if id in connections { log := log + [Sent(id, frame)]; }
    }

    method LowerPairings(id: Uuid)
      modifies this`connections
      ensures connections == Lower(old(connections), id)
    {
      if id in connections {
        var c := connections[id];
        connections := connections[id := c.(pairings := if c.pairings > 0 then c.pairings - 1 else 0)];
      }
    }

    method LowerSlots(id: Uuid)
      modifies this`connections
      ensures connections == ReturnSlot(old(connections), id)
    {
      if id in connections {
        var c := connections[id];
        connections := connections[id := c.(slots := if c.slots > 0 then c.slots - 1 else 0)];
      }
    }

    /** Takes the listed bridges out of the table. */
    method TakeBridges(gone: set<Uuid>) returns (removed: seq<Bridge>, ghost ids: seq<Uuid>)
      requires gone <= bridges.Keys
      modifies this`bridges
      ensures bridges == old(bridges) - gone && Lists(removed, ids, old(bridges)) && Among(ids) == gone
    {
      var todo := gone;
      removed, ids := [], [];
      assert Lists(removed, ids, old(bridges)) && Among(ids) == gone - todo;
      hide Lists, Among;
      while todo != {}
        invariant todo <= gone && Among(ids) == gone - todo
        invariant Lists(removed, ids, old(bridges))
        invariant bridges == old(bridges) - (gone - todo)
        decreases |todo|
      {
        var p :| p in todo;
        ListsOneMore(removed, ids, old(bridges), p);
        assert gone - (todo - {p}) == gone - todo + {p};
        assert bridges[p] == old(bridges)[p];
        removed, ids := removed + [bridges[p]], ids + [p];
        bridges := bridges - {p};
        todo := todo - {p};
      }
      assert gone - todo == gone;
    }

    /** Every party of every removed bridge gives one pairing back, one saturating decrement at a time. */
    method ReleaseParties(removed: seq<Bridge>, ghost ids: seq<Uuid>, ghost table: map<Uuid, Bridge>)
      requires Lists(removed, ids, table) && forall k :: 0 <= k < |removed| ==> removed[k].owner != removed[k].joiner
      modifies this`connections
      ensures connections == Discharge(old(connections), Restrict(table, Among(ids)))
    {
      hide Discharge, Restrict;
      ghost var start := connections;
      DischargeNone(start, table);
      var k := 0;
      assert Among(ids[..0]) == {};
      while k < |removed|
        invariant k <= |removed|
        invariant connections == Discharge(start, Restrict(table, Among(ids[..k])))
      {
        assert ids[..k + 1] == ids[..k] + [ids[k]];
        assert Among(ids[..k + 1]) == Among(ids[..k]) + {ids[k]};
        LowerBoth(start, table, Among(ids[..k]), ids[k]);
        LowerPairings(removed[k].owner);
        LowerPairings(removed[k].joiner);
        k := k + 1;
      }
      assert ids[..k] == ids;
    }

    method RemovePairings(gone: set<Uuid>)
      requires gone <= bridges.Keys && forall p :: p in gone ==> bridges[p].owner != bridges[p].joiner
      modifies this`connections, this`bridges
      ensures View() == RemoveBridges(old(View()), gone)
    {
      hide Discharge, Restrict;
      ghost var table := bridges;
      var removed, ids := TakeBridges(gone);
      assert forall k :: 0 <= k < |ids| ==> ids[k] in Among(ids);
      ReleaseParties(removed, ids, table);
    }

    // -------------------------------------------------------------- commands

    method Connect(id: Uuid)
      modifies this
      ensures View() == Connected(old(View()), id)
    {
      if |connections| < MAX_CONNECTIONS {
        connections := connections[id := Connection(0, 0, [])];
        log := log + [Joined(id)];
      }
    }

    method Disconnect(id: Uuid)
      requires PartiesConnected(connections.Keys, bridges)
      modifies this
      ensures View() == Disconnected(old(View()), id)
    {
      connections := connections - {id};
      slots := map h | h in slots && slots[h].owner != id :: slots[h];
      var gone := set p | p in bridges && Touches(bridges[p], id);
      assert forall p :: p in gone ==> Bridges(bridges[p], old(connections.Keys));
      RemovePairings(gone);
      log := log + [Dropped(gone)];
    }

    method ExpireState(now: int)
      requires PartiesConnected(connections.Keys, bridges)
      modifies this
      ensures View() == Expire(old(View()), now)
    {
      slots := map h | h in slots && slots[h].expiresAt > now :: slots[h];
      var gone := set p | p in bridges && bridges[p].expiresAt <= now;
      assert forall p :: p in gone ==> Bridges(bridges[p], connections.Keys);
      RemovePairings(gone);
      log := log + [Dropped(gone)];
    }

    /** Redraws until a code no live slot uses comes up. */
    method DrawCode(codes: seq<string>) returns (code: string)
      requires SomeFree(slots, codes)
      ensures code == FirstFree(slots, codes) && code in codes && !CodeTaken(slots, code)
    {
      FirstFreeIsFree(slots, codes);
      var k := 0;
      while CodeTaken(slots, codes[k])
        invariant k < |codes| && SomeFree(slots, codes[k..]) && FirstFree(slots, codes[k..]) == FirstFree(slots, codes)
        decreases |codes| - k
      {
        assert codes[k..][1..] == codes[k + 1..];
        LaterFree(slots, codes[k..]);
        k := k + 1;
      }
      code := codes[k];
    }

    method CreatePairingSlot(id: Uuid, requestId: Uuid, publicKey: Bytes, ttl: nat, d: Draw)
      requires id in connections && SomeFree(slots, d.codes)
      modifies this
      ensures View() == CreateSlot(old(View()), id, requestId, publicKey, ttl, d)
    {
      if connections[id].slots >= MAX_SLOTS_PER_CONNECTION || |slots| >= MAX_SLOTS {
        Offer(id, Error(requestId, "capacity"));
      } else {
        var life := if ttl < 10 then 10 else if ttl > SLOT_TTL then SLOT_TTL else ttl;
        var code := DrawCode(d.codes);
        var slot := Slot(id, d.handle, Sha256(d.capability), Sha256(code), publicKey, d.now + life);
        slots := slots[Sha256(d.handle) := slot];
        connections := connections[id := connections[id].(slots := connections[id].slots + 1)];
        log := log + [Issued(code, Sha256(d.handle))];
        Offer(id, PairingSlotCreated(requestId, d.handle, FormatCode(code), d.capability, slot.expiresAt));
      }
    }

    /** Forgets attempts that have left the window. */
    method TrimAttempts(attempts: seq<int>, now: int) returns (kept: seq<int>)
      ensures kept == Recent(attempts, now)
    {
      kept := [];
      var k := 0;
      while k < |attempts|
        invariant k <= |attempts| && kept == Recent(attempts[..k], now)
      {
        assert attempts[..k + 1][..k] == attempts[..k];
        if attempts[k] + ATTEMPT_WINDOW > now { kept := kept + [attempts[k]]; }
        k := k + 1;
      }
      assert attempts[..k] == attempts;
    }

    /** Searches the table in no particular order; at most one slot can match. */
    method FindSlot(code: string, now: int) returns (found: Option<Secret>)
      requires SlotsSound(View())
      ensures match found
              case None => forall h :: !Resolves(View(), code, now, h)
              case Some(h) => Resolves(View(), code, now, h) && forall x :: Resolves(View(), code, now, x) ==> x == h
    {
      var todo := slots.Keys;
      while todo != {}
        invariant todo <= slots.Keys
        invariant forall h :: h in slots && h !in todo ==> !Resolves(View(), code, now, h)
        decreases |todo|
      {
        var h :| h in todo;
        if slots[h].code == Sha256(code) && slots[h].expiresAt > now {
          forall x | Resolves(View(), code, now, x) ensures x == h { CodesDiffer(View(), x, h); }
          return Some(h);
        }
        todo := todo - {h};
      }
      return None;
    }

    method AnswerCode(id: Uuid, requestId: Uuid, displayCode: string, now: int)
      requires SlotsSound(View())
      modifies this`log
      ensures View() == Lookup(old(View()), id, requestId, displayCode, now)
    {
      ghost var before := View();
      match NormalizeCode(displayCode)
      case None =>
        Offer(id, Error(requestId, "invalid_code"));
      case Some(code) =>
        var found := FindSlot(code, now);
        match found {
          case None => Offer(id, Error(requestId, "invalid_code"));
          case Some(h) =>
            assert Resolves(before, code, now, h);
            Offer(id, PairingSlotResolved(requestId, slots[h].handle, slots[h].publicKey, slots[h].expiresAt));
        }
    }

    method ResolvePairingCode(id: Uuid, requestId: Uuid, displayCode: string, now: int)
      requires id in connections && SlotsSound(View())
      modifies this
      ensures View() == Resolve(old(View()), id, requestId, displayCode, now)
    {
      var recent := TrimAttempts(connections[id].attempts, now);
      if |recent| >= MAX_CODE_ATTEMPTS {
        connections := connections[id := connections[id].(attempts := recent)];
        Offer(id, Error(requestId, "rate_limited"));
      } else {
        ghost var before := View();
        connections := connections[id := connections[id].(attempts := recent + [now])];
        log := log + [Attempted(id, now)];
        TrimKeeps(before, View());
        AnswerCode(id, requestId, displayCode, now);
      }
    }

    method OpenBridge(id: Uuid, f: ClientFrame, d: Draw)
      requires id in connections && f.BeginPairing? && Sha256(f.slotHandle) in slots
      requires slots[Sha256(f.slotHandle)].owner in connections
      modifies this
      ensures View() == Open(old(View()), id, f, d)
    {
      var h := Sha256(f.slotHandle);
      var slot := slots[h];
      var owner := slot.owner;
      slots := slots - {h};
      LowerSlots(owner);
      bridges := bridges[f.pairingId :=
        Bridge(owner, id, Sha256(d.ownerToken), Sha256(d.joinerToken), h, d.now + BRIDGE_TTL)];
      connections := connections[id := connections[id].(pairings := connections[id].pairings + 1)];
      connections := connections[owner := connections[owner].(pairings := connections[owner].pairings + 1)];
      log := log + [Opened(f.pairingId, h, owner, id)];
      Offer(owner, PairingRequested(f.pairingId, slot.handle, d.ownerToken, f.publicKey, f.offer, d.now + BRIDGE_TTL));
      Offer(id, PairingStarted(f.requestId, f.pairingId, d.joinerToken, d.now + BRIDGE_TTL));
    }

    method StartPairing(id: Uuid, f: ClientFrame, d: Draw)
      requires id in connections && f.BeginPairing? && OwnersConnected(connections.Keys, slots)
      modifies this
      ensures View() == Begin(old(View()), id, f, d)
    {
      var h := Sha256(f.slotHandle);
      if |f.offer| > MAX_PAIRING_BLOB_BYTES {
        Offer(id, Error(f.requestId, "blob_too_large"));
      } else if h !in slots || slots[h].expiresAt <= d.now || slots[h].owner == id {
        Offer(id, Error(f.requestId, "invalid_slot"));
      } else if f.pairingId in bridges {
        Offer(id, Error(f.requestId, "duplicate_pairing"));
      } else if connections[id].pairings >= MAX_PAIRINGS_PER_CONNECTION
             || connections[slots[h].owner].pairings >= MAX_PAIRINGS_PER_CONNECTION {
        Offer(id, Error(f.requestId, "capacity"));
      } else {
        OpenBridge(id, f, d);
      }
    }

    method FinishPairing(p: Uuid, notice: Notice)
      requires p in bridges && bridges[p].owner != bridges[p].joiner
      modifies this
      ensures View() == Finish(old(View()), p, notice)
    {
      var b := bridges[p];
      ghost var before := View();
      DischargeNone(connections, bridges);
      LowerBoth(connections, bridges, {}, p);
      assert {} + {p} == {p};
      bridges := bridges - {p};
      LowerPairings(b.owner);
      LowerPairings(b.joiner);
      assert View() == RemoveBridges(before, {p});
      Offer(b.owner, PairingEnded(p, notice));
      Offer(b.joiner, PairingEnded(p, notice));
      if b.slotHash in slots {
        var owner := slots[b.slotHash].owner;
        slots := slots - {b.slotHash};
        LowerSlots(owner);
      }
    }

    method CancelPairingSlot(id: Uuid, handle: string, capability: string)
      modifies this
      ensures View() == CancelSlot(old(View()), id, handle, capability)
    {
      var h := Sha256(handle);
      if h in slots && slots[h].owner == id && slots[h].capability == Sha256(capability) {
        slots := slots - {h};
        LowerSlots(id);
      }
    }

    method IfAuthorized(p: Uuid, granted: bool, notice: Notice)
      requires granted ==> p in bridges && bridges[p].owner != bridges[p].joiner
      modifies this
      ensures View() == if granted then Finish(old(View()), p, notice) else old(View())
    {
      if granted { FinishPairing(p, notice); }
    }

    method ProcessFrame(id: Uuid, f: ClientFrame, d: Draw)
      requires Books(View()) && SlotsSound(View()) && (f.CreatePairingSlot? ==> SomeFree(slots, d.codes))
      modifies this
      ensures View() == Process(old(View()), id, f, d)
    {
      hide CountersExact, SlotsSound, CreateSlot, Resolve, Begin, Finish, CancelSlot;
      if id !in connections { return; }
      assert forall p :: p in bridges ==> Bridges(bridges[p], connections.Keys);
      match f {
        case Ping => Offer(id, Pong);
        case CreatePairingSlot(req, key, ttl) => CreatePairingSlot(id, req, key, ttl, d);
        case ResolvePairingCode(req, code) => ResolvePairingCode(id, req, code, d.now);
        case BeginPairing(_, _, _, _, _) => StartPairing(id, f, d);
        case AcceptPairing(p, token, response) =>
          if p in bridges && bridges[p].owner == id && bridges[p].ownerToken == Sha256(token)
             && |response| <= MAX_PAIRING_BLOB_BYTES {
            Offer(bridges[p].joiner, PairingAccepted(p, response));
          }
        case RejectPairing(p, token) =>
          IfAuthorized(p, AuthorizedEither(bridges, p, id, token), Rejected);
        case PairingCommitted(p, token) => IfAuthorized(p, Authorized(bridges, p, id, token, false), Finalized);
        case FinalizePairing(p, token) => IfAuthorized(p, Authorized(bridges, p, id, token, true), Finalized);
        case CancelPairing(p, token) =>
          IfAuthorized(p, AuthorizedEither(bridges, p, id, token), Cancelled);
        case CancelPairingSlot(handle, capability) => CancelPairingSlot(id, handle, capability);
      }
    }

    /** One turn of the actor: whatever comes in, it does what the specification says and stays consistent. */
    method Handle(i: Input)
      requires Books(View()) && SlotsSound(View()) && Allowed(View(), i)
      modifies this
      ensures !Panics(old(View()), i) && View() == Step(old(View()), i)
      ensures Books(View()) && SlotsSound(View())
    {
      StepKeepsBooks(View(), i);
      StepKeepsSlots(View(), i);
      hide CountersExact, SlotsSound, Evolves, Process, Connected, Disconnected, Expire, Allowed;
      match i {
        case Arrive(id) => Connect(id);
        case Leave(id) => Disconnect(id);
        case Tick(now) => ExpireState(now);
        case Frame(id, f, d) => if id in connections { ProcessFrame(id, f, d); }
      }
    }
  }
}
