/** Slots over whole runs: each is issued once, opened at most once, and found by its own code only. */
module BrokerSlots {
  import opened Foundation
  import opened PairingCode
  import opened Broker
  import opened BrokerLedger
  import opened BrokerRuns

  /** How often a slot has been turned into a bridge. */
  function Opens(log: seq<Entry>, h: Secret): nat {
    if log == [] then 0
    else
      var e := log[|log| - 1];
      Opens(log[..|log| - 1], h) + if e.Opened? && e.slot == h then 1 else 0
  }

  /** The slot a code was last issued for. */
  function LastIssued(log: seq<Entry>, code: string): Option<Secret> {
    if log == [] then None
    else
      var e := log[|log| - 1];
      if e.Issued? && e.code == code then Some(e.slot) else LastIssued(log[..|log| - 1], code)
  }

  predicate UsedOnce(slots: map<Secret, Slot>, log: seq<Entry>, h: Secret) {
    Opens(log, h) + (if h in slots then 1 else 0) <= Issues(log, h) <= 1
  }

  predicate Findable(slots: map<Secret, Slot>, log: seq<Entry>, h: Secret)
    requires h in slots
  {
    && IsCode(slots[h].code.input)
    && LastIssued(log, slots[h].code.input) == Some(h)
    && h == Sha256(slots[h].handle)
  }

  ghost predicate SlotsSound(s: State) {
    && (forall h: Secret :: UsedOnce(s.slots, s.log, h))
    && (forall h :: h in s.slots ==> Findable(s.slots, s.log, h))
    && (forall p :: p in s.bridges ==> Opens(s.log, s.bridges[p].slotHash) == 1)
  }

  // ---------------------------------------------------------------- what a step does to slots

  predicate Plain(e: Entry) { !e.Issued? && !e.Opened? }

  lemma {:induction false} PlainEntries(log: seq<Entry>, log': seq<Entry>, h: Secret, code: string)
    requires log <= log' && forall k :: |log| <= k < |log'| ==> Plain(log'[k])
    ensures Issues(log', h) == Issues(log, h) && Opens(log', h) == Opens(log, h)
    ensures LastIssued(log', code) == LastIssued(log, code)
    decreases |log'|
  {
    if |log'| == |log| {
      assert log' == log;
    } else {
      var before := log'[..|log'| - 1];
      assert Plain(log'[|log'| - 1]);
      PlainEntries(log, before, h, code);
    }
  }

  predicate Sub<K, V(==)>(m': map<K, V>, m: map<K, V>) { forall k :: k in m' ==> k in m && m'[k] == m[k] }

  /** Nothing issued and nothing opened: slots and bridges can only disappear. */
  predicate Trimmed(s: State, s': State) {
    && Sub(s'.slots, s.slots) && Sub(s'.bridges, s.bridges)
    && s.log <= s'.log && forall k :: |s.log| <= k < |s'.log| ==> Plain(s'.log[k])
  }

  /** An issued slot never changes and, once out of the table, never returns. */
  ghost predicate Evolves(s: State, s': State) {
    && s.log <= s'.log
    && forall h :: h in s'.slots && Issues(s.log, h) > 0 ==> h in s.slots && s'.slots[h] == s.slots[h]
  }

  lemma TrimKeeps(s: State, s': State)
    requires SlotsSound(s) && Trimmed(s, s')
    ensures SlotsSound(s') && Evolves(s, s')
  {
    hide Issues, Opens, LastIssued, IsCode;
    forall h: Secret ensures UsedOnce(s'.slots, s'.log, h) {
      assert UsedOnce(s.slots, s.log, h);
      PlainEntries(s.log, s'.log, h, "");
    }
    forall h | h in s'.slots ensures Findable(s'.slots, s'.log, h) {
      assert Findable(s.slots, s.log, h);
      PlainEntries(s.log, s'.log, h, s.slots[h].code.input);
    }
    forall p | p in s'.bridges ensures Opens(s'.log, s'.bridges[p].slotHash) == 1 {
      PlainEntries(s.log, s'.log, s.bridges[p].slotHash, "");
    }
  }

  predicate Issuing(s: State, s': State, code: string, h: Secret, slot: Slot) {
    && s'.slots == s.slots[h := slot] && s'.bridges == s.bridges
    && |s'.log| == |s.log| + 2 && s'.log[..|s.log|] == s.log
    && s'.log[|s.log|] == Issued(code, h) && Plain(s'.log[|s.log| + 1])
    && slot.code == Sha256(code) && h == Sha256(slot.handle)
  }

  lemma IssueCounts(s: State, s': State, code: string, h: Secret, slot: Slot, x: Secret, other: string)
    requires Issuing(s, s', code, h, slot)
    ensures Issues(s'.log, x) == Issues(s.log, x) + (if x == h then 1 else 0)
    ensures Opens(s'.log, x) == Opens(s.log, x)
    ensures LastIssued(s'.log, other) == if other == code then Some(h) else LastIssued(s.log, other)
  {
    var one := s'.log[..|s.log| + 1];
    assert one[..|one| - 1] == s.log;
    assert s'.log[..|s'.log| - 1] == one;
  }

  lemma IssueKeeps(s: State, s': State, code: string, h: Secret, slot: Slot)
    requires SlotsSound(s) && Issuing(s, s', code, h, slot)
    requires IsCode(code) && !CodeTaken(s.slots, code) && Issues(s.log, h) == 0
    ensures SlotsSound(s') && Evolves(s, s')
  {
    hide Issues, Opens, LastIssued, IsCode;
    assert UsedOnce(s.slots, s.log, h);
    forall x: Secret ensures UsedOnce(s'.slots, s'.log, x) {
      assert UsedOnce(s.slots, s.log, x);
      IssueCounts(s, s', code, h, slot, x, "");
    }
    forall x | x in s'.slots ensures Findable(s'.slots, s'.log, x) {
      IssueCounts(s, s', code, h, slot, x, s'.slots[x].code.input);
      if x != h {
        assert Findable(s.slots, s.log, x);
        assert s.slots[x].code != Sha256(code);
      }
    }
    forall p | p in s'.bridges ensures Opens(s'.log, s'.bridges[p].slotHash) == 1 {
      IssueCounts(s, s', code, h, slot, s.bridges[p].slotHash, "");
    }
  }

  predicate Opening(s: State, s': State, p: Uuid, b: Bridge) {
    && b.slotHash in s.slots
    && s'.slots == s.slots - {b.slotHash} && s'.bridges == s.bridges[p := b]
    && s.log <= s'.log && |s.log| < |s'.log|
    && s'.log[|s.log|] == Opened(p, b.slotHash, b.owner, b.joiner)
    && forall k :: |s.log| < k < |s'.log| ==> Plain(s'.log[k])
  }

  lemma OpenCounts(s: State, s': State, p: Uuid, b: Bridge, x: Secret, code: string)
    requires Opening(s, s', p, b)
    ensures Issues(s'.log, x) == Issues(s.log, x)
    ensures Opens(s'.log, x) == Opens(s.log, x) + (if x == b.slotHash then 1 else 0)
    ensures LastIssued(s'.log, code) == LastIssued(s.log, code)
  {
    var one := s'.log[..|s.log| + 1];
    assert one[..|one| - 1] == s.log;
    PlainEntries(one, s'.log, x, code);
  }

  lemma OpeningKeeps(s: State, s': State, p: Uuid, b: Bridge)
    requires SlotsSound(s) && Opening(s, s', p, b)
    ensures SlotsSound(s') && Evolves(s, s')
  {
    hide Issues, Opens, LastIssued, IsCode;
    assert UsedOnce(s.slots, s.log, b.slotHash);
    forall x: Secret ensures UsedOnce(s'.slots, s'.log, x) {
      assert UsedOnce(s.slots, s.log, x);
      OpenCounts(s, s', p, b, x, "");
    }
    forall x | x in s'.slots ensures Findable(s'.slots, s'.log, x) {
      assert Findable(s.slots, s.log, x);
      OpenCounts(s, s', p, b, x, s'.slots[x].code.input);
    }
    forall q | q in s'.bridges ensures Opens(s'.log, s'.bridges[q].slotHash) == 1 {
      OpenCounts(s, s', p, b, s'.bridges[q].slotHash, "");
      assert UsedOnce(s.slots, s.log, s'.bridges[q].slotHash);
    }
  }

  // ---------------------------------------------------------------- every input is one of the three

  lemma FinishTrims(s: State, p: Uuid, notice: Notice)
    requires p in s.bridges
    ensures Trimmed(s, Finish(s, p, notice))
  {
    hide Discharge, Restrict;
  }

  lemma ResolveTrims(s: State, id: Uuid, requestId: Uuid, displayCode: string, now: int)
    requires id in s.connections
    ensures Trimmed(s, Resolve(s, id, requestId, displayCode, now))
  {
    hide Recent, NormalizeCode, Resolves;
  }

  lemma CreateSlotKeepsSlots(s: State, id: Uuid, requestId: Uuid, publicKey: Bytes, ttl: nat, d: Draw)
    requires SlotsSound(s) && id in s.connections && FreshDraw(s, d)
    ensures var s' := CreateSlot(s, id, requestId, publicKey, ttl, d); SlotsSound(s') && Evolves(s, s')
  {
    hide SlotsSound, Evolves, Issues, IsCode, FormatCode, FirstFree, CodeTaken;
    var s' := CreateSlot(s, id, requestId, publicKey, ttl, d);
    if s.connections[id].slots < MAX_SLOTS_PER_CONNECTION && |s.slots| < MAX_SLOTS {
      var code := FirstFree(s.slots, d.codes);
      var slot := Slot(id, d.handle, Sha256(d.capability), Sha256(code), publicKey, d.now + Clamp(ttl));
      FreshCode(s, d);
      IssueKeeps(s, s', code, Sha256(d.handle), slot);
    } else {
      TrimKeeps(s, s');
    }
  }

  lemma OpenIsOpening(s: State, id: Uuid, f: ClientFrame, d: Draw)
    requires id in s.connections && f.BeginPairing? && Sha256(f.slotHandle) in s.slots
    requires s.slots[Sha256(f.slotHandle)].owner in s.connections
    ensures var h := Sha256(f.slotHandle);
            var b := Bridge(s.slots[h].owner, id, Sha256(d.ownerToken), Sha256(d.joinerToken), h, d.now + BRIDGE_TTL);
            Opening(s, Open(s, id, f, d), f.pairingId, b)
  {
  }

  lemma BeginKeepsSlots(s: State, id: Uuid, f: ClientFrame, d: Draw)
    requires SlotsSound(s) && id in s.connections && f.BeginPairing? && OwnerIndexable(s, f.slotHandle)
    ensures SlotsSound(Begin(s, id, f, d)) && Evolves(s, Begin(s, id, f, d))
  {
    hide SlotsSound, Evolves, Open;
    var h := Sha256(f.slotHandle);
    if |f.offer| > MAX_PAIRING_BLOB_BYTES || h !in s.slots || s.slots[h].expiresAt <= d.now || s.slots[h].owner == id
       || f.pairingId in s.bridges || s.connections[id].pairings >= MAX_PAIRINGS_PER_CONNECTION
       || s.connections[s.slots[h].owner].pairings >= MAX_PAIRINGS_PER_CONNECTION
    {
      TrimKeeps(s, Begin(s, id, f, d));
    } else {
      OpenIsOpening(s, id, f, d);
      var b := Bridge(s.slots[h].owner, id, Sha256(d.ownerToken), Sha256(d.joinerToken), h, d.now + BRIDGE_TTL);
      OpeningKeeps(s, Open(s, id, f, d), f.pairingId, b);
    }
  }

  /** Frames other than slot creation and pairing start only trim. */
  lemma ProcessTrims(s: State, id: Uuid, f: ClientFrame, d: Draw)
    requires id in s.connections && !f.CreatePairingSlot? && !f.BeginPairing?
    ensures Trimmed(s, Process(s, id, f, d))
  {
    hide Finish, Resolve, ReturnSlot;
    match f {
      case ResolvePairingCode(req, code) => ResolveTrims(s, id, req, code, d.now);
      case RejectPairing(p, token) => if p in s.bridges { FinishTrims(s, p, Rejected); }
      case PairingCommitted(p, token) => if p in s.bridges { FinishTrims(s, p, Finalized); }
      case FinalizePairing(p, token) => if p in s.bridges { FinishTrims(s, p, Finalized); }
      case CancelPairing(p, token) => if p in s.bridges { FinishTrims(s, p, Cancelled); }
      case CancelPairingSlot(handle, capability) =>
      case AcceptPairing(_, _, _) =>
      case Ping =>
    }
  }

  lemma DisconnectTrims(s: State, id: Uuid)
    ensures Trimmed(s, Disconnected(s, id))
  {
    hide Discharge, Restrict, Touching;
  }

  lemma ExpireTrims(s: State, now: int)
    ensures Trimmed(s, Expire(s, now))
  {
    hide Discharge, Restrict;
  }

  lemma StepKeepsSlots(s: State, i: Input)
    requires SlotsSound(s) && Allowed(s, i) && !Panics(s, i)
    ensures SlotsSound(Step(s, i)) && Evolves(s, Step(s, i))
  {
    hide SlotsSound, Disconnected, Expire, CreateSlot, Begin, FreshDraw, OwnerIndexable;
    match i {
      case Arrive(id) => TrimKeeps(s, Connected(s, id));
      case Leave(id) => DisconnectTrims(s, id); TrimKeeps(s, Disconnected(s, id));
      case Tick(now) => ExpireTrims(s, now); TrimKeeps(s, Expire(s, now));
      case Frame(id, f, d) =>
        if id in s.connections {
          if f.CreatePairingSlot? {
            CreateSlotKeepsSlots(s, id, f.requestId, f.publicKey, f.ttl, d);
          } else if f.BeginPairing? {
            BeginKeepsSlots(s, id, f, d);
          } else {
            ProcessTrims(s, id, f, d);
            TrimKeeps(s, Process(s, id, f, d));
          }
        } else {
          TrimKeeps(s, s);
        }
    }
  }

  lemma {:induction false} SlotsAlwaysSound(inputs: seq<Input>)
    requires Admissible(inputs)
    ensures Run(inputs).Some? && SlotsSound(Run(inputs).value)
  {
    NeverPanics(inputs);
    hide SlotsSound, Books, Step, Panics, Allowed;
    if inputs == [] {
      EmptySlots();
    } else {
      var before := inputs[..|inputs| - 1];
      SlotsAlwaysSound(before);
      StepKeepsSlots(Run(before).value, inputs[|inputs| - 1]);
    }
  }

  lemma EmptySlots()
    ensures SlotsSound(INITIAL)
  {
  }

  // ---------------------------------------------------------------- theorems

  /** No slot ever becomes two bridges, and a slot that became a bridge is out of the table. */
  lemma SingleUse(inputs: seq<Input>, h: Secret)
    requires Admissible(inputs)
    ensures Run(inputs).Some?
    ensures var s := Run(inputs).value; Opens(s.log, h) <= 1 && (Opens(s.log, h) == 1 ==> h !in s.slots)
  {
    SlotsAlwaysSound(inputs);
    hide Run, Admissible;
    assert UsedOnce(Run(inputs).value.slots, Run(inputs).value.log, h);
  }

  /** When a pairing ends its slot is already gone, so ending a pairing never touches a slot counter. */
  lemma FinishFindsNoSlot(inputs: seq<Input>, p: Uuid, notice: Notice)
    requires Admissible(inputs) && Run(inputs).Some? && p in Run(inputs).value.bridges
    ensures var s := Run(inputs).value; s.bridges[p].slotHash !in s.slots && Finish(s, p, notice).slots == s.slots
  {
    SlotsAlwaysSound(inputs);
    hide Run, Admissible;
    var s := Run(inputs).value;
    assert UsedOnce(s.slots, s.log, s.bridges[p].slotHash);
  }

  predicate HandleOf(s: State, h: Secret) { h in s.slots && s.slots[h].handle == h.input }

  /** The slot a code finds is the one the code was last issued for. */
  lemma ResolvesLastIssued(s: State, code: string, now: int, h: Secret)
    requires SlotsSound(s) && Resolves(s, code, now, h)
    ensures LastIssued(s.log, code) == Some(h) && HandleOf(s, h)
  {
    assert Findable(s.slots, s.log, h);
  }

  lemma CodesDiffer(s: State, x: Secret, y: Secret)
    requires SlotsSound(s) && x in s.slots && y in s.slots && s.slots[x].code == s.slots[y].code
    ensures x == y
  {
    assert Findable(s.slots, s.log, x) && Findable(s.slots, s.log, y);
  }

  /** What the broker answers to a code. */
  function Answer(s: State, id: Uuid, requestId: Uuid, code: string, now: int): State {
    match LastIssued(s.log, code)
    case None => Reject(s, id, requestId, "invalid_code")
    case Some(h) =>
      if Resolves(s, code, now, h)
      then Send(s, id, PairingSlotResolved(requestId, h.input, s.slots[h].publicKey, s.slots[h].expiresAt))
      else Reject(s, id, requestId, "invalid_code")
  }

  lemma LookupAnswers(s: State, id: Uuid, requestId: Uuid, code: string, now: int)
    requires SlotsSound(s) && IsCode(code)
    ensures Lookup(s, id, requestId, FormatCode(code), now) == Answer(s, id, requestId, code, now)
  {
    hide SlotsSound, NormalizeCode, FormatCode, IsCode, LastIssued, Resolves;
    NormalizeUndoesFormat(code);
    forall h | Resolves(s, code, now, h) ensures LastIssued(s.log, code) == Some(h) && HandleOf(s, h) {
      ResolvesLastIssued(s, code, now, h);
    }
  }

  /**
   Live slots have pairwise different codes, and a displayed code is answered with the slot it was last issued
   for exactly while that slot is in the table and unexpired.
   */
  lemma CodeResolution(inputs: seq<Input>, code: string, id: Uuid, requestId: Uuid, now: int)
    requires Admissible(inputs) && IsCode(code)
    ensures Run(inputs).Some?
    ensures var s := Run(inputs).value;
            && (forall x, y :: x in s.slots && y in s.slots && s.slots[x].code == s.slots[y].code ==> x == y)
            && Lookup(s, id, requestId, FormatCode(code), now) == Answer(s, id, requestId, code, now)
  {
    SlotsAlwaysSound(inputs);
    hide Run, Admissible, SlotsSound, Lookup, Answer, IsCode, FormatCode;
    var s := Run(inputs).value;
    LookupAnswers(s, id, requestId, code, now);
    forall x, y | x in s.slots && y in s.slots && s.slots[x].code == s.slots[y].code ensures x == y {
      CodesDiffer(s, x, y);
    }
  }

  lemma {:induction false} IssuesGrow(log: seq<Entry>, log': seq<Entry>, h: Secret)
    requires log <= log'
    ensures Issues(log, h) <= Issues(log', h)
    decreases |log'|
  {
    if |log'| == |log| {
      assert log' == log;
    } else {
      IssuesGrow(log, log'[..|log'| - 1], h);
    }
  }

  lemma {:induction false} RunEvolves(inputs: seq<Input>, k: nat)
    requires Admissible(inputs) && k <= |inputs|
    ensures Admissible(inputs[..k]) && Run(inputs[..k]).Some? && Run(inputs).Some?
    ensures Evolves(Run(inputs[..k]).value, Run(inputs).value)
    decreases |inputs|
  {
    SlotsAlwaysSound(inputs);
    hide SlotsSound, Evolves, Step, Panics, Allowed, Books;
    if k == |inputs| {
      assert inputs[..k] == inputs;
      EvolvesReflexive(Run(inputs).value);
    } else {
      var before := inputs[..|inputs| - 1];
      assert inputs[..k] == before[..k];
      RunEvolves(before, k);
      SlotsAlwaysSound(before);
      NeverPanics(before);
      StepKeepsBooks(Run(before).value, inputs[|inputs| - 1]);
      StepKeepsSlots(Run(before).value, inputs[|inputs| - 1]);
      EvolvesTransitive(Run(inputs[..k]).value, Run(before).value, Run(inputs).value);
    }
  }

  lemma EvolvesReflexive(s: State)
    ensures Evolves(s, s)
  {
  }

  lemma EvolvesTransitive(a: State, b: State, c: State)
    requires Evolves(a, b) && Evolves(b, c)
    ensures Evolves(a, c)
  {
    hide Issues;
    forall h | h in c.slots && Issues(a.log, h) > 0 ensures h in a.slots && c.slots[h] == a.slots[h] {
      IssuesGrow(a.log, b.log, h);
    }
  }

  lemma {:induction false} LastIssuedIsIssued(log: seq<Entry>, code: string)
    requires LastIssued(log, code).Some?
    ensures Issues(log, LastIssued(log, code).value) > 0
  {
    var e := log[|log| - 1];
    if !(e.Issued? && e.code == code) { LastIssuedIsIssued(log[..|log| - 1], code); }
  }

  /** A code that stopped resolving resolves to nothing until it is issued again, as long as time moves on. */
  lemma DeadCodeStaysDead(inputs: seq<Input>, k: nat, code: string, h: Secret, now: int, now': int, x: Secret)
    requires Admissible(inputs) && k <= |inputs| && now <= now'
    requires Run(inputs[..k]).Some? && Run(inputs).Some?
    requires var s, s' := Run(inputs[..k]).value, Run(inputs).value;
             && LastIssued(s.log, code) == Some(h) == LastIssued(s'.log, code)
             && !Resolves(s, code, now, h)
    ensures !Resolves(Run(inputs).value, code, now', x)
  {
    RunEvolves(inputs, k);
    SlotsAlwaysSound(inputs);
    hide Run, Admissible, LastIssued, Issues, Opens;
    var s, s' := Run(inputs[..k]).value, Run(inputs).value;
    LastIssuedIsIssued(s.log, code);
    assert x in s'.slots ==> Findable(s'.slots, s'.log, x);
  }

  /**
   A created slot answers for itself: the displayed code finds the issued handle until the announced expiry, which
   lies 10 to 120 seconds ahead, and handle and capability together take exactly this slot out again.
   */
  lemma CreatedSlotIsUsable(s: State, id: Uuid, requestId: Uuid, publicKey: Bytes, ttl: nat, d: Draw)
    requires SlotsSound(s) && FreshDraw(s, d) && id in s.connections
    requires s.connections[id].slots < MAX_SLOTS_PER_CONNECTION && |s.slots| < MAX_SLOTS
    ensures var s' := CreateSlot(s, id, requestId, publicKey, ttl, d);
            && s'.log != [] && s'.log[|s'.log| - 1].Sent? && s'.log[|s'.log| - 1].frame.PairingSlotCreated?
            && var made := s'.log[|s'.log| - 1].frame;
            && made.requestId == requestId && d.now + 10 <= made.expiresAt <= d.now + SLOT_TTL
            && CancelSlot(s', id, made.slotHandle, made.slotCapability).slots == s.slots
            && forall to: Uuid, r: Uuid, now: int :: now < made.expiresAt ==>
                 Lookup(s', to, r, made.displayCode, now)
                 == Send(s', to, PairingSlotResolved(r, made.slotHandle, publicKey, made.expiresAt))
  {
    var s' := CreateSlot(s, id, requestId, publicKey, ttl, d);
    var h, code := Sha256(d.handle), FirstFree(s.slots, d.codes);
    CreateSlotKeepsSlots(s, id, requestId, publicKey, ttl, d);
    CreatedEntries(s, id, requestId, publicKey, ttl, d);
    assert UsedOnce(s.slots, s.log, h);
    hide SlotsSound, Lookup, FreshDraw, CreateSlot, CancelSlot, FormatCode, IsCode, LastIssued, Issues, Opens, Evolves,
         FirstFree;
    CancelUndoes(s, s', id, d, s'.slots[h]);
    forall to: Uuid, r: Uuid, now: int | now < s'.slots[h].expiresAt
      ensures Lookup(s', to, r, FormatCode(code), now)
           == Send(s', to, PairingSlotResolved(r, d.handle, publicKey, s'.slots[h].expiresAt))
    {
      LookupAnswers(s', to, r, code, now);
    }
  }

  lemma CancelUndoes(s: State, s': State, id: Uuid, d: Draw, slot: Slot)
    requires Sha256(d.handle) !in s.slots && s'.slots == s.slots[Sha256(d.handle) := slot]
    requires slot.owner == id && slot.capability == Sha256(d.capability)
    ensures CancelSlot(s', id, d.handle, d.capability).slots == s.slots
  {
    assert s'.slots - {Sha256(d.handle)} == s.slots;
  }

  lemma CreatedEntries(s: State, id: Uuid, requestId: Uuid, publicKey: Bytes, ttl: nat, d: Draw)
    requires FreshDraw(s, d) && id in s.connections
    requires s.connections[id].slots < MAX_SLOTS_PER_CONNECTION && |s.slots| < MAX_SLOTS
    ensures var s' := CreateSlot(s, id, requestId, publicKey, ttl, d);
            var code := FirstFree(s.slots, d.codes);
            var slot := Slot(id, d.handle, Sha256(d.capability), Sha256(code), publicKey, d.now + Clamp(ttl));
            && IsCode(code) && s'.slots == s.slots[Sha256(d.handle) := slot]
            && LastIssued(s'.log, code) == Some(Sha256(d.handle))
            && s'.log != []
            && s'.log[|s'.log| - 1]
               == Sent(id, PairingSlotCreated(requestId, d.handle, FormatCode(code), d.capability, slot.expiresAt))
  {
    FreshCode(s, d);
    hide Issues, IsCode, FormatCode, CodeTaken, FirstFree, SomeFree;
    var s' := CreateSlot(s, id, requestId, publicKey, ttl, d);
    var code := FirstFree(s.slots, d.codes);
    var slot := Slot(id, d.handle, Sha256(d.capability), Sha256(code), publicKey, d.now + Clamp(ttl));
    IssueCounts(s, s', code, Sha256(d.handle), slot, Sha256(d.handle), code);
  }
}
