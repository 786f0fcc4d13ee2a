/** Runs of the broker: connections come and go, frames arrive, and the expiry tick fires, in any order. */
module BrokerRuns {
  import opened Foundation
  import opened PairingCode
  import opened Broker
  import opened BrokerLedger

  datatype Input =
    | Arrive(id: Uuid)
    | Leave(id: Uuid)
    | Frame(id: Uuid, frame: ClientFrame, draw: Draw)
    | Tick(now: int)

  /** How often a slot handle has been handed out. */
  function Issues(log: seq<Entry>, h: Secret): nat {
    if log == [] then 0
    else
      var e := log[|log| - 1];
      Issues(log[..|log| - 1], h) + if e.Issued? && e.slot == h then 1 else 0
  }

  /** Codes are eight digits, one of the draws is free, and the handle is new. */
  predicate FreshDraw(s: State, d: Draw) {
    && (forall k :: 0 <= k < |d.codes| ==> IsCode(d.codes[k]))
    && SomeFree(s.slots, d.codes) && Issues(s.log, Sha256(d.handle)) == 0
  }

  /** The redraw loop ends with a code that no live slot uses. */
  lemma {:induction false} FirstFreeIsFree(slots: map<Secret, Slot>, codes: seq<string>)
    requires SomeFree(slots, codes)
    ensures FirstFree(slots, codes) in codes && !CodeTaken(slots, FirstFree(slots, codes))
  {
    if CodeTaken(slots, codes[0]) {
      var k :| 0 <= k < |codes| && !CodeTaken(slots, codes[k]);
      assert codes[1..][k - 1] == codes[k];
      FirstFreeIsFree(slots, codes[1..]);
    }
  }

  lemma FreshCode(s: State, d: Draw)
    requires FreshDraw(s, d)
    ensures IsCode(FirstFree(s.slots, d.codes)) && !CodeTaken(s.slots, FirstFree(s.slots, d.codes))
  {
    hide IsCode, CodeTaken;
    FirstFreeIsFree(s.slots, d.codes);
  }

  /** What the surroundings guarantee: connection ids and handles are never reused, and some drawn code is free. */
  predicate Allowed(s: State, i: Input) {
    match i
    case Arrive(id) => Joined(id) !in s.log && id !in s.connections
    case Leave(_) => true
    case Frame(_, f, d) => f.CreatePairingSlot? ==> FreshDraw(s, d)
    case Tick(_) => true
  }

  /** Indexing a missing connection panics. */
  predicate Panics(s: State, i: Input) {
    i.Frame? && i.id in s.connections && i.frame.BeginPairing? && !OwnerIndexable(s, i.frame.slotHandle)
  }

  ghost function Step(s: State, i: Input): State
    requires !Panics(s, i)
  {
    match i
    case Arrive(id) => Connected(s, id)
    case Leave(id) => Disconnected(s, id)
    case Frame(id, f, d) => if id in s.connections then Process(s, id, f, d) else s
    case Tick(now) => Expire(s, now)
  }

  /** The state after a run, or nothing once the broker has panicked. */
  ghost function Run(inputs: seq<Input>): Option<State> {
    if inputs == [] then Some(INITIAL)
    else
      var i := inputs[|inputs| - 1];
      match Run(inputs[..|inputs| - 1])
      case None => None
      case Some(s) => if Panics(s, i) then None else Some(Step(s, i))
  }

  ghost predicate Admissible(inputs: seq<Input>) {
    inputs == [] ||
    (Admissible(inputs[..|inputs| - 1]) &&
     match Run(inputs[..|inputs| - 1]) {
       case None => true
       case Some(s) => Allowed(s, inputs[|inputs| - 1])
     })
  }

  lemma StepKeepsBooks(s: State, i: Input)
    requires Books(s) && Allowed(s, i)
    ensures !Panics(s, i) && Books(Step(s, i))
  {
    hide Connected, Disconnected, Process, Expire, CountersExact, PartiesConnected, FreshDraw;
    match i {
      case Arrive(id) => ConnectedKeeps(s, id);
      case Leave(id) => DisconnectedKeeps(s, id);
      case Frame(id, f, d) =>
        if id in s.connections { ProcessKeeps(s, id, f, d); }
      case Tick(now) => ExpireKeeps(s, now);
    }
  }

  /** Whatever arrives in whatever order, the broker never fails an index and its counters agree with its maps. */
  lemma {:induction false} NeverPanics(inputs: seq<Input>)
    requires Admissible(inputs)
    ensures Run(inputs).Some? && Books(Run(inputs).value)
  {
    hide Books, Step, Panics, Allowed;
    if inputs == [] {
      EmptyBooks();
    } else {
      var before := inputs[..|inputs| - 1];
      NeverPanics(before);
      StepKeepsBooks(Run(before).value, inputs[|inputs| - 1]);
    }
  }

  /** One more input at the end of a run. */
  lemma RunThen(inputs: seq<Input>, i: Input, s: State)
    requires Admissible(inputs) && Run(inputs) == Some(s) && Allowed(s, i) && !Panics(s, i)
    ensures Admissible(inputs + [i]) && Run(inputs + [i]) == Some(Step(s, i))
  {
    hide Allowed, Panics, Step;
    assert (inputs + [i])[..|inputs + [i]| - 1] == inputs;
  }

  lemma EmptyBooks()
    ensures Books(INITIAL)
  {
  }

  // ---------------------------------------------------------------- membership

  predicate Announced(s: State) { forall c :: c in s.connections ==> Joined(c) in s.log }

  lemma FinishMembers(s: State, p: Uuid, notice: Notice)
    requires p in s.bridges
    ensures var s' := Finish(s, p, notice); s'.connections.Keys == s.connections.Keys && s.log <= s'.log
  {
    hide Degree, Restrict;
  }

  lemma ResolveMembers(s: State, id: Uuid, requestId: Uuid, displayCode: string, now: int)
    requires id in s.connections
    ensures var s' := Resolve(s, id, requestId, displayCode, now);
            s'.connections.Keys == s.connections.Keys && s.log <= s'.log
  {
    hide Recent, NormalizeCode, Resolves;
  }

  lemma BeginMembers(s: State, id: Uuid, f: ClientFrame, d: Draw)
    requires id in s.connections && f.BeginPairing? && OwnerIndexable(s, f.slotHandle)
    ensures var s' := Begin(s, id, f, d); s'.connections.Keys == s.connections.Keys && s.log <= s'.log
  {
    var h := Sha256(f.slotHandle);
    if h in s.slots {
      OpenMembers(s, id, f, d);
      hide Open;
    }
  }

  lemma OpenMembers(s: State, id: Uuid, f: ClientFrame, d: Draw)
    requires id in s.connections && f.BeginPairing? && Sha256(f.slotHandle) in s.slots
    requires s.slots[Sha256(f.slotHandle)].owner in s.connections
    ensures var s' := Open(s, id, f, d); s'.connections.Keys == s.connections.Keys && s.log <= s'.log
  {
  }

  lemma CreateMembers(s: State, id: Uuid, requestId: Uuid, publicKey: Bytes, ttl: nat, d: Draw)
    requires id in s.connections
    ensures var s' := CreateSlot(s, id, requestId, publicKey, ttl, d);
            s'.connections.Keys == s.connections.Keys && s.log <= s'.log
  {
    hide FormatCode;
  }

  lemma CancelMembers(s: State, id: Uuid, handle: string, capability: string)
    ensures var s' := CancelSlot(s, id, handle, capability);
            s'.connections.Keys == s.connections.Keys && s.log <= s'.log
  {
  }

  lemma AcceptMembers(s: State, id: Uuid, p: Uuid, token: string, response: Bytes)
    ensures var s' := Accept(s, id, p, token, response); s'.connections.Keys == s.connections.Keys && s.log <= s'.log
  {
  }

  lemma ProcessMembers(s: State, id: Uuid, f: ClientFrame, d: Draw)
    requires id in s.connections && (f.BeginPairing? ==> OwnerIndexable(s, f.slotHandle))
    ensures var s' := Process(s, id, f, d); s'.connections.Keys == s.connections.Keys && s.log <= s'.log
  {
    hide Finish, Resolve, Begin, CreateSlot, CancelSlot, Accept, OwnerIndexable;
    match f {
      case BeginPairing(_, _, _, _, _) => BeginMembers(s, id, f, d);
      case ResolvePairingCode(req, code) => ResolveMembers(s, id, req, code, d.now);
      case RejectPairing(p, token) => if p in s.bridges { FinishMembers(s, p, Rejected); }
      case PairingCommitted(p, token) => if p in s.bridges { FinishMembers(s, p, Finalized); }
      case FinalizePairing(p, token) => if p in s.bridges { FinishMembers(s, p, Finalized); }
      case CancelPairing(p, token) => if p in s.bridges { FinishMembers(s, p, Cancelled); }
      case CreatePairingSlot(req, key, ttl) => CreateMembers(s, id, req, key, ttl, d);
      case CancelPairingSlot(handle, capability) => CancelMembers(s, id, handle, capability);
      case AcceptPairing(p, token, response) => AcceptMembers(s, id, p, token, response);
      case Ping =>
    }
  }

  lemma LeaveMembers(s: State, id: Uuid)
    ensures var s' := Disconnected(s, id); s'.connections.Keys == s.connections.Keys - {id} && s.log <= s'.log
  {
    hide Degree, Restrict;
  }

  lemma TickMembers(s: State, now: int)
    ensures var s' := Expire(s, now); s'.connections.Keys == s.connections.Keys && s.log <= s'.log
  {
    hide Degree, Restrict;
  }

  /** Connections appear only by arriving, and every arrival is on record. */
  lemma StepMembers(s: State, i: Input)
    requires Announced(s) && Allowed(s, i) && !Panics(s, i)
    ensures var s' := Step(s, i);
            && Announced(s') && s.log <= s'.log
            && forall c :: c in s'.connections && Joined(c) in s.log ==> c in s.connections
  {
    hide Process, Disconnected, Expire, FreshDraw, OwnerIndexable;
    match i {
      case Arrive(id) =>
        if |s.connections| < MAX_CONNECTIONS {
          var s' := Connected(s, id);
          assert s'.log[|s'.log| - 1] == Joined(id);
          assert forall c :: c in s'.connections ==> c == id || c in s.connections;
        }
      case Leave(id) => LeaveMembers(s, id); GrownLog(s, Step(s, i));
      case Tick(now) => TickMembers(s, now); GrownLog(s, Step(s, i));
      case Frame(id, f, d) =>
        if id in s.connections { ProcessMembers(s, id, f, d); GrownLog(s, Step(s, i)); }
    }
  }

  lemma GrownLog(s: State, s': State)
    requires Announced(s) && s'.connections.Keys <= s.connections.Keys && s.log <= s'.log
    ensures Announced(s')
  {
  }

  lemma {:induction false} AlwaysAnnounced(inputs: seq<Input>)
    requires Admissible(inputs)
    ensures Run(inputs).Some? && Announced(Run(inputs).value)
  {
    NeverPanics(inputs);
    hide Announced, Books, Step, Panics, Allowed;
    if inputs == [] {
      NobodyAnnounced();
    } else {
      var before := inputs[..|inputs| - 1];
      AlwaysAnnounced(before);
      StepMembers(Run(before).value, inputs[|inputs| - 1]);
    }
  }

  lemma NobodyAnnounced()
    ensures Announced(INITIAL)
  {
  }

  // ---------------------------------------------------------------- consequences

  /** After every run each saturating subtraction, on pairing and on slot counters, is an exact one. */
  lemma NothingSaturates(inputs: seq<Input>, ps: set<Uuid>, c: Uuid)
    requires Admissible(inputs) && Run(inputs).Some? && c in Run(inputs).value.connections
    ensures var s := Run(inputs).value;
            && Degree(Restrict(s.bridges, ps), c) <= s.connections[c].pairings
            && forall h :: h in s.slots && s.slots[h].owner == c ==> s.connections[c].slots >= 1
  {
    NeverPanics(inputs);
    hide Run, Admissible;
    var s := Run(inputs).value;
    RemoveBridgesCounts(s, ps, c);
    forall h | h in s.slots && s.slots[h].owner == c ensures s.connections[c].slots >= 1 { LiveSlotCounted(s, h); }
  }
}
