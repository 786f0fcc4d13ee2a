/** What clients can observe of one pairing id, as an automaton over the log, against the bridge table. */
module BrokerRouting {
  import opened Foundation
  import opened PairingCode
  import opened Broker
  import opened BrokerLedger
  import opened BrokerRuns

  /** `Ending` is the moment between telling the owner and telling the joiner. */
  datatype Phase = Closed | Live(owner: Uuid, joiner: Uuid) | Ending(joiner: Uuid, notice: Notice) | Broken

  function Deliver(phase: Phase, p: Uuid, to: Uuid, f: ServerFrame): Phase {
    match f
    case PairingRequested(q, _, _, _, _, _) =>
      if q != p || (phase.Live? && to == phase.owner) then phase else Broken
    case PairingStarted(_, q, _, _) =>
      if q != p || (phase.Live? && to == phase.joiner) then phase else Broken
    case PairingAccepted(q, _) =>
      if q != p || (phase.Live? && to == phase.joiner) then phase else Broken
    case PairingEnded(q, notice) =>
      if q != p then phase
      else if phase.Live? && to == phase.owner then Ending(phase.joiner, notice)
      else if phase.Ending? && to == phase.joiner && notice == phase.notice then Closed
      else Broken
    case Pong => phase
    case PairingSlotCreated(_, _, _, _, _) => phase
    case PairingSlotResolved(_, _, _, _) => phase
    case Error(_, _) => phase
  }

  function Observe(phase: Phase, p: Uuid, e: Entry): Phase {
    match e
    case Opened(q, _, owner, joiner) => if q != p then phase else if phase.Closed? then Live(owner, joiner) else Broken
    case Dropped(ps) => if p !in ps then phase else if phase.Live? then Closed else Broken
    case Sent(to, f) => Deliver(phase, p, to, f)
    case Joined(_) => phase
    case Issued(_, _) => phase
    case Attempted(_, _) => phase
  }

  function Observed(log: seq<Entry>, p: Uuid): Phase {
    if log == [] then Closed else Observe(Observed(log[..|log| - 1], p), p, log[|log| - 1])
  }

  function Shown(bridges: map<Uuid, Bridge>, p: Uuid): Phase {
    if p in bridges then Live(bridges[p].owner, bridges[p].joiner) else Closed
  }

  ghost predicate Routed(s: State) { forall p :: Observed(s.log, p) == Shown(s.bridges, p) }

  lemma ObservedNext(log: seq<Entry>, e: Entry, p: Uuid)
    ensures Observed(log + [e], p) == Observe(Observed(log, p), p, e)
  {
    assert (log + [e])[..|log + [e]| - 1] == log;
  }

  // ---------------------------------------------------------------- quiet steps

  predicate Quiet(e: Entry) {
    match e
    case Sent(_, f) => f.Pong? || f.PairingSlotCreated? || f.PairingSlotResolved? || f.Error?
    case Joined(_) => true
    case Issued(_, _) => true
    case Attempted(_, _) => true
    case Opened(_, _, _, _) => false
    case Dropped(_) => false
  }

  predicate Calm(s: State, s': State) {
    && s'.bridges == s.bridges
    && s.log <= s'.log && forall k :: |s.log| <= k < |s'.log| ==> Quiet(s'.log[k])
  }

  lemma {:induction false} QuietEntries(log: seq<Entry>, log': seq<Entry>, p: Uuid)
    requires log <= log' && forall k :: |log| <= k < |log'| ==> Quiet(log'[k])
    ensures Observed(log', p) == Observed(log, p)
    decreases |log'|
  {
    if |log'| == |log| {
      assert log' == log;
    } else {
      assert Quiet(log'[|log'| - 1]);
      QuietEntries(log, log'[..|log'| - 1], p);
    }
  }

  lemma CalmKeeps(s: State, s': State)
    requires Routed(s) && Calm(s, s')
    ensures Routed(s')
  {
    hide Observed, Shown;
    forall p ensures Observed(s'.log, p) == Shown(s'.bridges, p) { QuietEntries(s.log, s'.log, p); }
  }

  // ---------------------------------------------------------------- loud steps

  lemma DropKeeps(s: State, s': State, ps: set<Uuid>)
    requires Routed(s) && ps <= s.bridges.Keys
    requires s'.bridges == s.bridges - ps && s'.log == s.log + [Dropped(ps)]
    ensures Routed(s')
  {
    hide Observed;
    forall p ensures Observed(s'.log, p) == Shown(s'.bridges, p) { ObservedNext(s.log, Dropped(ps), p); }
  }

  lemma OpenRoutes(s: State, s': State, p: Uuid, b: Bridge, asked: ServerFrame, started: ServerFrame)
    requires Routed(s) && p !in s.bridges && s'.bridges == s.bridges[p := b]
    requires asked.PairingRequested? && asked.pairingId == p && started.PairingStarted? && started.pairingId == p
    requires s'.log ==
             s.log + [Opened(p, b.slotHash, b.owner, b.joiner)] + [Sent(b.owner, asked)] + [Sent(b.joiner, started)]
    ensures Routed(s')
  {
    hide Observed;
    var l1 := s.log + [Opened(p, b.slotHash, b.owner, b.joiner)];
    var l2 := l1 + [Sent(b.owner, asked)];
    forall q ensures Observed(s'.log, q) == Shown(s'.bridges, q) {
      assert Observed(s.log, q) == Shown(s.bridges, q);
      ObservedNext(s.log, Opened(p, b.slotHash, b.owner, b.joiner), q);
      ObservedNext(l1, Sent(b.owner, asked), q);
      ObservedNext(l2, Sent(b.joiner, started), q);
    }
  }

  lemma AcceptRoutes(s: State, s': State, p: Uuid, response: Bytes)
    requires Routed(s) && p in s.bridges && s'.bridges == s.bridges
    requires s'.log == s.log + [Sent(s.bridges[p].joiner, PairingAccepted(p, response))]
    ensures Routed(s')
  {
    hide Observed;
    forall q ensures Observed(s'.log, q) == Shown(s'.bridges, q) {
      assert Observed(s.log, q) == Shown(s.bridges, q);
      ObservedNext(s.log, Sent(s.bridges[p].joiner, PairingAccepted(p, response)), q);
    }
  }

  lemma EndRoutes(s: State, s': State, p: Uuid, notice: Notice)
    requires Routed(s) && p in s.bridges && s'.bridges == s.bridges - {p}
    requires s'.log == s.log + [Sent(s.bridges[p].owner, PairingEnded(p, notice))]
                             + [Sent(s.bridges[p].joiner, PairingEnded(p, notice))]
    ensures Routed(s')
  {
    hide Observed;
    var b := s.bridges[p];
    forall q ensures Observed(s'.log, q) == Shown(s'.bridges, q) {
      assert Observed(s.log, q) == Shown(s.bridges, q);
      ObservedNext(s.log, Sent(b.owner, PairingEnded(p, notice)), q);
      ObservedNext(s.log + [Sent(b.owner, PairingEnded(p, notice))], Sent(b.joiner, PairingEnded(p, notice)), q);
    }
  }

  // ---------------------------------------------------------------- every input

  lemma OpenShape(s: State, id: Uuid, f: ClientFrame, d: Draw)
    requires id in s.connections && f.BeginPairing? && Sha256(f.slotHandle) in s.slots
    requires s.slots[Sha256(f.slotHandle)].owner in s.connections
    ensures var h := Sha256(f.slotHandle);
            var owner := s.slots[h].owner;
            var s' := Open(s, id, f, d);
            && s'.bridges == s.bridges[f.pairingId :=
                 Bridge(owner, id, Sha256(d.ownerToken), Sha256(d.joinerToken), h, d.now + BRIDGE_TTL)]
            && s'.log == s.log + [Opened(f.pairingId, h, owner, id)]
                 + [Sent(owner, PairingRequested(f.pairingId, s.slots[h].handle, d.ownerToken, f.publicKey, f.offer,
                                                 d.now + BRIDGE_TTL))]
                 + [Sent(id, PairingStarted(f.requestId, f.pairingId, d.joinerToken, d.now + BRIDGE_TTL))]
  {
  }

  lemma BeginRoutes(s: State, id: Uuid, f: ClientFrame, d: Draw)
    requires Routed(s) && id in s.connections && f.BeginPairing? && OwnerIndexable(s, f.slotHandle)
    ensures Routed(Begin(s, id, f, d))
  {
    hide Routed, Open;
    var h := Sha256(f.slotHandle);
    if |f.offer| > MAX_PAIRING_BLOB_BYTES || h !in s.slots || s.slots[h].expiresAt <= d.now || s.slots[h].owner == id
       || f.pairingId in s.bridges || s.connections[id].pairings >= MAX_PAIRINGS_PER_CONNECTION
       || s.connections[s.slots[h].owner].pairings >= MAX_PAIRINGS_PER_CONNECTION
    {
      CalmKeeps(s, Begin(s, id, f, d));
    } else {
      OpenShape(s, id, f, d);
      var owner := s.slots[h].owner;
      OpenRoutes(s, Open(s, id, f, d), f.pairingId,
                 Bridge(owner, id, Sha256(d.ownerToken), Sha256(d.joinerToken), h, d.now + BRIDGE_TTL),
                 PairingRequested(f.pairingId, s.slots[h].handle, d.ownerToken, f.publicKey, f.offer,
                                  d.now + BRIDGE_TTL),
                 PairingStarted(f.requestId, f.pairingId, d.joinerToken, d.now + BRIDGE_TTL));
    }
  }

  lemma FinishRoutes(s: State, p: Uuid, notice: Notice)
    requires Routed(s) && PartiesConnected(s.connections.Keys, s.bridges) && p in s.bridges
    ensures Routed(Finish(s, p, notice))
  {
    hide Routed, Degree, Restrict;
    var b := s.bridges[p];
    assert Bridges(b, s.connections.Keys);
    assert (s.log + [Sent(b.owner, PairingEnded(p, notice))]) + [Sent(b.joiner, PairingEnded(p, notice))]
        == Finish(s, p, notice).log by {
      assert b.owner in RemoveBridges(s, {p}).connections && b.joiner in RemoveBridges(s, {p}).connections;
    }
    EndRoutes(s, Finish(s, p, notice), p, notice);
  }

  lemma ResolveCalm(s: State, id: Uuid, requestId: Uuid, displayCode: string, now: int)
    requires id in s.connections
    ensures Calm(s, Resolve(s, id, requestId, displayCode, now))
  {
    hide Recent, NormalizeCode, Resolves;
  }

  lemma AcceptKeepsRoutes(s: State, id: Uuid, p: Uuid, token: string, response: Bytes)
    requires Routed(s) && PartiesConnected(s.connections.Keys, s.bridges)
    ensures Routed(Accept(s, id, p, token, response))
  {
    hide Routed;
    var s' := Accept(s, id, p, token, response);
    if p in s.bridges && s.bridges[p].owner == id && s.bridges[p].ownerToken == Sha256(token)
       && |response| <= MAX_PAIRING_BLOB_BYTES
    {
      assert Bridges(s.bridges[p], s.connections.Keys);
      AcceptRoutes(s, s', p, response);
    } else {
      CalmKeeps(s, s');
    }
  }

  lemma ProcessRoutes(s: State, id: Uuid, f: ClientFrame, d: Draw)
    requires Routed(s) && PartiesConnected(s.connections.Keys, s.bridges) && id in s.connections
    requires f.BeginPairing? ==> OwnerIndexable(s, f.slotHandle)
    ensures Routed(Process(s, id, f, d))
  {
    hide Routed, PartiesConnected, OwnerIndexable, Finish, Resolve, Begin, Accept, FormatCode;
    match f {
      case BeginPairing(_, _, _, _, _) => BeginRoutes(s, id, f, d);
      case ResolvePairingCode(req, code) =>
        ResolveCalm(s, id, req, code, d.now);
        CalmKeeps(s, Resolve(s, id, req, code, d.now));
      case RejectPairing(p, token) => if p in s.bridges { FinishRoutes(s, p, Rejected); }
      case PairingCommitted(p, token) => if p in s.bridges { FinishRoutes(s, p, Finalized); }
      case FinalizePairing(p, token) => if p in s.bridges { FinishRoutes(s, p, Finalized); }
      case CancelPairing(p, token) => if p in s.bridges { FinishRoutes(s, p, Cancelled); }
      case AcceptPairing(p, token, response) => AcceptKeepsRoutes(s, id, p, token, response);
      case CreatePairingSlot(_, _, _) => CalmKeeps(s, Process(s, id, f, d));
      case CancelPairingSlot(_, _) => CalmKeeps(s, Process(s, id, f, d));
      case Ping => CalmKeeps(s, Process(s, id, f, d));
    }
  }

  lemma LeaveDrops(s: State, id: Uuid)
    ensures var s' := Disconnected(s, id);
            s'.bridges == s.bridges - Touching(s.bridges, id) && s'.log == s.log + [Dropped(Touching(s.bridges, id))]
  {
    hide Discharge, Restrict, Touching;
  }

  lemma TickDrops(s: State, now: int)
    ensures var s' := Expire(s, now);
            var gone := set p | p in s.bridges && s.bridges[p].expiresAt <= now;
            s'.bridges == s.bridges - gone && s'.log == s.log + [Dropped(gone)]
  {
    hide Discharge, Restrict;
  }

  lemma StepRoutes(s: State, i: Input)
    requires Routed(s) && Books(s) && !Panics(s, i)
    ensures Routed(Step(s, i))
  {
    hide Routed, PartiesConnected, CountersExact, OwnersConnected, OwnerIndexable, Process, Disconnected, Expire;
    match i {
      case Arrive(id) => CalmKeeps(s, Connected(s, id));
      case Leave(id) => LeaveDrops(s, id); DropKeeps(s, Disconnected(s, id), Touching(s.bridges, id));
      case Tick(now) =>
        TickDrops(s, now);
        DropKeeps(s, Expire(s, now), set p | p in s.bridges && s.bridges[p].expiresAt <= now);
      case Frame(id, f, d) => if id in s.connections { ProcessRoutes(s, id, f, d); }
    }
  }

  /**
   After any run the clients' view of every pairing id is the automaton's: requested frames reach only the owner,
   started and accepted frames only the joiner, one terminal notice reaches the owner and then the joiner, and
   nothing is sent for a pairing that is not in the table.
   */
  lemma {:induction false} EveryPairingIsRouted(inputs: seq<Input>)
    requires Admissible(inputs)
    ensures Run(inputs).Some? && Routed(Run(inputs).value)
  {
    NeverPanics(inputs);
    hide Routed, Books, Step, Panics, Allowed;
    if inputs == [] {
      NothingRouted();
    } else {
      var before := inputs[..|inputs| - 1];
      EveryPairingIsRouted(before);
      NeverPanics(before);
      StepKeepsBooks(Run(before).value, inputs[|inputs| - 1]);
      StepRoutes(Run(before).value, inputs[|inputs| - 1]);
    }
  }

  lemma NothingRouted()
    ensures Routed(INITIAL)
  {
  }

  // ---------------------------------------------------------------- reading the automaton

  lemma {:induction false} BrokenStays(log: seq<Entry>, k: nat, p: Uuid)
    requires k <= |log| && Observed(log[..k], p) == Broken
    ensures Observed(log, p) == Broken
    decreases |log|
  {
    if k == |log| {
      assert log[..k] == log;
    } else {
      assert log[..|log| - 1][..k] == log[..k];
      BrokenStays(log[..|log| - 1], k, p);
    }
  }

  lemma ObservedAt(log: seq<Entry>, k: nat, p: Uuid)
    requires k < |log|
    ensures Observed(log[..k + 1], p) == Observe(Observed(log[..k], p), p, log[k])
  {
    assert log[..k + 1] == log[..k] + [log[k]];
    ObservedNext(log[..k], log[k], p);
  }

  /** At no moment of any run has the view of a pairing been broken. */
  lemma NeverBroken(inputs: seq<Input>, k: nat, p: Uuid)
    requires Admissible(inputs) && Run(inputs).Some? && k <= |Run(inputs).value.log|
    ensures Observed(Run(inputs).value.log[..k], p) != Broken
  {
    EveryPairingIsRouted(inputs);
    hide Run, Admissible, Observed;
    var log := Run(inputs).value.log;
    assert Observed(log, p) == Shown(Run(inputs).value.bridges, p);
    if Observed(log[..k], p) == Broken { BrokenStays(log, k, p); }
  }

  /** The pairing a forwarded, non-terminal frame belongs to. */
  function Concerns(f: ServerFrame): Option<Uuid> {
    match f
    case PairingRequested(p, _, _, _, _, _) => Some(p)
    case PairingStarted(_, p, _, _) => Some(p)
    case PairingAccepted(p, _) => Some(p)
    case PairingEnded(_, _) => None
    case Pong => None
    case PairingSlotCreated(_, _, _, _, _) => None
    case PairingSlotResolved(_, _, _, _) => None
    case Error(_, _) => None
  }

  /** A forwarded frame goes to the right party of the bridge that is open at that moment of the log. */
  lemma ForwardedOnlyToParties(inputs: seq<Input>, k: nat, p: Uuid)
    requires Admissible(inputs) && Run(inputs).Some? && k < |Run(inputs).value.log|
    requires Run(inputs).value.log[k].Sent? && Concerns(Run(inputs).value.log[k].frame) == Some(p)
    ensures var log := Run(inputs).value.log;
            var phase := Observed(log[..k], p);
            phase.Live? && log[k].to == if log[k].frame.PairingRequested? then phase.owner else phase.joiner
  {
    hide Run, Admissible, Observed;
    ObservedAt(Run(inputs).value.log, k, p);
    NeverBroken(inputs, k + 1, p);
  }

  /** A terminal notice is always the first since the bridge opened, or the joiner's copy of it. */
  lemma OneTerminalNotice(inputs: seq<Input>, k: nat, p: Uuid, notice: Notice)
    requires Admissible(inputs) && Run(inputs).Some? && k < |Run(inputs).value.log|
    requires Run(inputs).value.log[k].Sent? && Run(inputs).value.log[k].frame == PairingEnded(p, notice)
    ensures var log := Run(inputs).value.log;
            match Observed(log[..k], p)
            case Live(owner, joiner) => log[k].to == owner && Observed(log[..k + 1], p) == Ending(joiner, notice)
            case Ending(joiner, first) => log[k].to == joiner && first == notice && Observed(log[..k + 1], p) == Closed
            case Closed => false
            case Broken => false
  {
    hide Run, Admissible, Observed;
    ObservedAt(Run(inputs).value.log, k, p);
    NeverBroken(inputs, k + 1, p);
  }

  // ---------------------------------------------------------------- who may end a pairing

  /** The frame ends this pairing with the token of a side that may do so. */
  predicate EndsPairing(s: State, id: Uuid, f: ClientFrame, p: Uuid) {
    match f
    case RejectPairing(q, token) => q == p && AuthorizedEither(s.bridges, p, id, token)
    case CancelPairing(q, token) => q == p && AuthorizedEither(s.bridges, p, id, token)
    case PairingCommitted(q, token) => q == p && Authorized(s.bridges, p, id, token, false)
    case FinalizePairing(q, token) => q == p && Authorized(s.bridges, p, id, token, true)
    case Ping => false
    case CreatePairingSlot(_, _, _) => false
    case ResolvePairingCode(_, _) => false
    case BeginPairing(_, _, _, _, _) => false
    case AcceptPairing(_, _, _) => false
    case CancelPairingSlot(_, _) => false
  }

  lemma FinishRemoves(s: State, q: Uuid, notice: Notice)
    requires q in s.bridges
    ensures Finish(s, q, notice).bridges == s.bridges - {q}
  {
    hide Discharge, Restrict;
  }

  lemma BeginAdds(s: State, id: Uuid, f: ClientFrame, d: Draw)
    requires id in s.connections && f.BeginPairing? && OwnerIndexable(s, f.slotHandle)
    ensures s.bridges.Keys <= Begin(s, id, f, d).bridges.Keys
  {
    hide Open;
    if Sha256(f.slotHandle) in s.slots { OpenShape(s, id, f, d); }
  }

  /** A frame takes a bridge out of the table if and only if it ends that pairing with a valid token of its sender. */
  lemma EndingNeedsToken(s: State, id: Uuid, f: ClientFrame, d: Draw, p: Uuid)
    requires id in s.connections && p in s.bridges && (f.BeginPairing? ==> OwnerIndexable(s, f.slotHandle))
    ensures p !in Process(s, id, f, d).bridges <==> EndsPairing(s, id, f, p)
  {
    hide Finish, Begin, Resolve, CreateSlot, CancelSlot, Accept, OwnerIndexable;
    match f {
      case RejectPairing(q, token) => if q in s.bridges { FinishRemoves(s, q, Rejected); }
      case CancelPairing(q, token) => if q in s.bridges { FinishRemoves(s, q, Cancelled); }
      case PairingCommitted(q, token) => if q in s.bridges { FinishRemoves(s, q, Finalized); }
      case FinalizePairing(q, token) => if q in s.bridges { FinishRemoves(s, q, Finalized); }
      case BeginPairing(_, _, _, _, _) => BeginAdds(s, id, f, d);
      case ResolvePairingCode(req, code) => ResolveCalm(s, id, req, code, d.now);
      case CreatePairingSlot(req, key, ttl) => CreateCalm(s, id, req, key, ttl, d);
      case CancelPairingSlot(handle, capability) => CancelCalm(s, id, handle, capability);
      case AcceptPairing(q, token, response) => AcceptCalm(s, id, q, token, response);
      case Ping =>
    }
  }

  lemma CreateCalm(s: State, id: Uuid, requestId: Uuid, publicKey: Bytes, ttl: nat, d: Draw)
    requires id in s.connections
    ensures CreateSlot(s, id, requestId, publicKey, ttl, d).bridges == s.bridges
  {
  }

  lemma CancelCalm(s: State, id: Uuid, handle: string, capability: string)
    ensures CancelSlot(s, id, handle, capability).bridges == s.bridges
  {
  }

  lemma AcceptCalm(s: State, id: Uuid, p: Uuid, token: string, response: Bytes)
    ensures Accept(s, id, p, token, response).bridges == s.bridges
  {
  }

  /** Each side of a new bridge is sent the token that authorizes it, and only in its own role. */
  lemma TokensMatchTheirSides(s: State, id: Uuid, f: ClientFrame, d: Draw, k: nat)
    requires id in s.connections && f.BeginPairing? && Sha256(f.slotHandle) in s.slots
    requires s.slots[Sha256(f.slotHandle)].owner in s.connections && s.slots[Sha256(f.slotHandle)].owner != id
    requires |s.log| <= k < |Open(s, id, f, d).log| && Open(s, id, f, d).log[k].Sent?
    ensures var s' := Open(s, id, f, d);
            var e := s'.log[k];
            match e.frame
            case PairingRequested(p, handle, token, _, offer, _) =>
              && p == f.pairingId && handle == s.slots[Sha256(f.slotHandle)].handle && offer == f.offer
              && Authorized(s'.bridges, p, e.to, token, true) && !Authorized(s'.bridges, p, e.to, token, false)
            case PairingStarted(r, p, token, _) =>
              && r == f.requestId && p == f.pairingId
              && Authorized(s'.bridges, p, e.to, token, false) && !Authorized(s'.bridges, p, e.to, token, true)
            case _ => false
  {
    OpenShape(s, id, f, d);
    hide Open;
  }
}
