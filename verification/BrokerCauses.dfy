/**
 Why the broker does what it does: every frame it sends answers the input of that moment, every request is answered
 once, and the tables change only for the reasons listed here.
 */
module BrokerCauses {
  import opened Foundation
  import opened PairingCode
  import opened Broker
  import opened BrokerLedger
  import opened BrokerRuns
  import opened BrokerRouting

  // ---------------------------------------------------------------- what a frame may answer

  /** The notice both sides get when a frame ends their pairing. */
  function NoticeFor(f: ClientFrame): Option<Notice> {
    match f
    case RejectPairing(_, _) => Some(Rejected)
    case PairingCommitted(_, _) => Some(Finalized)
    case FinalizePairing(_, _) => Some(Finalized)
    case CancelPairing(_, _) => Some(Cancelled)
    case _ => None
  }

  /** The request a client frame makes; such a frame is owed an answer. */
  function RequestOf(f: ClientFrame): Option<Uuid> {
    match f
    case CreatePairingSlot(r, _, _) => Some(r)
    case ResolvePairingCode(r, _) => Some(r)
    case BeginPairing(r, _, _, _, _) => Some(r)
    case _ => None
  }

  function AnswerOf(f: ServerFrame): Option<Uuid> {
    match f
    case PairingSlotCreated(r, _, _, _, _) => Some(r)
    case PairingSlotResolved(r, _, _, _) => Some(r)
    case PairingStarted(r, _, _, _) => Some(r)
    case Error(r, _) => Some(r)
    case _ => None
  }

  predicate SlotFull(s: State, id: Uuid) {
    id in s.connections && (s.connections[id].slots >= MAX_SLOTS_PER_CONNECTION || |s.slots| >= MAX_SLOTS)
  }

  predicate Busy(s: State, id: Uuid) {
    id in s.connections && s.connections[id].pairings >= MAX_PAIRINGS_PER_CONNECTION
  }

  /** The slot a handle names can be joined by this connection now. */
  predicate Joinable(s: State, id: Uuid, handle: string, now: int) {
    var h := Sha256(handle);
    h in s.slots && now < s.slots[h].expiresAt && s.slots[h].owner != id
  }

  /** The refusal is true: what it says stands in the way of the request. */
  ghost predicate TrueRefusal(s: State, id: Uuid, f: ClientFrame, now: int, code: string) {
    match f
    case CreatePairingSlot(_, _, _) => code == "capacity" && SlotFull(s, id)
    case ResolvePairingCode(_, display) =>
      || (code == "rate_limited" && id in s.connections
          && |Recent(s.connections[id].attempts, now)| >= MAX_CODE_ATTEMPTS)
      || (code == "invalid_code"
          && forall c, h :: NormalizeCode(display) == Some(c) ==> !Resolves(s, c, now, h))
    case BeginPairing(_, p, handle, _, offer) =>
      || (code == "blob_too_large" && |offer| > MAX_PAIRING_BLOB_BYTES)
      || (code == "invalid_slot" && !Joinable(s, id, handle, now))
      || (code == "duplicate_pairing" && p in s.bridges)
      || (code == "capacity" && Sha256(handle) in s.slots && (Busy(s, id) || Busy(s, s.slots[Sha256(handle)].owner)))
    case _ => false
  }

  /** The frame, sent to this client, is what the input of this moment calls for. */
  ghost predicate Warranted(s: State, i: Input, to: Uuid, f: ServerFrame) {
    && i.Frame? && i.id in s.connections
    && var d := i.draw;
       match f
       case Pong => i.frame.Ping? && to == i.id
       case PairingSlotCreated(r, handle, code, capability, expiresAt) =>
         && i.frame.CreatePairingSlot? && to == i.id && r == i.frame.requestId && !SlotFull(s, i.id)
         && handle == d.handle && capability == d.capability
         && d.now + 10 <= expiresAt <= d.now + SLOT_TTL
         && (i.frame.ttl < 10 ==> expiresAt == d.now + 10)
         && (i.frame.ttl > SLOT_TTL ==> expiresAt == d.now + SLOT_TTL)
         && (10 <= i.frame.ttl <= SLOT_TTL ==> expiresAt == d.now + i.frame.ttl)
         && (exists k :: 0 <= k < |d.codes| && code == FormatCode(d.codes[k]) && !CodeTaken(s.slots, d.codes[k]))
       case PairingSlotResolved(r, handle, key, expiresAt) =>
         && i.frame.ResolvePairingCode? && to == i.id && r == i.frame.requestId && d.now < expiresAt
         && (exists h, c :: NormalizeCode(i.frame.displayCode) == Some(c) && Resolves(s, c, d.now, h)
               && s.slots[h].handle == handle && s.slots[h].publicKey == key && s.slots[h].expiresAt == expiresAt)
       case PairingRequested(p, handle, token, key, offer, expiresAt) =>
         && i.frame.BeginPairing? && p == i.frame.pairingId && key == i.frame.publicKey && offer == i.frame.offer
         && Joinable(s, i.id, i.frame.slotHandle, d.now)
         && to == s.slots[Sha256(i.frame.slotHandle)].owner && handle == s.slots[Sha256(i.frame.slotHandle)].handle
         && token == d.ownerToken && expiresAt == d.now + BRIDGE_TTL
       case PairingStarted(r, p, token, expiresAt) =>
         && i.frame.BeginPairing? && to == i.id && r == i.frame.requestId && p == i.frame.pairingId
         && token == d.joinerToken && expiresAt == d.now + BRIDGE_TTL
       case PairingAccepted(p, response) =>
         && i.frame.AcceptPairing? && p == i.frame.pairingId && response == i.frame.response
         && |response| <= MAX_PAIRING_BLOB_BYTES
         && Authorized(s.bridges, p, i.id, i.frame.sideToken, true) && to == s.bridges[p].joiner
       case PairingEnded(p, notice) =>
         && EndsPairing(s, i.id, i.frame, p) && NoticeFor(i.frame) == Some(notice)
         && p in s.bridges && Touches(s.bridges[p], to)
       case Error(r, code) =>
         to == i.id && RequestOf(i.frame) == Some(r) && TrueRefusal(s, i.id, i.frame, d.now, code)
  }

  /** Everything sent between the two states is warranted by the input. */
  ghost predicate OnlyWarranted(s: State, i: Input, s': State) {
    && s.log <= s'.log
    && forall k :: |s.log| <= k < |s'.log| && s'.log[k].Sent? ==> Warranted(s, i, s'.log[k].to, s'.log[k].frame)
  }

  // ---------------------------------------------------------------- every frame that is processed

  lemma CreateWarranted(s: State, i: Input)
    requires i.Frame? && i.frame.CreatePairingSlot? && i.id in s.connections && FreshDraw(s, i.draw)
    ensures OnlyWarranted(s, i, CreateSlot(s, i.id, i.frame.requestId, i.frame.publicKey, i.frame.ttl, i.draw))
  {
    var d := i.draw;
    var code := FirstFree(s.slots, d.codes);
    FirstFreeIsFree(s.slots, d.codes);
    var k :| 0 <= k < |d.codes| && d.codes[k] == code;
    hide FormatCode, FirstFree, CodeTaken, IsCode, Issues;
    assert FormatCode(code) == FormatCode(d.codes[k]) && !CodeTaken(s.slots, d.codes[k]);
  }

  lemma LookupWarranted(s: State, t: State, i: Input)
    requires i.Frame? && i.frame.ResolvePairingCode? && i.id in s.connections
    requires t.slots == s.slots && t.connections.Keys == s.connections.Keys
    ensures var t' := Lookup(t, i.id, i.frame.requestId, i.frame.displayCode, i.draw.now);
            && t.log <= t'.log
            && forall k :: |t.log| <= k < |t'.log| ==> t'.log[k].Sent? && Warranted(s, i, t'.log[k].to, t'.log[k].frame)
  {
    hide NormalizeCode, Recent;
    var display, now := i.frame.displayCode, i.draw.now;
    match NormalizeCode(display) {
      case None =>
      case Some(code) =>
        assert forall h :: Resolves(t, code, now, h) <==> Resolves(s, code, now, h);
        if exists h :: Resolves(t, code, now, h) {
          var t' := Lookup(t, i.id, i.frame.requestId, display, now);
          var f := t'.log[|t.log|].frame;
          var h :| Resolves(t, code, now, h)
            && f == PairingSlotResolved(i.frame.requestId, t.slots[h].handle, t.slots[h].publicKey,
                                        t.slots[h].expiresAt);
          assert Resolves(s, code, now, h) && s.slots[h].handle == f.slotHandle && s.slots[h].publicKey == f.ownerKey
            && s.slots[h].expiresAt == f.expiresAt;
        }
    }
  }

  lemma ResolveWarranted(s: State, i: Input)
    requires i.Frame? && i.frame.ResolvePairingCode? && i.id in s.connections
    ensures OnlyWarranted(s, i, Resolve(s, i.id, i.frame.requestId, i.frame.displayCode, i.draw.now))
  {
    hide Recent, NormalizeCode, Lookup, Resolves;
    var c, now := s.connections[i.id], i.draw.now;
    var recent := Recent(c.attempts, now);
    var counted := Note(s.(connections := s.connections[i.id := c.(attempts := recent + [now])]), Attempted(i.id, now));
    LookupWarranted(s, counted, i);
  }

  lemma BeginWarranted(s: State, i: Input)
    requires i.Frame? && i.frame.BeginPairing? && i.id in s.connections && OwnerIndexable(s, i.frame.slotHandle)
    ensures OnlyWarranted(s, i, Begin(s, i.id, i.frame, i.draw))
  {
    hide Open;
    if Sha256(i.frame.slotHandle) in s.slots { OpenShape(s, i.id, i.frame, i.draw); }
  }

  lemma FinishLog(s: State, p: Uuid, notice: Notice)
    requires p in s.bridges
    ensures var s' := Finish(s, p, notice);
            && s.log <= s'.log
            && forall k :: |s.log| <= k < |s'.log| ==>
                 s'.log[k].Sent? && s'.log[k].frame == PairingEnded(p, notice) && Touches(s.bridges[p], s'.log[k].to)
  {
    hide Discharge, Restrict;
  }

  lemma FinishWarranted(s: State, i: Input, p: Uuid, notice: Notice)
    requires i.Frame? && i.id in s.connections && p in s.bridges
    requires EndsPairing(s, i.id, i.frame, p) && NoticeFor(i.frame) == Some(notice)
    ensures OnlyWarranted(s, i, Finish(s, p, notice))
  {
    hide Finish, EndsPairing, NoticeFor;
    FinishLog(s, p, notice);
  }

  lemma ProcessWarranted(s: State, i: Input)
    requires i.Frame? && i.id in s.connections && Allowed(s, i) && !Panics(s, i)
    ensures OnlyWarranted(s, i, Process(s, i.id, i.frame, i.draw))
  {
    hide Finish, Resolve, Begin, CreateSlot, FreshDraw, OwnerIndexable, OnlyWarranted;
    var id := i.id;
    match i.frame {
      case CreatePairingSlot(_, _, _) => CreateWarranted(s, i);
      case ResolvePairingCode(_, _) => ResolveWarranted(s, i);
      case BeginPairing(_, _, _, _, _) => BeginWarranted(s, i);
      case RejectPairing(p, token) =>
        if AuthorizedEither(s.bridges, p, id, token) { FinishWarranted(s, i, p, Rejected); } else { Nothing(s, i); }
      case PairingCommitted(p, token) =>
        if Authorized(s.bridges, p, id, token, false) { FinishWarranted(s, i, p, Finalized); } else { Nothing(s, i); }
      case FinalizePairing(p, token) =>
        if Authorized(s.bridges, p, id, token, true) { FinishWarranted(s, i, p, Finalized); } else { Nothing(s, i); }
      case CancelPairing(p, token) =>
        if AuthorizedEither(s.bridges, p, id, token) { FinishWarranted(s, i, p, Cancelled); } else { Nothing(s, i); }
      case AcceptPairing(_, _, _) => AcceptWarranted(s, i);
      case CancelPairingSlot(handle, capability) => CancelSilent(s, i, handle, capability);
      case Ping => PingWarranted(s, i);
    }
  }

  lemma Nothing(s: State, i: Input)
    ensures OnlyWarranted(s, i, s)
  {
  }

  lemma AcceptWarranted(s: State, i: Input)
    requires i.Frame? && i.frame.AcceptPairing? && i.id in s.connections
    ensures OnlyWarranted(s, i, Accept(s, i.id, i.frame.pairingId, i.frame.sideToken, i.frame.response))
  {
  }

  lemma CancelSilent(s: State, i: Input, handle: string, capability: string)
    requires i.Frame?
    ensures OnlyWarranted(s, i, CancelSlot(s, i.id, handle, capability))
  {
  }

  lemma PingWarranted(s: State, i: Input)
    requires i.Frame? && i.frame.Ping? && i.id in s.connections
    ensures OnlyWarranted(s, i, Send(s, i.id, Pong))
  {
  }

  lemma StepWarranted(s: State, i: Input)
    requires Allowed(s, i) && !Panics(s, i)
    ensures OnlyWarranted(s, i, Step(s, i))
  {
    hide Process, Disconnected, Expire, OnlyWarranted;
    match i {
      case Arrive(id) => ArrivalSilent(s, i);
      case Leave(id) => LeaveDrops(s, id); DropSilent(s, i, Step(s, i));
      case Tick(now) => TickDrops(s, now); DropSilent(s, i, Step(s, i));
      case Frame(id, _, _) => if id in s.connections { ProcessWarranted(s, i); } else { Nothing(s, i); }
    }
  }

  lemma ArrivalSilent(s: State, i: Input)
    requires i.Arrive?
    ensures OnlyWarranted(s, i, Connected(s, i.id))
  {
  }

  lemma DropSilent(s: State, i: Input, s': State)
    requires |s'.log| == |s.log| + 1 && s.log <= s'.log && s'.log[|s.log|].Dropped?
    ensures OnlyWarranted(s, i, s')
  {
  }

  // ---------------------------------------------------------------- whole runs

  /** The input at position j of the run warrants the frame. */
  ghost predicate WarrantedAt(inputs: seq<Input>, j: nat, to: Uuid, f: ServerFrame)
    requires j < |inputs|
  {
    Run(inputs[..j]).Some? && Warranted(Run(inputs[..j]).value, inputs[j], to, f)
  }

  lemma LastStep(inputs: seq<Input>)
    requires Admissible(inputs) && inputs != []
    ensures var before, i := inputs[..|inputs| - 1], inputs[|inputs| - 1];
            && Admissible(before) && Run(before).Some? && Run(inputs).Some? && Books(Run(before).value)
            && Allowed(Run(before).value, i) && !Panics(Run(before).value, i)
            && Run(inputs).value == Step(Run(before).value, i)
  {
    NeverPanics(inputs);
    NeverPanics(inputs[..|inputs| - 1]);
    hide Books, Step, Panics, Allowed;
  }

  /**
   In every run, every frame the broker sends is warranted by the input of that moment. So a terminal notice follows a
   frame that names the pairing with a valid token of its sender and is the notice that frame stands for; an
   acceptance is the owner's, with the owner's token and the response unchanged; requests, answers and refusals carry
   what was asked; and every refusal is true.
   */
  lemma {:induction false} EveryFrameIsWarranted(inputs: seq<Input>, k: nat)
    requires Admissible(inputs) && Run(inputs).Some? && k < |Run(inputs).value.log| && Run(inputs).value.log[k].Sent?
    ensures exists j :: 0 <= j < |inputs|
                        && WarrantedAt(inputs, j, Run(inputs).value.log[k].to, Run(inputs).value.log[k].frame)
    decreases |inputs|
  {
    hide Step, Allowed, Panics, Warranted, Books;
    if inputs != [] {
      var before := inputs[..|inputs| - 1];
      LastStep(inputs);
      hide Run, Admissible;
      var s, i := Run(before).value, inputs[|inputs| - 1];
      StepWarranted(s, i);
      var e := Run(inputs).value.log[k];
      if k < |s.log| {
        EveryFrameIsWarranted(before, k);
        var j :| 0 <= j < |before| && WarrantedAt(before, j, s.log[k].to, s.log[k].frame);
        assert before[..j] == inputs[..j];
        assert WarrantedAt(inputs, j, e.to, e.frame);
      } else {
        assert WarrantedAt(inputs, |inputs| - 1, e.to, e.frame);
      }
    }
  }

  // ---------------------------------------------------------------- every request is answered once

  predicate IsAnswer(e: Entry) { e.Sent? && AnswerOf(e.frame).Some? }

  function Answers(log: seq<Entry>): seq<Entry> {
    if log == [] then []
    else Answers(log[..|log| - 1]) + if IsAnswer(log[|log| - 1]) then [log[|log| - 1]] else []
  }

  lemma AnswersNext(log: seq<Entry>, e: Entry)
    ensures Answers(log + [e]) == Answers(log) + if IsAnswer(e) then [e] else []
  {
    assert (log + [e])[..|log + [e]| - 1] == log;
  }

  /** The state's log grew by one answer to this client's request. */
  predicate AnsweredOnce(s: State, s': State, id: Uuid, request: Uuid) {
    var a, a' := Answers(s.log), Answers(s'.log);
    |a'| == |a| + 1 && a <= a' && a'[|a|].Sent? && a'[|a|].to == id && AnswerOf(a'[|a|].frame) == Some(request)
  }

  lemma SendAnswers(s: State, id: Uuid, f: ServerFrame)
    requires id in s.connections
    ensures Answers(Send(s, id, f).log) == Answers(s.log) + if AnswerOf(f).Some? then [Sent(id, f)] else []
  {
    AnswersNext(s.log, Sent(id, f));
  }

  lemma CreateAnswers(s: State, id: Uuid, r: Uuid, key: Bytes, ttl: nat, d: Draw)
    requires id in s.connections
    ensures AnsweredOnce(s, CreateSlot(s, id, r, key, ttl, d), id, r)
  {
    hide Answers, FirstFree, FormatCode;
    var code := FirstFree(s.slots, d.codes);
    var c := s.connections[id];
    var slot := Slot(id, d.handle, Sha256(d.capability), Sha256(code), key, d.now + Clamp(ttl));
    var issued := Note(s.(slots := s.slots[Sha256(d.handle) := slot],
                          connections := s.connections[id := c.(slots := c.slots + 1)]),
                       Issued(code, Sha256(d.handle)));
    AnswersNext(s.log, Issued(code, Sha256(d.handle)));
    SendAnswers(issued, id, PairingSlotCreated(r, d.handle, FormatCode(code), d.capability, slot.expiresAt));
    SendAnswers(s, id, Error(r, "capacity"));
  }

  lemma LookupAnswers(t: State, id: Uuid, r: Uuid, display: string, now: int)
    requires id in t.connections
    ensures AnsweredOnce(t, Lookup(t, id, r, display, now), id, r)
  {
    hide Answers, NormalizeCode, Resolves;
    var t' := Lookup(t, id, r, display, now);
    assert t'.log == t.log + [t'.log[|t.log|]] && IsAnswer(t'.log[|t.log|]);
    AnswersNext(t.log, t'.log[|t.log|]);
  }

  lemma ResolveAnswers(s: State, id: Uuid, r: Uuid, display: string, now: int)
    requires id in s.connections
    ensures AnsweredOnce(s, Resolve(s, id, r, display, now), id, r)
  {
    hide Answers, Recent, Lookup;
    var c := s.connections[id];
    var recent := Recent(c.attempts, now);
    var trimmed := s.(connections := s.connections[id := c.(attempts := recent)]);
    var counted := Note(s.(connections := s.connections[id := c.(attempts := recent + [now])]), Attempted(id, now));
    SendAnswers(trimmed, id, Error(r, "rate_limited"));
    AnswersNext(s.log, Attempted(id, now));
    LookupAnswers(counted, id, r, display, now);
  }

  lemma BeginAnswers(s: State, id: Uuid, f: ClientFrame, d: Draw)
    requires id in s.connections && f.BeginPairing? && OwnerIndexable(s, f.slotHandle)
    ensures AnsweredOnce(s, Begin(s, id, f, d), id, f.requestId)
  {
    hide Answers, Open;
    var h := Sha256(f.slotHandle);
    forall code: string ensures AnsweredOnce(s, Reject(s, id, f.requestId, code), id, f.requestId) {
      SendAnswers(s, id, Error(f.requestId, code));
    }
    if h in s.slots {
      OpenShape(s, id, f, d);
      OpenAnswers(s, Open(s, id, f, d), id, f, d);
    }
  }

  lemma OpenAnswers(s: State, s': State, id: Uuid, f: ClientFrame, d: Draw)
    requires f.BeginPairing? && Sha256(f.slotHandle) in s.slots
    requires var h := Sha256(f.slotHandle);
             var owner := s.slots[h].owner;
             s'.log == s.log + [Opened(f.pairingId, h, owner, id)]
                 + [Sent(owner, PairingRequested(f.pairingId, s.slots[h].handle, d.ownerToken, f.publicKey, f.offer,
                                                 d.now + BRIDGE_TTL))]
                 + [Sent(id, PairingStarted(f.requestId, f.pairingId, d.joinerToken, d.now + BRIDGE_TTL))]
    ensures AnsweredOnce(s, s', id, f.requestId)
  {
    hide Answers;
    var n := |s.log|;
    AnswersNext(s.log, s'.log[n]);
    AnswersNext(s.log + [s'.log[n]], s'.log[n + 1]);
    AnswersNext(s.log + [s'.log[n]] + [s'.log[n + 1]], s'.log[n + 2]);
  }

  /** In every run, a request of a connected client is answered exactly once, to that client and under its id. */
  lemma RequestsAreAnswered(inputs: seq<Input>)
    requires Admissible(inputs) && inputs != [] && inputs[|inputs| - 1].Frame?
    requires RequestOf(inputs[|inputs| - 1].frame).Some?
    requires Run(inputs[..|inputs| - 1]).Some? && Run(inputs).Some?
    requires inputs[|inputs| - 1].id in Run(inputs[..|inputs| - 1]).value.connections
    ensures var i := inputs[|inputs| - 1];
            AnsweredOnce(Run(inputs[..|inputs| - 1]).value, Run(inputs).value, i.id, RequestOf(i.frame).value)
  {
    LastStep(inputs);
    hide Run, Admissible, AnsweredOnce, Books, FreshDraw, CreateSlot, Resolve, Begin, OwnerIndexable;
    var s, i := Run(inputs[..|inputs| - 1]).value, inputs[|inputs| - 1];
    match i.frame {
      case CreatePairingSlot(r, key, ttl) => CreateAnswers(s, i.id, r, key, ttl, i.draw);
      case ResolvePairingCode(r, display) => ResolveAnswers(s, i.id, r, display, i.draw.now);
      case BeginPairing(_, _, _, _, _) => BeginAnswers(s, i.id, i.frame, i.draw);
    }
  }
}
