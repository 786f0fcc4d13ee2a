/** What the sender's log says about the frames it has put on the wire, over any number of sessions. */
module PeerWire {
  import opened Foundation
  import opened PeerTypes
  import opened Delivery
  import opened DeliveryLedger
  import opened DeliveryOrder
  import opened DeliveryRuns

  // ---------------------------------------------------------------- the log tells what the wire carries

  function TagOf(reg: Registry, f: Frame): Option<DeliveryTag> {
    if f.MessageFrame? then Some(reg(f.envelope.messageId).tag) else None
  }

  predicate CarriesTracked(reg: Registry, f: Frame) {
    TagOf(reg, f).Some? && TagOf(reg, f).value.Tracked()
  }

  /** The tracked deliveries among some frames, in order. */
  function TrackedIn(reg: Registry, frames: seq<Frame>): seq<DeliveryTag>
    decreases |frames|
  {
    if frames == [] then []
    else
      var f := frames[|frames| - 1];
      TrackedIn(reg, frames[..|frames| - 1]) + if CarriesTracked(reg, f) then [TagOf(reg, f).value] else []
  }

  lemma {:induction false} TrackedInConcat(reg: Registry, a: seq<Frame>, b: seq<Frame>)
    ensures TrackedIn(reg, a + b) == TrackedIn(reg, a) + TrackedIn(reg, b)
    decreases |b|
  {
    if b == [] {
      assert a + b == a;
    } else {
      assert (a + b)[..|a + b| - 1] == a + b[..|b| - 1];
      TrackedInConcat(reg, a, b[..|b| - 1]);
    }
  }

  function WroteTracked(log: seq<Entry>): seq<DeliveryTag>
    decreases |log|
  {
    if log == [] then []
    else
      var e := log[|log| - 1];
      WroteTracked(log[..|log| - 1]) + if e.Wrote? && e.tag.Tracked() then [e.tag] else []
  }

  lemma WroteSnoc(log: seq<Entry>, e: Entry)
    ensures WroteTracked(log + [e]) == WroteTracked(log) + if e.Wrote? && e.tag.Tracked() then [e.tag] else []
  {
    assert (log + [e])[..|log|] == log;
  }

  /** One log entry per tracked envelope on the wire, in the same order. */
  predicate WireLogged(reg: Registry, s: Contact) {
    TrackedIn(reg, s.wire) == WroteTracked(s.log)
  }

  /** Steps that write no envelope. */
  predicate Quiet(s: Contact, s': Contact) {
    && s.log <= s'.log
    && (forall i :: |s.log| <= i < |s'.log| ==> !s'.log[i].Wrote?)
    && s.wire <= s'.wire
    && (forall i :: |s.wire| <= i < |s'.wire| ==> !s'.wire[i].MessageFrame?)
  }

  lemma {:induction false} QuietFrames(reg: Registry, frames: seq<Frame>)
    requires forall i :: 0 <= i < |frames| ==> !frames[i].MessageFrame?
    ensures TrackedIn(reg, frames) == []
    decreases |frames|
  {
    if frames != [] { QuietFrames(reg, frames[..|frames| - 1]); }
  }

  lemma {:induction false} QuietLog(log: seq<Entry>, log': seq<Entry>)
    requires log <= log' && forall i :: |log| <= i < |log'| ==> !log'[i].Wrote?
    ensures WroteTracked(log') == WroteTracked(log)
    decreases |log'|
  {
    if |log| == |log'| {
      assert log == log';
    } else {
      QuietLog(log, log'[..|log'| - 1]);
    }
  }

  lemma QuietKeepsWire(reg: Registry, s: Contact, s': Contact)
    requires WireLogged(reg, s) && Quiet(s, s')
    ensures WireLogged(reg, s')
  {
    QuietLog(s.log, s'.log);
    var added := s'.wire[|s.wire|..];
    assert s'.wire == s.wire + added;
    QuietFrames(reg, added);
    TrackedInConcat(reg, s.wire, added);
  }

  lemma FramesCarry(reg: Registry, c: Command, sent: nat, sessionId: Uuid)
    requires Registered(reg, c)
    ensures var frames := FramesOf(c, sent, sessionId);
            && frames != []
            && (forall i :: 0 <= i < |frames| - 1 ==> !frames[i].MessageFrame?)
            && frames[|frames| - 1] == ClosingFrame(c, sessionId)
            && TrackedIn(reg, frames) == if c.delivery.Tracked() then [c.delivery] else []
  {
    var frames := FramesOf(c, sent, sessionId);
    QuietFrames(reg, frames[..|frames| - 1]);
  }

  lemma WrittenWire(s: Contact, c: Command, at: int)
    ensures Written(s, c, at).wire == s.wire + FramesOf(c, s.sentSequence, s.sessionId)
    ensures Written(s, c, at).sessionId == s.sessionId && Written(s, c, at).endpoint == s.endpoint
  {
  }

  lemma EnteringKeepsWire(reg: Registry, s: Contact, s': Contact, c: Command, at: int)
    requires WireLogged(reg, s) && Registered(reg, c) && EntersWindow(s, s', c, at)
    requires s'.wire == s.wire + FramesOf(c, s.sentSequence, s.sessionId)
    ensures WireLogged(reg, s')
  {
    FramesCarry(reg, c, s.sentSequence, s.sessionId);
    TrackedInConcat(reg, s.wire, FramesOf(c, s.sentSequence, s.sessionId));
    WroteSnoc(s.log, Wrote(c.delivery));
  }

  lemma WrittenKeepsWire(reg: Registry, s: Contact, c: Command, at: int)
    requires WireLogged(reg, s) && Registered(reg, c)
    ensures WireLogged(reg, Written(s, c, at))
  {
    WrittenWire(s, c, at);
    WrittenEntersWindow(s, c, at);
    EnteringKeepsWire(reg, s, Written(s, c, at), c, at);
  }

  lemma {:induction false} TakeAllQuiet(s: Contact, cs: seq<Command>)
    ensures Quiet(s, TakeAll(s, cs))
    ensures TakeAll(s, cs).active == s.active && TakeAll(s, cs).sessionId == s.sessionId
    ensures TakeAll(s, cs).wire == s.wire
    decreases |cs|
  {
    if cs != [] { TakeAllQuiet(Take(s, cs[0]), cs[1..]); }
  }

  lemma {:induction false} FailQueuedQuiet(s: Contact)
    ensures Quiet(s, FailQueued(s)) && FailQueued(s).wire == s.wire
    decreases |s.queues.durable|
  {
    if s.queues.durable != [] { FailQueuedQuiet(FailHead(s)); }
  }

  lemma FailSessionQuiet(s: Contact)
    ensures Quiet(s, FailSession(s)) && FailSession(s).wire == s.wire
  {
    FailQueuedQuiet(Disconnect(FailActive(s)));
    assert Quiet(s, FailActive(s));
  }

  lemma FailPoppedQuiet(s: Contact, c: Command, rest: Queues, written: seq<Frame>)
    requires forall i :: 0 <= i < |written| ==> !written[i].MessageFrame?
    ensures Quiet(s, FailSession(FailPopped(s.(queues := rest, wire := s.wire + written), c.delivery)))
  {
    var popped := FailPopped(s.(queues := rest, wire := s.wire + written), c.delivery);
    assert Quiet(s, popped);
    FailSessionQuiet(popped);
  }

  lemma EndpointChangeQuiet(s: Contact)
    ensures Quiet(s, Disconnect(ReleaseAll(s)))
  {
  }

  lemma {:induction false} FillKeepsWire(reg: Registry, s: Contact, budget: nat, at: int)
    requires Sound(reg, s) && s.phase == Connected && WireLogged(reg, s)
    ensures WireLogged(reg, Fill(s, budget, at).0)
    decreases QueueSize(s.queues)
  {
    hide Conserved, Ledger, InOrder, Written, FailSession, TrackedIn, WroteTracked, FramesOf, ReleaseAll;
    var (next, rest) := PopNext(s.queues);
    PopShrinks(s.queues);
    if |s.active| < MAX_IN_FLIGHT && next.Some? {
      var c := next.value;
      var frames := FramesOf(c, s.sentSequence, s.sessionId);
      PopRegistered(reg, s.queues);
      if c.endpoint != s.endpoint {
        PutBack(s.queues);
        EndpointChangeQuiet(s);
        QuietKeepsWire(reg, s, Fill(s, budget, at).0);
      } else if |frames| <= budget {
        SoundWritten(reg, s, c, at);
        var w := Written(s.(queues := rest), c, at);
        assert WireLogged(reg, w) by { WrittenKeepsWire(reg, s.(queues := rest), c, at); }
        FillKeepsWire(reg, w, budget - |frames|, at);
      } else {
        FramesCarry(reg, c, s.sentSequence, s.sessionId);
        FailPoppedQuiet(s, c, rest, frames[..budget]);
        QuietKeepsWire(reg, s, Fill(s, budget, at).0);
      }
    }
  }

  lemma AfterFillQuiet(s: Contact, r: Round)
    ensures Quiet(s, AfterFill(s, r))
  {
    var a := Release(s, Expired(s, r.now));
    assert Quiet(s, a);
    FailSessionQuiet(a);
    var b := if r.now >= a.nextKeepalive then SendKeepalive(a, r) else a;
    assert Quiet(s, b);
    SelectQuiet(b, r);
  }

  lemma HandleFrameQuiet(s: Contact, f: Frame, replyOk: bool, eventsOpen: bool)
    ensures Quiet(s, HandleFrame(s, f, replyOk, eventsOpen).0)
  {
  }

  lemma SelectQuiet(s: Contact, r: Round)
    ensures Quiet(s, Select(s, r))
  {
    FailSessionQuiet(s);
    hide FailSession, HandleFrame;
    if r.selected.Incoming? {
      HandleFrameQuiet(s.(lastActivity := r.now), r.selected.frame, r.replyOk, r.eventsOpen);
      FailSessionQuiet(HandleFrame(s.(lastActivity := r.now), r.selected.frame, r.replyOk, r.eventsOpen).0);
    }
  }

  lemma RoundKeepsWire(reg: Registry, s: Contact, r: Round)
    requires Sound(reg, s) && s.phase == Connected && WireLogged(reg, s) && RoundRegistered(reg, r)
    ensures WireLogged(reg, ConnectedRound(s, r))
  {
    hide Conserved, Ledger, InOrder;
    SoundTakeAll(reg, s, r.arrivals);
    TakeAllQuiet(s, r.arrivals);
    QuietKeepsWire(reg, s, TakeAll(s, r.arrivals));
    FillKeepsWire(reg, TakeAll(s, r.arrivals), r.budget, r.at);
    var (f, result) := Fill(TakeAll(s, r.arrivals), r.budget, r.at);
    if result == Filled {
      AfterFillQuiet(f, r);
      QuietKeepsWire(reg, f, AfterFill(f, r));
    }
  }

  lemma WaitQuiet(s: Contact, received: Option<Command>, dialled: Dialled, at: int)
    ensures Quiet(s, WaitStep(s, received, dialled, at))
  {
    FailQueuedQuiet(s);
  }

  lemma StepKeepsWire(reg: Registry, s: Contact, i: Input)
    requires Sound(reg, s) && WireLogged(reg, s) && InputRegistered(reg, i)
    ensures WireLogged(reg, Step(s, i))
  {
    hide Conserved, Ledger, InOrder;
    match (s.phase, i) {
      case (Top, Drain(cs)) =>
        TakeAllQuiet(s, cs);
        QuietKeepsWire(reg, s, TakeAll(s, cs));
      case (Waiting, Wait(received, dialled, at)) =>
        WaitQuiet(s, received, dialled, at);
        QuietKeepsWire(reg, s, WaitStep(s, received, dialled, at));
      case (Connected, Turn(r)) => RoundKeepsWire(reg, s, r);
      case _ =>
    }
  }

  lemma {:induction false} RunKeepsWire(reg: Registry, s: Contact, inputs: seq<Input>)
    requires Sound(reg, s) && LeavesNothing(s) && WireLogged(reg, s)
    requires forall i :: 0 <= i < |inputs| ==> InputRegistered(reg, inputs[i])
    ensures WireLogged(reg, Run(s, inputs))
    decreases |inputs|
  {
    hide Conserved, Ledger, InOrder;
    if inputs != [] {
      SoundStep(reg, s, inputs[0]);
      StepKeepsWire(reg, s, inputs[0]);
      RunKeepsWire(reg, Step(s, inputs[0]), inputs[1..]);
    }
  }

  lemma ReachableWire(reg: Registry, s: Contact)
    requires Reachable(reg, s)
    ensures WireLogged(reg, s)
  {
    hide Conserved, Ledger, InOrder;
    var inputs: seq<Input> :|
      && (forall i :: 0 <= i < |inputs| ==> InputRegistered(reg, inputs[i]))
      && s == Run(Initial(), inputs);
    SoundInitially(reg);
    RunKeepsWire(reg, Initial(), inputs);
  }

  // ---------------------------------------------------------------- writes follow acceptances

  lemma {:induction false} TicketIsAcceptance(log: seq<Entry>, t: DeliveryTag)
    ensures Ticket(log, t) >= 0 ==> Ticket(log, t) < |log| && log[Ticket(log, t)] == Accepted(t)
    ensures Life(log, t) != Absent && Life(log, t) != Broken ==> Ticket(log, t) >= 0
    decreases |log|
  {
    if log != [] { TicketIsAcceptance(log[..|log| - 1], t); }
  }

  /** The k-th tracked write is of a delivery that the log accepted at the k-th ticket. */
  lemma {:induction false} WritesFollowAcceptances(log: seq<Entry>)
    requires forall t: DeliveryTag :: t.Tracked() ==> Life(log, t) != Broken
    ensures |WrittenTickets(log)| == |WroteTracked(log)|
    ensures forall k :: 0 <= k < |WroteTracked(log)| ==>
              0 <= WrittenTickets(log)[k] < |log| && log[WrittenTickets(log)[k]] == Accepted(WroteTracked(log)[k])
    decreases |log|
  {
    if log != [] {
      var before, e := log[..|log| - 1], log[|log| - 1];
      forall t: DeliveryTag | t.Tracked() ensures Life(before, t) != Broken { NeverBroken(log, t, |before|); }
      WritesFollowAcceptances(before);
      if e.Wrote? && e.tag.Tracked() { TicketIsAcceptance(before, e.tag); }
    }
  }

  lemma SoundLog(reg: Registry, s: Contact)
    requires Sound(reg, s)
    ensures forall t: DeliveryTag :: t.Tracked() ==> Life(s.log, t) != Broken
    ensures Increasing(WrittenTickets(s.log))
  {
    forall t: DeliveryTag | t.Tracked() ensures Life(s.log, t) != Broken { assert Placed(s, t, Life(s.log, t)); }
  }

  /** Tracked envelopes on the wire, over any number of sessions, are the accepted deliveries in acceptance order. */
  lemma WireIsInAcceptanceOrder(reg: Registry, s: Contact)
    requires Reachable(reg, s)
    ensures TrackedIn(reg, s.wire) == WroteTracked(s.log)
    ensures |WrittenTickets(s.log)| == |TrackedIn(reg, s.wire)| && Increasing(WrittenTickets(s.log))
    ensures forall k :: 0 <= k < |TrackedIn(reg, s.wire)| ==>
              && 0 <= WrittenTickets(s.log)[k] < |s.log|
              && s.log[WrittenTickets(s.log)[k]] == Accepted(TrackedIn(reg, s.wire)[k])
  {
    hide Sound;
    ReachableWire(reg, s);
    ReachableSound(reg, s);
    SoundLog(reg, s);
    WritesFollowAcceptances(s.log);
  }
}
