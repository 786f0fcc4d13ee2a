/**
 Where a session sends what it writes: to the endpoint it was dialled for, the dialled command first, endpoint updates
 in rising order; and how its questions are answered.
 */
module DeliveryAddress {
  import opened Foundation
  import opened PeerTypes
  import opened Delivery
  import opened DeliveryLedger
  import opened DeliveryOrder
  import opened DeliveryRuns
  import opened PeerWire
  import opened PeerLink
  import opened DeliveryReports
  import opened DeliveryTurns
  import EndpointChain

  // ---------------------------------------------------------------- where envelopes go

  /** Every command sent under an envelope id is addressed to this endpoint. */
  type Home = Uuid -> PeerAddress

  predicate AtHome(home: Home, c: Command) { home(c.messageId) == c.endpoint }

  predicate AllAtHome(home: Home, cs: seq<Command>) { forall i :: 0 <= i < |cs| ==> AtHome(home, cs[i]) }

  predicate SlotAtHome(home: Home, o: Option<Command>) { o.Some? ==> AtHome(home, o.value) }

  predicate QueuesAtHome(home: Home, q: Queues) {
    && AllAtHome(home, q.durable) && SlotAtHome(home, q.endpointUpdate)
    && SlotAtHome(home, q.probe) && SlotAtHome(home, q.ephemeral)
  }

  /** What was written between the two states went to this endpoint, under this session's id. */
  predicate Addressed(home: Home, s: Contact, s': Contact) {
    && s.wire <= s'.wire
    && forall i :: |s.wire| <= i < |s'.wire| && s'.wire[i].MessageFrame? ==>
         home(s'.wire[i].envelope.messageId) == s.endpoint && s'.wire[i].envelope.sessionId == s.sessionId
  }

  lemma TakeAtHome(home: Home, s: Contact, c: Command)
    requires QueuesAtHome(home, s.queues) && AtHome(home, c)
    ensures QueuesAtHome(home, Take(s, c).queues)
  {
    hide AtHome, DeliveryTag.DedupeKey;
  }

  lemma {:induction false} TakeAllAtHome(home: Home, s: Contact, cs: seq<Command>)
    requires QueuesAtHome(home, s.queues) && AllAtHome(home, cs)
    ensures QueuesAtHome(home, TakeAll(s, cs).queues)
    ensures TakeAll(s, cs).endpoint == s.endpoint
    decreases |cs|
  {
    hide QueuesAtHome;
    if cs != [] {
      TakeAtHome(home, s, cs[0]);
      TakeAllAtHome(home, Take(s, cs[0]), cs[1..]);
    }
  }

  lemma PopAtHome(home: Home, q: Queues)
    requires QueuesAtHome(home, q)
    ensures SlotAtHome(home, PopNext(q).0) && QueuesAtHome(home, PopNext(q).1)
    ensures PopNext(q).0.Some? ==> QueuesAtHome(home, PushFront(PopNext(q).1, PopNext(q).0.value))
  {
    hide AtHome;
  }

  lemma FramesAddressed(home: Home, s: Contact, c: Command, n: nat)
    requires AtHome(home, c) && c.endpoint == s.endpoint && n <= |FramesOf(c, s.sentSequence, s.sessionId)|
    ensures Addressed(home, s, s.(wire := s.wire + FramesOf(c, s.sentSequence, s.sessionId)[..n]))
  {
    hide UnsentUpdates;
  }

  lemma {:induction false} FillAddressed(home: Home, s: Contact, budget: nat, at: int)
    requires QueuesAtHome(home, s.queues)
    ensures var (s', r) := Fill(s, budget, at);
            Addressed(home, s, s') && (r == Filled ==> s'.endpoint == s.endpoint && s'.sessionId == s.sessionId)
    ensures QueuesAtHome(home, Fill(s, budget, at).0.queues)
    decreases QueueSize(s.queues)
  {
    hide *;
    var (next, rest) := PopNext(s.queues);
    PopShrinks(s.queues);
    if |s.active| >= MAX_IN_FLIGHT || next.None? {
      FillNothing(s, budget, at);
      AddressedSelf(home, s);
    } else {
      var c, frames := next.value, FramesOf(next.value, s.sentSequence, s.sessionId);
      FillOnce(s, budget, at, c, rest);
      PopAtHome(home, s.queues);
      if c.endpoint != s.endpoint {
        EndpointChangeAddressed(home, s, PushFront(rest, c));
      } else if |frames| <= budget {
        var w := Written(s.(queues := rest), c, at);
        OneAddressed(home, s, rest, c, at);
        FillAddressed(home, w, budget - |frames|, at);
        AddressedTwice(home, s, w, Fill(s, budget, at).0);
      } else {
        LostAddressed(home, s, rest, c, budget);
      }
    }
  }

  lemma AddressedSelf(home: Home, s: Contact)
    ensures Addressed(home, s, s)
  {
  }

  lemma AddressedTwice(home: Home, a: Contact, b: Contact, c: Contact)
    requires Addressed(home, a, b) && Addressed(home, b, c) && b.endpoint == a.endpoint && b.sessionId == a.sessionId
    ensures Addressed(home, a, c)
  {
  }

  lemma EndpointChangeAddressed(home: Home, s: Contact, q: Queues)
    requires QueuesAtHome(home, q)
    ensures var s' := Disconnect(ReleaseAll(s.(queues := q))); Addressed(home, s, s') && QueuesAtHome(home, s'.queues)
  {
    hide AtHome, KeysOf, TagsIn;
  }

  lemma OneAddressed(home: Home, s: Contact, rest: Queues, c: Command, at: int)
    requires SlotAtHome(home, Some(c)) && c.endpoint == s.endpoint
    ensures var w := Written(s.(queues := rest), c, at);
            Addressed(home, s, w) && w.endpoint == s.endpoint && w.sessionId == s.sessionId && w.queues == rest
  {
    hide AtHome, FramesOf, ActiveOf, ProbesUntracked;
    WrittenWire(s.(queues := rest), c, at);
    WrittenEntersWindow(s.(queues := rest), c, at);
    var frames := FramesOf(c, s.sentSequence, s.sessionId);
    FramesAddressed(home, s, c, |frames|);
    assert frames[..|frames|] == frames;
    hide Written;
  }

  lemma LostAddressed(home: Home, s: Contact, rest: Queues, c: Command, budget: nat)
    requires SlotAtHome(home, Some(c)) && c.endpoint == s.endpoint
    requires budget < |FramesOf(c, s.sentSequence, s.sessionId)|
    ensures var written := FramesOf(c, s.sentSequence, s.sessionId)[..budget];
            var s' := FailSession(FailPopped(s.(queues := rest, wire := s.wire + written), c.delivery));
            Addressed(home, s, s') && QueuesAtHome(home, s'.queues)
  {
    hide AtHome, FramesOf, FailSession, Complete;
    FramesAddressed(home, s, c, budget);
    var written := FramesOf(c, s.sentSequence, s.sessionId)[..budget];
    var p := FailPopped(s.(queues := rest, wire := s.wire + written), c.delivery);
    FailSessionQuiet(p);
    FailSessionEmpties(p);
  }

  lemma FailSessionEmpties(s: Contact)
    ensures var q := FailSession(s).queues;
            q.durable == [] && q.endpointUpdate.None? && q.probe.None? && q.ephemeral.None?
  {
    hide KeysOf, TagsIn;
    FailQueuedEmpties(Disconnect(FailActive(s)));
  }

  lemma {:induction false} FailQueuedEmpties(s: Contact)
    ensures var q := FailQueued(s).queues;
            q.durable == [] && q.endpointUpdate.None? && q.probe.None? && q.ephemeral.None?
    decreases |s.queues.durable|
  {
    if s.queues.durable != [] { FailQueuedEmpties(FailHead(s)); }
  }

  lemma SelectAtHome(home: Home, s: Contact, r: Round)
    requires QueuesAtHome(home, s.queues) && (r.selected.FromChannel? ==> AtHome(home, r.selected.command))
    ensures QueuesAtHome(home, Select(s, r).queues)
  {
    hide AtHome, FailSession, HandleFrame;
    match r.selected {
      case FromChannel(c) => TakeAtHome(home, s, c);
      case ChannelClosed =>
      case StreamBroken => FailSessionEmpties(s);
      case Incoming(f) =>
        var a := s.(lastActivity := r.now);
        HandleFramePlaces(a, f, r.replyOk, r.eventsOpen);
        FailSessionEmpties(HandleFrame(a, f, r.replyOk, r.eventsOpen).0);
      case Tick =>
    }
  }

  lemma HandleFramePlaces(s: Contact, f: Frame, replyOk: bool, eventsOpen: bool)
    ensures HandleFrame(s, f, replyOk, eventsOpen).0.queues.(dedupe := {}) == s.queues.(dedupe := {})
  {
  }

  lemma AfterFillAtHome(home: Home, s: Contact, r: Round)
    requires QueuesAtHome(home, s.queues) && (r.selected.FromChannel? ==> AtHome(home, r.selected.command))
    ensures QueuesAtHome(home, AfterFill(s, r).queues) && Addressed(home, s, AfterFill(s, r))
  {
    hide AtHome, FailSession, Select, KeysOf, TagsIn, Expired;
    AfterFillQuiet(s, r);
    FailSessionEmpties(Release(s, Expired(s, r.now)));
    SelectAtHome(home, BeforeSelect(s, r), r);
  }

  predicate InputAtHome(home: Home, i: Input) {
    match i
    case Drain(cs) => AllAtHome(home, cs)
    case Wait(received, _, _) => SlotAtHome(home, received)
    case Turn(r) => AllAtHome(home, r.arrivals) && (r.selected.FromChannel? ==> AtHome(home, r.selected.command))
  }

  lemma RoundAddressed(home: Home, s: Contact, r: Round)
    requires QueuesAtHome(home, s.queues) && InputAtHome(home, Turn(r))
    ensures QueuesAtHome(home, ConnectedRound(s, r).queues) && Addressed(home, s, ConnectedRound(s, r))
  {
    hide QueuesAtHome, Fill, AfterFill, TakeAll, AtHome;
    var t := TakeAll(s, r.arrivals);
    TakeAllAtHome(home, s, r.arrivals);
    TakeAllQuiet(s, r.arrivals);
    FillAddressed(home, t, r.budget, r.at);
    var (f, result) := Fill(t, r.budget, r.at);
    if result == Filled {
      AfterFillAtHome(home, f, r);
      AddressedTwice(home, t, f, AfterFill(f, r));
    }
  }

  /** Outside a session nothing is written. */
  lemma IdleAddressed(home: Home, s: Contact, i: Input)
    requires s.phase != Connected && QueuesAtHome(home, s.queues) && InputAtHome(home, i)
    ensures QueuesAtHome(home, Step(s, i).queues) && Step(s, i).wire == s.wire
    ensures Step(s, i).phase == Connected ==>
              && s.phase == Waiting && HasDialWorthy(s.queues)
              && Step(s, i).endpoint == ConnectionTemplate(s.queues).value.endpoint
  {
    IdleStep(s, i);
    FailQueuedEmpties(s);
    hide TakeAll, FailQueued, Take, AtHome;
    match (s.phase, i) {
      case (Top, Drain(cs)) =>
        TakeAllAtHome(home, s, cs);
        TakeAllPhase(s, cs);
      case (Waiting, Wait(received, _, _)) => if received.Some? { TakeAtHome(home, s, received.value); }
      case _ =>
    }
  }

  /** The endpoint of the command for which the current session was dialled. */
  ghost function DialledEndpoint(inputs: seq<Input>): PeerAddress {
    if inputs == [] then Initial().endpoint
    else
      var before := inputs[..|inputs| - 1];
      var s := After(before);
      if s.phase == Waiting && Step(s, inputs[|inputs| - 1]).phase == Connected && HasDialWorthy(s.queues)
      then ConnectionTemplate(s.queues).value.endpoint
      else DialledEndpoint(before)
  }

  predicate AllInputsAtHome(home: Home, inputs: seq<Input>) {
    forall i :: 0 <= i < |inputs| ==> InputAtHome(home, inputs[i])
  }

  lemma {:induction false} FailQueuedEndpoint(s: Contact)
    ensures FailQueued(s).endpoint == s.endpoint
    decreases |s.queues.durable|
  {
    if s.queues.durable != [] { FailQueuedEndpoint(FailHead(s)); }
  }

  lemma FailSessionEndpoint(s: Contact)
    ensures FailSession(s).endpoint == s.endpoint
  {
    hide KeysOf, TagsIn;
    FailQueuedEndpoint(Disconnect(FailActive(s)));
  }

  lemma HandleFrameEndpoint(s: Contact, f: Frame, replyOk: bool, eventsOpen: bool)
    ensures HandleFrame(s, f, replyOk, eventsOpen).0.endpoint == s.endpoint
  {
    hide Complete;
  }

  lemma AfterFillEndpoint(s: Contact, r: Round)
    ensures AfterFill(s, r).endpoint == s.endpoint
  {
    hide FailSession, HandleFrame, KeysOf, TagsIn, Expired, Enqueue, Accepts, Quiescent;
    var b := BeforeSelect(s, r);
    FailSessionEndpoint(Release(s, Expired(s, r.now)));
    FailSessionEndpoint(b);
    if r.selected.Incoming? {
      var a := b.(lastActivity := r.now);
      HandleFrameEndpoint(a, r.selected.frame, r.replyOk, r.eventsOpen);
      FailSessionEndpoint(HandleFrame(a, r.selected.frame, r.replyOk, r.eventsOpen).0);
    }
  }

  /** While a session lasts its endpoint stays. */
  lemma RoundEndpoint(reg: Registry, home: Home, s: Contact, r: Round)
    requires Sound(reg, s) && s.phase == Connected && RoundRegistered(reg, r)
    requires QueuesAtHome(home, s.queues) && InputAtHome(home, Turn(r)) && ConnectedRound(s, r).phase == Connected
    ensures ConnectedRound(s, r).endpoint == s.endpoint
  {
    hide Conserved, Ledger, InOrder, Typed, QueuesAtHome, AtHome, Fill, AfterFill, TakeAll;
    TakeAllAtHome(home, s, r.arrivals);
    SoundTakeAll(reg, s, r.arrivals);
    SoundFill(reg, TakeAll(s, r.arrivals), r.budget, r.at);
    FillAddressed(home, TakeAll(s, r.arrivals), r.budget, r.at);
    AfterFillEndpoint(Fill(TakeAll(s, r.arrivals), r.budget, r.at).0, r);
  }

  lemma {:induction false} AlwaysHome(reg: Registry, home: Home, inputs: seq<Input>)
    requires AllInputsRegistered(reg, inputs) && AllInputsAtHome(home, inputs)
    ensures QueuesAtHome(home, After(inputs).queues)
    ensures After(inputs).phase == Connected ==> After(inputs).endpoint == DialledEndpoint(inputs)
  {
    hide InputRegistered, InputAtHome, AtHome;
    if inputs != [] {
      var before, i := inputs[..|inputs| - 1], inputs[|inputs| - 1];
      var s := After(before);
      AlwaysHome(reg, home, before);
      AfterSnoc(inputs);
      AfterSound(reg, before);
      hide After, Sound, QueuesAtHome, ConnectedRound;
      StepHome(reg, home, s, i);
    }
  }

  lemma StepHome(reg: Registry, home: Home, s: Contact, i: Input)
    requires Sound(reg, s) && QueuesAtHome(home, s.queues) && InputRegistered(reg, i) && InputAtHome(home, i)
    ensures QueuesAtHome(home, Step(s, i).queues) && Addressed(home, s, Step(s, i))
    ensures Step(s, i).wire != s.wire ==> s.phase == Connected
    ensures Step(s, i).phase == Connected ==>
              if s.phase == Connected then Step(s, i).endpoint == s.endpoint
              else && s.phase == Waiting && HasDialWorthy(s.queues)
                   && Step(s, i).endpoint == ConnectionTemplate(s.queues).value.endpoint
  {
    hide Sound, QueuesAtHome, ConnectedRound;
    if s.phase != Connected {
      IdleAddressed(home, s, i);
    } else if i.Turn? {
      RoundAddressed(home, s, i.round);
      if ConnectedRound(s, i.round).phase == Connected { RoundEndpoint(reg, home, s, i.round); }
    }
  }

  /** The input is a turn of the session under whose id the frame stands, dialled for the frame's endpoint. */
  ghost predicate WrittenIn(home: Home, inputs: seq<Input>, j: nat, x: nat, e: Envelope)
    requires j < |inputs|
  {
    var s := After(inputs[..j]);
    && s.phase == Connected && |s.wire| <= x < |After(inputs[..j + 1]).wire|
    && e.sessionId == s.sessionId && home(e.messageId) == DialledEndpoint(inputs[..j])
  }

  /** In every run, every envelope went out in a session that was dialled for the endpoint it is addressed to. */
  lemma {:induction false} EnvelopesGoWhereDialled(reg: Registry, home: Home, inputs: seq<Input>, x: nat)
    requires AllInputsRegistered(reg, inputs) && AllInputsAtHome(home, inputs)
    requires x < |After(inputs).wire| && After(inputs).wire[x].MessageFrame?
    ensures exists j :: 0 <= j < |inputs| && WrittenIn(home, inputs, j, x, After(inputs).wire[x].envelope)
    decreases |inputs|
  {
    hide InputRegistered, InputAtHome, WrittenIn;
    if inputs != [] {
      var before, i := inputs[..|inputs| - 1], inputs[|inputs| - 1];
      WireStep(reg, home, inputs);
      if x < |After(before).wire| {
        EnvelopesGoWhereDialled(reg, home, before, x);
        var j :| 0 <= j < |before| && WrittenIn(home, before, j, x, After(before).wire[x].envelope);
        WrittenBefore(home, inputs, j, x, After(inputs).wire[x].envelope);
      }
    }
  }

  lemma WrittenBefore(home: Home, inputs: seq<Input>, j: nat, x: nat, e: Envelope)
    requires j < |inputs| - 1 && WrittenIn(home, inputs[..|inputs| - 1], j, x, e)
    ensures WrittenIn(home, inputs, j, x, e)
  {
    hide After, DialledEndpoint;
    var before := inputs[..|inputs| - 1];
    assert before[..j] == inputs[..j] && before[..j + 1] == inputs[..j + 1];
  }

  lemma WireStep(reg: Registry, home: Home, inputs: seq<Input>)
    requires inputs != [] && AllInputsRegistered(reg, inputs) && AllInputsAtHome(home, inputs)
    ensures var wire := After(inputs[..|inputs| - 1]).wire;
            && wire <= After(inputs).wire
            && forall x :: |wire| <= x < |After(inputs).wire| && After(inputs).wire[x].MessageFrame? ==>
                 WrittenIn(home, inputs, |inputs| - 1, x, After(inputs).wire[x].envelope)
  {
    var before, i := inputs[..|inputs| - 1], inputs[|inputs| - 1];
    AlwaysHome(reg, home, before);
    AfterSnoc(inputs);
    AfterSound(reg, before);
    assert inputs[..|inputs| - 1 + 1] == inputs;
    hide After, Sound, QueuesAtHome, DialledEndpoint, Step;
    StepHome(reg, home, After(before), i);
  }

  // ---------------------------------------------------------------- dialling

  lemma {:induction false} FailQueuedReports(s: Contact, i: nat)
    requires i < |s.queues.durable|
    ensures s.log <= FailQueued(s).log
    ensures BackedOff(s.queues.durable[i].delivery) in FailQueued(s).log[|s.log|..]
    decreases |s.queues.durable|
  {
    var h, all := FailHead(s), FailQueued(s).log;
    FailQueuedQuiet(h);
    assert h.log[|s.log|] == BackedOff(s.queues.durable[0].delivery);
    if i == 0 {
      assert all[|s.log|..][0] == h.log[|s.log|];
    } else {
      FailQueuedReports(h, i - 1);
      var e := BackedOff(h.queues.durable[i - 1].delivery);
      var k :| 0 <= k < |all[|h.log|..]| && all[|h.log|..][k] == e;
      assert all[|s.log|..][k + 1] == e;
    }
  }

  lemma {:induction false} FailQueuedReportsUpdate(s: Contact)
    requires s.queues.endpointUpdate.Some?
    ensures s.log < FailQueued(s).log
    ensures FailQueued(s).log[|FailQueued(s).log| - 1] == BackedOff(s.queues.endpointUpdate.value.delivery)
    ensures BackedOff(s.queues.endpointUpdate.value.delivery) in FailQueued(s).log[|s.log|..]
    decreases |s.queues.durable|
  {
    var all := FailQueued(s).log;
    if s.queues.durable != [] {
      FailQueuedReportsUpdate(FailHead(s));
      assert s.log < FailHead(s).log;
    }
    assert all[|s.log|..][|all| - 1 - |s.log|] == all[|all| - 1];
  }

  /** A command whose frames could not all be written is reported as failed if it is one the engine keeps. */
  lemma LostWriteIsReported(s: Contact, budget: nat, at: int, c: Command)
    requires s.active == map[] && PopNext(s.queues).0 == Some(c) && c.endpoint == s.endpoint && c.delivery.IsDurable()
    requires budget < |FramesOf(c, s.sentSequence, s.sessionId)|
    ensures var s' := Fill(s, budget, at).0;
            s.log <= s'.log && BackedOff(c.delivery) in s'.log[|s.log|..] && Fill(s, budget, at).1 == WriteFailed
  {
    hide FramesOf, PopNext, Fill, FailSession;
    var rest := PopNext(s.queues).1;
    FillOnce(s, budget, at, c, rest);
    var p := FailPopped(s.(queues := rest, wire := s.wire + FramesOf(c, s.sentSequence, s.sessionId)[..budget]),
                        c.delivery);
    FailSessionQuiet(p);
    var all := FailSession(p).log;
    assert all[|s.log|..][0] == p.log[|s.log|] == BackedOff(c.delivery);
  }

  /** A refused dial reports every queued delivery as failed, empties the queues and blocks nothing. */
  lemma RefusedDialUnblocks(reg: Registry, s: Contact, received: Option<Command>, at: int)
    requires Reachable(reg, s) && s.phase == Waiting && HasDialWorthy(s.queues)
    ensures var s' := Step(s, Wait(received, Refused, at));
            && s'.phase == Top && s'.queues == EMPTY_QUEUES && s.log <= s'.log
            && (forall i :: 0 <= i < |s.queues.durable| ==>
                  BackedOff(s.queues.durable[i].delivery) in s'.log[|s.log|..])
            && (s.queues.endpointUpdate.Some? ==>
                  BackedOff(s.queues.endpointUpdate.value.delivery) in s'.log[|s.log|..])
            && (forall t: DeliveryTag :: t.Tracked() ==> AcceptedCount(s'.log, t) == ConcludedCount(s'.log, t))
  {
    hide Sound, Inv, Reachable, FailQueued;
    ReachableSound(reg, s);
    RefusedIs(s, received, at);
    var s' := Step(s, Wait(received, Refused, at));
    hide Step;
    FailQueuedQuiet(s);
    forall i | 0 <= i < |s.queues.durable| ensures BackedOff(s.queues.durable[i].delivery) in s'.log[|s.log|..] {
      FailQueuedReports(s, i);
    }
    if s.queues.endpointUpdate.Some? { FailQueuedReportsUpdate(s); }
    RefusedBalances(reg, s);
  }

  lemma RefusedIs(s: Contact, received: Option<Command>, at: int)
    requires s.phase == Waiting && HasDialWorthy(s.queues)
    ensures Step(s, Wait(received, Refused, at)) == FailQueued(s).(phase := Top)
  {
    hide FailQueued;
  }

  lemma RefusedBalances(reg: Registry, s: Contact)
    requires Sound(reg, s) && s.phase == Waiting
    ensures FailQueued(s).queues == EMPTY_QUEUES
    ensures forall t: DeliveryTag :: t.Tracked() ==>
              AcceptedCount(FailQueued(s).log, t) == ConcludedCount(FailQueued(s).log, t)
  {
    hide Conserved, Ledger, InOrder, WindowTyped, WaitersTyped, QueuesTyped, ProbesUntracked, FailQueued;
    FailQueuedKeeps(reg, s);
    NothingBlocked(reg, FailQueued(s));
    forall t: DeliveryTag | t.Tracked()
      ensures AcceptedCount(FailQueued(s).log, t) == ConcludedCount(FailQueued(s).log, t)
    {
      CountsBalance(FailQueued(s).log, t);
    }
  }

  lemma FillWritesHead(t: Contact, budget: nat, at: int, c: Command, base: nat)
    requires t.active == map[] && PopNext(t.queues).0 == Some(c) && c.endpoint == t.endpoint && Backed(t, base)
    requires |FramesOf(c, t.sentSequence, t.sessionId)| <= budget
    ensures t.wire + FramesOf(c, t.sentSequence, t.sessionId) <= Fill(t, budget, at).0.wire
  {
    hide *;
    var rest := PopNext(t.queues).1;
    WindowOpen(t);
    FillOnce(t, budget, at, c, rest);
    var p := t.(queues := rest);
    SameBacked(t, p, base);
    WrittenBacked(p, c, at, base);
    WrittenWire(p, c, at);
    FillBacked(Written(p, c, at), budget - |FramesOf(c, t.sentSequence, t.sessionId)|, at, base);
    SilentWire(Written(p, c, at), Fill(t, budget, at).0);
  }

  lemma WindowOpen(t: Contact)
    requires t.active == map[]
    ensures |t.active| < MAX_IN_FLIGHT
  {
  }

  /** A turn keeps on the wire what its send loop wrote. */
  lemma TurnKeepsWritten(s: Contact, r: Round)
    requires s.phase == Connected
    ensures Fill(TakeAll(s, r.arrivals), r.budget, r.at).0.wire <= Step(s, Turn(r)).wire
  {
    hide Fill, TakeAll, AfterFill;
    AfterFillQuiet(Fill(TakeAll(s, r.arrivals), r.budget, r.at).0, r);
  }

  lemma NewSession(s: Contact, received: Option<Command>, id: Uuid, at: int)
    requires s.phase == Waiting && HasDialWorthy(s.queues)
    ensures var s1 := Step(s, Wait(received, Opened(id), at));
            && s1.phase == Connected && s1.sessionId == id && s1.queues == s.queues && s1.wire == s.wire
            && s1.active == map[] && s1.sentSequence == 0
            && s1.endpoint == ConnectionTemplate(s.queues).value.endpoint && Backed(s1, |s.wire|)
  {
  }

  lemma TemplateExists(q: Queues)
    requires HasDialWorthy(q)
    ensures ConnectionTemplate(q).Some?
  {
  }

  predicate NothingToDial(q: Queues) { q.durable == [] && q.endpointUpdate.None? && q.probe.None? }

  /**
   A waiting task dials as soon as a queued delivery, an endpoint update or a probe is there, and only then. Until then
   it keeps what is worth a dial and drops what is not.
   */
  lemma DialsIff(s: Contact, received: Option<Command>, dialled: Dialled, at: int)
    requires s.phase == Waiting
    ensures var s' := Step(s, Wait(received, dialled, at));
            if NothingToDial(s.queues)
            then s'.phase == (if s.channelOpen && received.Some? then Waiting else Returned)
            else s'.phase == if dialled.Refused? then Top else Connected
    ensures var s' := Step(s, Wait(received, dialled, at));
            s'.phase == Waiting ==>
              && s'.queues.ephemeral.None?
              && (received.value.delivery.EndpointUpdate? ==> s'.queues.endpointUpdate == received)
              && (received.value.delivery.Probe? ==> s'.queues.probe == received)
              && (received.value.delivery.Tracked() && !Blocks(s.queues, received.value.delivery) ==>
                    s'.queues.durable == s.queues.durable + [received.value])
  {
    hide FailQueued;
  }

  /** In every run, a task that has returned left nothing that is worth a dial. */
  lemma {:induction false} ReturnsWithNothingToDial(reg: Registry, inputs: seq<Input>)
    requires AllInputsRegistered(reg, inputs) && After(inputs).phase == Returned
    ensures NothingToDial(After(inputs).queues)
  {
    if inputs != [] {
      var before, i := inputs[..|inputs| - 1], inputs[|inputs| - 1];
      var s := After(before);
      AfterSnoc(inputs);
      AfterSound(reg, before);
      hide After, Sound, ConnectedRound, TakeAll;
      match (s.phase, i) {
        case (Top, Drain(cs)) => TakeAllPhase(s, cs);
        case (Waiting, Wait(received, dialled, at)) => DialsIff(s, received, dialled, at);
        case (Connected, Turn(r)) => SoundRound(reg, s, r);
        case (Returned, _) => ReturnsWithNothingToDial(reg, before);
        case _ =>
      }
    }
  }

  /** The first turn after a successful dial puts the command on the wire for which it was dialled. */
  lemma DialledCommandGoesOut(s: Contact, received: Option<Command>, id: Uuid, at: int, r: Round)
    requires s.phase == Waiting && HasDialWorthy(s.queues) && (s.queues.durable != [] || r.arrivals == [])
    requires |FramesOf(ConnectionTemplate(s.queues).value, 0, id)| <= r.budget
    ensures var s1 := Step(s, Wait(received, Opened(id), at));
            && s1.phase == Connected && s1.sessionId == id
            && s.wire + FramesOf(ConnectionTemplate(s.queues).value, 0, id) <= Step(s1, Turn(r)).wire
  {
    hide *;
    TemplateExists(s.queues);
    NewSession(s, received, id, at);
    var c, s1 := ConnectionTemplate(s.queues).value, Step(s, Wait(received, Opened(id), at));
    var t := TakeAll(s1, r.arrivals);
    TakeAllSilent(s1, r.arrivals);
    TakeAllQuiet(s1, r.arrivals);
    TakeAllSame(s1, r.arrivals);
    TemplateIsWrittenFirst(s1, r.arrivals);
    SameBacked(s1, t, |s.wire|);
    FillWritesHead(t, r.budget, r.at, c, |s.wire|);
    TurnKeepsWritten(s1, r);
  }

  // ---------------------------------------------------------------- questions and answers

  /** What the inbound side of a session, and what the outbound side of one, answers to a frame it reads. */
  function InboundAnswer(f: Frame): Option<Frame> {
    var outbox := ReadFrame(Peer(true, 0, [], [], []), f, "").outbox;
    if outbox == [] then None else Some(outbox[0])
  }

  function OutboundAnswer(f: Frame): Option<Frame> {
    var wire := HandleFrame(Initial(), f, true, true).0.wire;
    if wire == [] then None else Some(wire[0])
  }

  /**
   A probe that is written is settled by the answer of whoever reads its frame, on either side of a session: the
   probe is gone and reported Persisted, with the last endpoint update sent along with it.
   */
  lemma ProbeIsAnswered(s: Contact, c: Command, at: int, answer: Frame, replyOk: bool)
    requires c.delivery.Probe? || c.delivery.EndpointUpdate?
    requires var question := ClosingFrame(c, s.sessionId);
             InboundAnswer(question) == Some(answer) || OutboundAnswer(question) == Some(answer)
    ensures var w := Written(s, c, at);
            && w.wire != [] && w.wire[|w.wire| - 1] == ClosingFrame(c, s.sessionId)
            && var s' := HandleFrame(w, answer, replyOk, true).0;
               && s'.probes == s.probes - {c.sequence}
               && s'.log == s.log + [Acked(c.delivery, Persisted, ActiveOf(c, s.sentSequence, at).endpointSequence)]
  {
    WrittenWire(s, c, at);
    WrittenProbes(s, c, at);
    WrittenEntersWindow(s, c, at);
    hide Written, ActiveOf, UnsentUpdates;
    var w := Written(s, c, at);
    assert w.probes - {c.sequence} == s.probes - {c.sequence};
  }

  lemma ProbesAreQuestions(c: Command, sessionId: Uuid)
    requires c.delivery.Probe? || c.delivery.EndpointUpdate?
    ensures InboundAnswer(ClosingFrame(c, sessionId)).Some? && OutboundAnswer(ClosingFrame(c, sessionId)).Some?
  {
  }

  /** A ping is answered by whoever reads it, and the answer clears it; it waits 15 seconds, the next comes after 25. */
  lemma PingIsAnswered(s: Contact, r: Round)
    ensures var k := SendKeepalive(s, r);
            && k.wire != [] && k.keepalive.Some? && k.keepalive.value.deadline == r.now + 15_000
            && k.nextKeepalive == r.now + 25_000
            && InboundAnswer(k.wire[|k.wire| - 1]).Some? && OutboundAnswer(k.wire[|k.wire| - 1]).Some?
            && forall answer, replyOk: bool, eventsOpen: bool ::
                 Some(answer) in {InboundAnswer(k.wire[|k.wire| - 1]), OutboundAnswer(k.wire[|k.wire| - 1])} ==>
                 HandleFrame(k, answer, replyOk, eventsOpen).0.keepalive.None?
  {
    hide AnswerProbe;
    var k := SendKeepalive(s, r);
    AnswerKeepsKeepalive(k.(keepalive := None), r.nonce);
  }

  /** What a side of a session shows its user about the other side, from a frame that has not expired. */
  datatype Shown = PresenceShown(online: bool, idle: bool) | TypingShown(typing: bool) | FocusShown(focused: bool)

  function ShownFor(f: Frame): Option<Shown> {
    match f
    case PresenceFrame(state, _) => Some(PresenceShown(!state.Offline?, state.Away?))
    case TypingFrame(typing, _) => Some(TypingShown(typing))
    case FocusFrame(focused, _) => Some(FocusShown(focused))
    case _ => None
  }

  /** What a control command tells is what the reader of its only frame shows; not online means idle. */
  lemma ControlIsShown(c: Command, sent: nat, sessionId: Uuid)
    requires IsControl(c.delivery)
    ensures |FramesOf(c, sent, sessionId)| == 1
    ensures ShownFor(FramesOf(c, sent, sessionId)[0]) == Some(
              if c.delivery.Typing? then TypingShown(c.delivery.typing)
              else if c.delivery.ConversationFocus? then FocusShown(c.delivery.focused)
              else PresenceShown(true, !c.delivery.online))
  {
  }

  lemma AnswerKeepsKeepalive(s: Contact, nonce: nat)
    ensures AnswerProbe(s, nonce).keepalive == s.keepalive
  {
  }

  // ---------------------------------------------------------------- endpoint updates of a session

  /** The endpoint updates a session wrote rise strictly, up to the last one it remembers. */
  predicate UpdatesRise(s: Contact, base: nat) {
    && base <= |s.wire|
    && (forall i :: base <= i < |s.wire| && s.wire[i].EndpointUpdateFrame? ==>
          s.wire[i].endpointSequence <= s.sentSequence)
    && (forall i, j :: base <= i < j < |s.wire| && s.wire[i].EndpointUpdateFrame? && s.wire[j].EndpointUpdateFrame? ==>
          s.wire[i].endpointSequence < s.wire[j].endpointSequence)
  }

  lemma WrittenSent(s: Contact, c: Command, at: int)
    ensures Written(s, c, at).sentSequence
            == if IsControl(c.delivery) then s.sentSequence
               else Last(UnsentUpdates(c.endpointUpdates, s.sentSequence), s.sentSequence)
  {
    hide FramesOf, UnsentUpdates;
  }

  lemma FramesRise(s: Contact, c: Command)
    ensures var frames := FramesOf(c, s.sentSequence, s.sessionId);
            var last := if IsControl(c.delivery) then s.sentSequence
                        else Last(UnsentUpdates(c.endpointUpdates, s.sentSequence), s.sentSequence);
            && s.sentSequence <= last
            && (forall i :: 0 <= i < |frames| && frames[i].EndpointUpdateFrame? ==>
                  s.sentSequence < frames[i].endpointSequence <= last)
            && (forall i, j :: 0 <= i < j < |frames| && frames[i].EndpointUpdateFrame? && frames[j].EndpointUpdateFrame?
                  ==> frames[i].endpointSequence < frames[j].endpointSequence)
  {
    EndpointChain.UnsentRises(c.endpointUpdates, s.sentSequence);
    hide UnsentUpdates;
    var unsent := UnsentUpdates(c.endpointUpdates, s.sentSequence);
    assert forall i :: 0 <= i < |unsent| ==> unsent[i] in unsent;
  }

  lemma WrittenRises(s: Contact, rest: Queues, c: Command, at: int, base: nat)
    requires UpdatesRise(s, base)
    ensures UpdatesRise(Written(s.(queues := rest), c, at), base) && Written(s.(queues := rest), c, at).queues == rest
  {
    WrittenWire(s.(queues := rest), c, at);
    WrittenSent(s.(queues := rest), c, at);
    WrittenSpared(s, rest, c, at);
    hide Written, FramesOf, Last;
    FramesRise(s, c);
    var wire, frames := s.wire, FramesOf(c, s.sentSequence, s.sessionId);
    var wire' := wire + frames;
    assert forall i :: 0 <= i < |wire| ==> wire'[i] == wire[i];
    assert forall i :: |wire| <= i < |wire'| ==> wire'[i] == frames[i - |wire|];
  }

  lemma {:induction false} FillRises(s: Contact, budget: nat, at: int, base: nat)
    requires UpdatesRise(s, base)
    ensures Fill(s, budget, at).1 == Filled ==> UpdatesRise(Fill(s, budget, at).0, base)
    decreases QueueSize(s.queues)
  {
    hide *;
    var (next, rest) := PopNext(s.queues);
    PopShrinks(s.queues);
    if |s.active| >= MAX_IN_FLIGHT || next.None? {
      FillNothing(s, budget, at);
    } else {
      var c, frames := next.value, FramesOf(next.value, s.sentSequence, s.sessionId);
      FillOnce(s, budget, at, c, rest);
      if c.endpoint == s.endpoint && |frames| <= budget {
        WrittenRises(s, rest, c, at, base);
        FillRises(Written(s.(queues := rest), c, at), budget - |frames|, at, base);
      }
    }
  }

  /** Between the two states no endpoint update was written. */
  predicate NoUpdates(s: Contact, s': Contact) {
    && s.wire <= s'.wire && s'.sentSequence == s.sentSequence
    && forall i :: |s.wire| <= i < |s'.wire| ==> !s'.wire[i].EndpointUpdateFrame?
  }

  lemma StillRises(s: Contact, s': Contact, base: nat)
    requires UpdatesRise(s, base) && NoUpdates(s, s')
    ensures UpdatesRise(s', base)
  {
    assert forall i :: 0 <= i < |s.wire| ==> s'.wire[i] == s.wire[i];
  }

  lemma HandleFrameUpdates(s: Contact, f: Frame, replyOk: bool, eventsOpen: bool)
    ensures NoUpdates(s, HandleFrame(s, f, replyOk, eventsOpen).0)
  {
    hide Complete;
  }

  lemma SelectUpdates(reg: Registry, s: Contact, r: Round)
    requires Sound(reg, s) && s.phase == Connected
    ensures Select(s, r).phase == Connected ==> NoUpdates(s, Select(s, r))
  {
    hide Conserved, Ledger, InOrder, Typed, HandleFrame, FailSession, Enqueue, Accepts;
    SoundFailSession(reg, s);
    if r.selected.Incoming? {
      var a := s.(lastActivity := r.now);
      SoundElsewhere(reg, s, a);
      HandleFrameUpdates(a, r.selected.frame, r.replyOk, r.eventsOpen);
      SoundHandleFrame(reg, a, r.selected.frame, r.replyOk, r.eventsOpen);
      SoundFailSession(reg, HandleFrame(a, r.selected.frame, r.replyOk, r.eventsOpen).0);
    }
  }

  lemma BeforeSelectUpdates(s: Contact, r: Round)
    ensures NoUpdates(s, BeforeSelect(s, r))
  {
    hide KeysOf, TagsIn, Expired;
  }

  lemma NoUpdatesTwice(a: Contact, b: Contact, c: Contact)
    requires NoUpdates(a, b) && NoUpdates(b, c)
    ensures NoUpdates(a, c)
  {
    assert forall i :: 0 <= i < |b.wire| ==> c.wire[i] == b.wire[i];
  }

  lemma RoundRises(reg: Registry, s: Contact, r: Round, base: nat)
    requires Sound(reg, s) && s.phase == Connected && RoundRegistered(reg, r) && UpdatesRise(s, base)
    ensures ConnectedRound(s, r).phase == Connected ==> UpdatesRise(ConnectedRound(s, r), base)
  {
    hide Conserved, Ledger, InOrder, Typed, UpdatesRise, Fill, AfterFill, TakeAll, Select, BeforeSelect;
    var t := TakeAll(s, r.arrivals);
    SoundTakeAll(reg, s, r.arrivals);
    TakeAllQuiet(s, r.arrivals);
    TakeAllSame(s, r.arrivals);
    StillRises(s, t, base);
    SoundFill(reg, t, r.budget, r.at);
    FillRises(t, r.budget, r.at, base);
    var (f, result) := Fill(t, r.budget, r.at);
    if result == Filled && AfterFill(f, r).phase == Connected {
      AfterFillCases(reg, f, r);
      var b := BeforeSelect(f, r);
      BeforeSelectUpdates(f, r);
      BeforeSelectSound(reg, f, r);
      SelectUpdates(reg, b, r);
      NoUpdatesTwice(f, b, Select(b, r));
      StillRises(f, Select(b, r), base);
    }
  }

  /** In every run, a session writes endpoint updates in strictly rising order, so none twice. */
  lemma {:induction false} UpdatesRiseInEverySession(reg: Registry, inputs: seq<Input>)
    requires AllInputsRegistered(reg, inputs)
    ensures After(inputs).phase == Connected ==> UpdatesRise(After(inputs), SessionBase(inputs))
  {
    if inputs != [] {
      var before, i := inputs[..|inputs| - 1], inputs[|inputs| - 1];
      var s := After(before);
      UpdatesRiseInEverySession(reg, before);
      AfterSnoc(inputs);
      AfterSound(reg, before);
      hide After, Sound, ConnectedRound;
      if s.phase != Connected {
        IdleStep(s, i);
      } else if i.Turn? {
        RoundRises(reg, s, i.round, SessionBase(before));
      }
    }
  }

  // ---------------------------------------------------------------- the three slots

  predicate Replaces(c: Command, d: Command) {
    || (c.delivery.EndpointUpdate? && d.delivery.EndpointUpdate?) || (c.delivery.Probe? && d.delivery.Probe?)
    || (InEphemeralSlot(c) && InEphemeralSlot(d))
  }

  predicate InEphemeralSlot(c: Command) {
    !c.delivery.Tracked() && !c.delivery.EndpointUpdate? && !c.delivery.Probe?
  }

  predicate Waits(q: Queues, c: Command) {
    q.endpointUpdate == Some(c) || q.probe == Some(c) || q.ephemeral == Some(c)
  }

  /** Of commands that are not queued the latest of each kind waits, and only it. */
  lemma {:induction false} LatestWaits(s: Contact, cs: seq<Command>, k: nat)
    requires k < |cs| && !cs[k].delivery.Tracked()
    requires forall j :: k < j < |cs| ==> !Replaces(cs[j], cs[k])
    ensures Waits(TakeAll(s, cs).queues, cs[k])
    decreases |cs|
  {
    if k == 0 {
      StaysWaiting(Take(s, cs[0]), cs[1..], cs[0]);
    } else {
      LatestWaits(Take(s, cs[0]), cs[1..], k - 1);
    }
  }

  lemma {:induction false} StaysWaiting(s: Contact, cs: seq<Command>, c: Command)
    requires !c.delivery.Tracked()
    requires forall j :: 0 <= j < |cs| ==> !Replaces(cs[j], c)
    requires if c.delivery.EndpointUpdate? then s.queues.endpointUpdate == Some(c)
             else if c.delivery.Probe? then s.queues.probe == Some(c) else s.queues.ephemeral == Some(c)
    ensures Waits(TakeAll(s, cs).queues, c)
    decreases |cs|
  {
    if cs != [] { StaysWaiting(Take(s, cs[0]), cs[1..], c); }
  }
}
