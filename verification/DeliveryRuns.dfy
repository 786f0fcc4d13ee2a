/** The delivery task over whole runs: conservation, the durability boundary, wire order and clean exits. */
module DeliveryRuns {
  import opened Foundation
  import opened PeerTypes
  import opened Delivery
  import opened DeliveryLedger
  import opened DeliveryOrder

  ghost predicate Sound(reg: Registry, s: Contact) {
    Inv(reg, s) && InOrder(s)
  }

  predicate RoundRegistered(reg: Registry, r: Round) {
    && AllRegistered(reg, r.arrivals)
    && (r.selected.FromChannel? ==> Registered(reg, r.selected.command))
  }

  predicate InputRegistered(reg: Registry, i: Input) {
    match i
    case Drain(cs) => AllRegistered(reg, cs)
    case Wait(received, _, _) => SlotRegistered(reg, received)
    case Turn(r) => RoundRegistered(reg, r)
  }

  // ---------------------------------------------------------------- one turn

  lemma SoundTake(reg: Registry, s: Contact, c: Command)
    requires Sound(reg, s) && Registered(reg, c)
    ensures Sound(reg, Take(s, c)) && Take(s, c).phase == s.phase
  {
    hide Conserved, Ledger, InOrder;
    TakeKeeps(reg, s, c);
    TakeKeepsOrder(s, c);
  }

  lemma {:induction false} SoundTakeAll(reg: Registry, s: Contact, cs: seq<Command>)
    requires Sound(reg, s) && AllRegistered(reg, cs)
    ensures Sound(reg, TakeAll(s, cs)) && TakeAll(s, cs).phase == s.phase
    decreases |cs|
  {
    hide Conserved, Ledger, InOrder;
    if cs != [] {
      SoundTake(reg, s, cs[0]);
      SoundTakeAll(reg, Take(s, cs[0]), cs[1..]);
    }
  }

  lemma SoundFailSession(reg: Registry, s: Contact)
    requires Sound(reg, s)
    ensures Sound(reg, FailSession(s)) && FailSession(s).phase == Top && FailSession(s).queues == EMPTY_QUEUES
  {
    hide Conserved, Ledger, InOrder;
    FailSessionKeeps(reg, s);
    FailSessionKeepsOrder(s);
  }

  lemma SoundRelease(reg: Registry, s: Contact, waiters: set<Uuid>)
    requires Sound(reg, s)
    ensures Sound(reg, Release(s, waiters)) && Release(s, waiters).phase == s.phase
  {
    hide Conserved, Ledger, InOrder;
    ReleaseKeeps(reg, s, waiters);
    ReleaseKeepsOrder(s, waiters);
  }

  /** Only fields outside the ledger differ. */
  predicate SameLedger(s: Contact, s': Contact) {
    && s'.queues == s.queues && s'.active == s.active && s'.awaiting == s.awaiting
    && s'.probes == s.probes && s'.log == s.log
  }

  lemma SoundElsewhere(reg: Registry, s: Contact, s': Contact)
    requires Sound(reg, s) && SameLedger(s, s')
    requires s'.phase == Connected || (s.active == map[] && s.awaiting == map[])
    ensures Sound(reg, s')
  {
    SameDeliveriesKeeps(s, s');
  }

  lemma SoundDisconnect(reg: Registry, s: Contact)
    requires Sound(reg, s) && s.active == map[] && s.awaiting == map[]
    ensures Sound(reg, Disconnect(s))
  {
    SameDeliveriesKeeps(s, Disconnect(s));
  }

  /** Putting a popped command back restores the queues exactly. */
  lemma PutBack(q: Queues)
    requires SlotsTyped(q) && PopNext(q).0.Some?
    ensures PushFront(PopNext(q).1, PopNext(q).0.value) == q
  {
    var c := PopNext(q).0.value;
    if c.delivery.Tracked() {
      assert [c] + q.durable[1..] == q.durable;
    }
  }

  lemma SoundEndpointChange(reg: Registry, s: Contact)
    requires Sound(reg, s) && s.active == map[]
    ensures Sound(reg, Disconnect(ReleaseAll(s))) && Disconnect(ReleaseAll(s)).queues.durable == s.queues.durable
  {
    hide Conserved, Ledger, InOrder;
    SoundRelease(reg, s, s.awaiting.Keys);
    assert s.awaiting - s.awaiting.Keys == map[];
    SoundDisconnect(reg, ReleaseAll(s));
  }

  lemma SoundWritten(reg: Registry, s: Contact, c: Command, at: int)
    requires Sound(reg, s) && s.phase == Connected && s.active == map[] && PopNext(s.queues).0 == Some(c)
    ensures Sound(reg, Written(s.(queues := PopNext(s.queues).1), c, at))
    ensures Written(s.(queues := PopNext(s.queues).1), c, at).phase == Connected
    ensures Written(s.(queues := PopNext(s.queues).1), c, at).queues == PopNext(s.queues).1
  {
    hide Conserved, Ledger, InOrder;
    WrittenEntersWindow(s.(queues := PopNext(s.queues).1), c, at);
    WrittenKeeps(reg, s, c, at);
    WrittenKeepsOrder(reg, s, c, at);
  }

  lemma SoundFailPopped(reg: Registry, s: Contact, c: Command, p: Contact)
    requires Sound(reg, s) && PopNext(s.queues).0 == Some(c)
    requires p == FailPopped(s.(queues := PopNext(s.queues).1), c.delivery)
    ensures Sound(reg, p) && p.phase == s.phase && p.active == s.active && p.awaiting == s.awaiting
  {
    hide Conserved, Ledger, InOrder;
    FailPoppedKeeps(reg, s, c);
    FailPoppedKeepsOrder(s, c);
  }

  lemma SoundWriteFailure(reg: Registry, s: Contact, c: Command, written: seq<Frame>)
    requires Sound(reg, s) && s.phase == Connected && PopNext(s.queues).0 == Some(c)
    ensures var f := FailSession(FailPopped(s.(queues := PopNext(s.queues).1, wire := s.wire + written), c.delivery));
            Sound(reg, f) && f.phase == Top && f.queues == EMPTY_QUEUES
  {
    hide Conserved, Ledger, InOrder;
    var p := FailPopped(s.(queues := PopNext(s.queues).1), c.delivery);
    SoundFailPopped(reg, s, c, p);
    var p' := FailPopped(s.(queues := PopNext(s.queues).1, wire := s.wire + written), c.delivery);
    SoundElsewhere(reg, p, p');
    SoundFailSession(reg, p');
  }

  lemma {:induction false} SoundFill(reg: Registry, s: Contact, budget: nat, at: int)
    requires Sound(reg, s) && s.phase == Connected
    ensures var (s', r) := Fill(s, budget, at);
            Sound(reg, s') && s'.phase == if r == Filled then Connected else Top
    decreases QueueSize(s.queues)
  {
    hide Conserved, Ledger, InOrder, FramesOf, Written, FailSession, FailPopped, ReleaseAll;
    var (next, rest) := PopNext(s.queues);
    PopShrinks(s.queues);
    if |s.active| < MAX_IN_FLIGHT && next.Some? {
      assert s.active == map[];
      var c := next.value;
      if c.endpoint != s.endpoint {
        PutBack(s.queues);
        assert s.(queues := PushFront(rest, c)) == s;
        SoundEndpointChange(reg, s);
      } else if |FramesOf(c, s.sentSequence, s.sessionId)| <= budget {
        SoundWritten(reg, s, c, at);
        SoundFill(reg, Written(s.(queues := rest), c, at), budget - |FramesOf(c, s.sentSequence, s.sessionId)|, at);
      } else {
        SoundWriteFailure(reg, s, c, FramesOf(c, s.sentSequence, s.sessionId)[..budget]);
      }
    }
  }

  lemma SoundAck(reg: Registry, s: Contact, u: Uuid, kind: AckKind)
    requires Inv(reg, s) && KnowsDelivery(s, u)
    ensures Inv(reg, ApplyAck(s, u, kind)) && ApplyAck(s, u, kind).phase == s.phase
  {
    hide Conserved, Ledger, InOrder;
    ApplyAckKeeps(reg, s, u, kind);
  }

  lemma SoundPong(reg: Registry, s: Contact, nonce: nat)
    requires Sound(reg, s) && s.phase == Connected
    ensures var s' := HandleFrame(s, Pong(nonce), true, true).0; Inv(reg, s') && s'.phase == Connected
  {
    hide Conserved, Ledger, InOrder;
    var cleared := s.(keepalive := None);
    SoundElsewhere(reg, s, cleared);
    AnswerProbeKeeps(reg, s, nonce);
    AnswerProbeKeeps(reg, cleared, nonce);
  }

  lemma SoundHandleFrame(reg: Registry, s: Contact, f: Frame, replyOk: bool, eventsOpen: bool)
    requires Sound(reg, s) && s.phase == Connected
    ensures var (s', ok) := HandleFrame(s, f, replyOk, eventsOpen); Sound(reg, s') && s'.phase == Connected
  {
    hide Conserved, Ledger, InOrder;
    HandleFrameKeepsOrder(s, f, replyOk, eventsOpen);
    if f.AckFrame? {
      if KnowsDelivery(s, f.ack.messageId) { SoundAck(reg, s, f.ack.messageId, f.ack.kind); }
    } else if f.Pong? {
      SoundPong(reg, s, f.nonce);
    } else if f.ProbeResponse? {
      AnswerProbeKeeps(reg, s, f.nonce);
    } else if f.Ping? || f.ProbeRequest? {
      SoundElsewhere(reg, s, HandleFrame(s, f, replyOk, eventsOpen).0);
    }
  }

  lemma SoundSelect(reg: Registry, s: Contact, r: Round)
    requires Sound(reg, s) && s.phase == Connected && RoundRegistered(reg, r)
    ensures Sound(reg, Select(s, r)) && (Select(s, r).phase == Connected || Select(s, r).phase == Top)
  {
    hide Conserved, Ledger, InOrder, Typed, Take, HandleFrame, FailSession;
    match r.selected {
      case FromChannel(c) => if s.channelOpen { SoundTake(reg, s, c); }
      case ChannelClosed => SoundElsewhere(reg, s, s.(channelOpen := false));
      case StreamBroken => SoundFailSession(reg, s);
      case Incoming(f) =>
        SoundElsewhere(reg, s, s.(lastActivity := r.now));
        SoundHandleFrame(reg, s.(lastActivity := r.now), f, r.replyOk, r.eventsOpen);
        SoundFailSession(reg, HandleFrame(s.(lastActivity := r.now), f, r.replyOk, r.eventsOpen).0);
      case Tick =>
    }
  }

  lemma SoundAfterFill(reg: Registry, s: Contact, r: Round)
    requires Sound(reg, s) && s.phase == Connected && RoundRegistered(reg, r)
    ensures Sound(reg, AfterFill(s, r)) && (AfterFill(s, r).phase == Connected || AfterFill(s, r).phase == Top)
  {
    hide Conserved, Ledger, InOrder;
    SoundRelease(reg, s, Expired(s, r.now));
    var a := Release(s, Expired(s, r.now));
    SoundFailSession(reg, a);
    SoundElsewhere(reg, a, SendKeepalive(a, r));
    var b := if r.now >= a.nextKeepalive then SendKeepalive(a, r) else a;
    if Quiescent(b) { SoundDisconnect(reg, b); }
    SoundSelect(reg, b, r);
  }

  lemma SoundRound(reg: Registry, s: Contact, r: Round)
    requires Sound(reg, s) && s.phase == Connected && RoundRegistered(reg, r)
    ensures Sound(reg, ConnectedRound(s, r))
    ensures ConnectedRound(s, r).phase == Connected || ConnectedRound(s, r).phase == Top
  {
    hide Conserved, Ledger, InOrder;
    SoundTakeAll(reg, s, r.arrivals);
    SoundFill(reg, TakeAll(s, r.arrivals), r.budget, r.at);
    var (f, result) := Fill(TakeAll(s, r.arrivals), r.budget, r.at);
    if result == Filled { SoundAfterFill(reg, f, r); }
  }

  lemma SoundDial(reg: Registry, s: Contact, dialled: Dialled, at: int)
    requires Sound(reg, s) && s.phase == Waiting && HasDialWorthy(s.queues)
    ensures var s' := WaitStep(s, None, dialled, at); Sound(reg, s') && s'.phase != Returned
  {
    hide Conserved, Ledger, InOrder;
    match dialled {
      case Refused =>
        FailQueuedKeeps(reg, s);
        FailQueuedKeepsOrder(s);
        SoundElsewhere(reg, FailQueued(s), FailQueued(s).(phase := Top));
      case Opened(id) =>
        assert SameLedger(s, Connect(s, id, at).(probes := s.probes));
        SoundElsewhere(reg, s, Connect(s, id, at).(probes := s.probes));
        SoundNoProbes(reg, Connect(s, id, at).(probes := s.probes));
    }
  }

  lemma SoundNoProbes(reg: Registry, s: Contact)
    requires Sound(reg, s)
    ensures Sound(reg, s.(probes := map[]))
  {
    SameDeliveriesKeeps(s, s.(probes := map[]));
  }

  lemma SoundWait(reg: Registry, s: Contact, received: Option<Command>, dialled: Dialled, at: int)
    requires Sound(reg, s) && s.phase == Waiting && SlotRegistered(reg, received)
    ensures Sound(reg, WaitStep(s, received, dialled, at))
    ensures WaitStep(s, received, dialled, at).phase == Returned
            ==> WaitStep(s, received, dialled, at).queues.durable == []
  {
    hide Conserved, Ledger, InOrder;
    if HasDialWorthy(s.queues) {
      SoundDial(reg, s, dialled, at);
    } else if !s.channelOpen || received.None? {
      SoundElsewhere(reg, s, s.(phase := Returned));
    } else {
      SoundTake(reg, s, received.value);
      SoundDropEphemeral(reg, Take(s, received.value));
    }
  }

  lemma SoundDropEphemeral(reg: Registry, t: Contact)
    requires Sound(reg, t)
    ensures Sound(reg, t.(queues := t.queues.(ephemeral := None)))
  {
    SameDeliveriesKeeps(t, t.(queues := t.queues.(ephemeral := None)));
  }

  /** Nothing tracked survives the contact task. */
  predicate LeavesNothing(s: Contact) {
    s.phase == Returned ==> s.queues.durable == []
  }

  lemma SoundStep(reg: Registry, s: Contact, i: Input)
    requires Sound(reg, s) && LeavesNothing(s) && InputRegistered(reg, i)
    ensures Sound(reg, Step(s, i)) && LeavesNothing(Step(s, i))
  {
    hide Conserved, Ledger, InOrder;
    match (s.phase, i) {
      case (Top, Drain(cs)) =>
        SoundTakeAll(reg, s, cs);
        SoundElsewhere(reg, TakeAll(s, cs), TakeAll(s, cs).(phase := Waiting));
      case (Waiting, Wait(received, dialled, at)) => SoundWait(reg, s, received, dialled, at);
      case (Connected, Turn(r)) => SoundRound(reg, s, r);
      case _ =>
    }
  }

  lemma {:induction false} SoundRun(reg: Registry, s: Contact, inputs: seq<Input>)
    requires Sound(reg, s) && LeavesNothing(s)
    requires forall i :: 0 <= i < |inputs| ==> InputRegistered(reg, inputs[i])
    ensures Sound(reg, Run(s, inputs)) && LeavesNothing(Run(s, inputs))
    decreases |inputs|
  {
    hide Conserved, Ledger, InOrder;
    if inputs != [] {
      SoundStep(reg, s, inputs[0]);
      SoundRun(reg, Step(s, inputs[0]), inputs[1..]);
    }
  }

  lemma SoundInitially(reg: Registry)
    ensures Sound(reg, Initial())
  {
    assert TagsIn(Initial().active) == {} && TagsOf(Initial().queues.durable) == {};
  }

  // ---------------------------------------------------------------- what a whole run guarantees

  /** Entries that end the contact task's responsibility for a delivery. */
  predicate Persists(e: Entry, t: DeliveryTag) { e.Acked? && e.tag == t && e.kind == Persisted }

  predicate Concludes(e: Entry, t: DeliveryTag) {
    || e == BackedOff(t)
    || (e.Acked? && e.tag == t && (e.kind == Delivered || e.kind == Rejected || (e.kind == Persisted && !t.Message?)))
    || (e.Released? && t in e.tags)
  }

  function AcceptedCount(log: seq<Entry>, t: DeliveryTag): nat
    decreases |log|
  {
    if log == [] then 0
    else AcceptedCount(log[..|log| - 1], t) + if log[|log| - 1] == Accepted(t) then 1 else 0
  }

  function ConcludedCount(log: seq<Entry>, t: DeliveryTag): nat
    decreases |log|
  {
    if log == [] then 0
    else ConcludedCount(log[..|log| - 1], t) + if Concludes(log[|log| - 1], t) then 1 else 0
  }

  lemma {:induction false} CountsBalance(log: seq<Entry>, t: DeliveryTag)
    requires Life(log, t) != Broken
    ensures AcceptedCount(log, t) == ConcludedCount(log, t) + if Life(log, t) == Absent then 0 else 1
    decreases |log|
  {
    if log != [] {
      var before, e := log[..|log| - 1], log[|log| - 1];
      AdvanceConcludes(Life(before, t), e, t);
      hide Concludes, Advance;
      CountsBalance(before, t);
    }
  }

  /** A delivery becomes present exactly by an acceptance and absent exactly by a conclusion. */
  lemma AdvanceConcludes(stage: Stage, e: Entry, t: DeliveryTag)
    requires Advance(stage, e, t) != Broken
    ensures stage != Broken && !(e == Accepted(t) && Concludes(e, t))
    ensures e == Accepted(t) ==> stage == Absent && Advance(stage, e, t) != Absent
    ensures Concludes(e, t) ==> stage != Absent && Advance(stage, e, t) == Absent
    ensures e != Accepted(t) && !Concludes(e, t) ==> (stage == Absent <==> Advance(stage, e, t) == Absent)
  {
  }

  function Holds(s: Contact, t: DeliveryTag): nat {
    (if t in TagsOf(s.queues.durable) then 1 else 0)
    + (if t in TagsIn(s.active) then 1 else 0)
    + (if t in TagsIn(s.awaiting) then 1 else 0)
  }

  ghost predicate Reachable(reg: Registry, s: Contact) {
    exists inputs: seq<Input> ::
      && (forall i :: 0 <= i < |inputs| ==> InputRegistered(reg, inputs[i]))
      && s == Run(Initial(), inputs)
  }

  lemma ReachableSound(reg: Registry, s: Contact)
    requires Reachable(reg, s)
    ensures Sound(reg, s) && LeavesNothing(s)
  {
    hide Conserved, Ledger, InOrder;
    var inputs: seq<Input> :|
      && (forall i :: 0 <= i < |inputs| ==> InputRegistered(reg, inputs[i]))
      && s == Run(Initial(), inputs);
    SoundInitially(reg);
    SoundRun(reg, Initial(), inputs);
  }

  /**
   In every reachable state each tracked delivery sits in at most one of queue, window and waiters, and the
   number of times it was accepted is the number of times it was concluded plus what is still held.
   */
  lemma Conservation(reg: Registry, s: Contact, t: DeliveryTag)
    requires Reachable(reg, s) && t.Tracked()
    ensures AcceptedCount(s.log, t) == ConcludedCount(s.log, t) + Holds(s, t)
    ensures Holds(s, t) <= 1
    ensures DistinctTags(s.queues.durable) && |s.active| <= 1
  {
    ReachableSound(reg, s);
    assert Placed(s, t, Life(s.log, t));
    CountsBalance(s.log, t);
  }

  /** The dedupe set holds exactly the keys of what is queued, in flight or awaiting delivery. */
  lemma DedupeIsTheLedger(reg: Registry, s: Contact)
    requires Reachable(reg, s)
    ensures forall t: DeliveryTag :: Blocks(s.queues, t) <==> t.Tracked() && Holds(s, t) == 1
    ensures forall k :: k in s.queues.dedupe ==> exists t: DeliveryTag :: t.Tracked() && t.DedupeKey() == Some(k)
    ensures s.phase == Returned ==> s.queues.dedupe == {}
  {
    ReachableSound(reg, s);
    forall t: DeliveryTag ensures Blocks(s.queues, t) <==> t.Tracked() && Holds(s, t) == 1 {
      if t.Tracked() { assert Placed(s, t, Life(s.log, t)); }
    }
    forall k | k in s.queues.dedupe ensures exists t: DeliveryTag :: t.Tracked() && t.DedupeKey() == Some(k) {
      var t: DeliveryTag :| t.DedupeKey() == Some(k);
      assert Blocks(s.queues, t);
    }
    if s.phase == Returned { NothingBlocked(reg, s); }
  }

  lemma {:induction false} PersistedStays(log: seq<Entry>, t: DeliveryTag, i: nat)
    requires i < |log| && Persists(log[i], t) && Life(log, t) != Broken
    requires forall k :: i < k < |log| ==> log[k] != Accepted(t)
    ensures Life(log, t) == Durable || Life(log, t) == Absent
    decreases |log|
  {
    if i + 1 < |log| { PersistedStays(log[..|log| - 1], t, i); }
  }

  lemma {:induction false} NeverBroken(log: seq<Entry>, t: DeliveryTag, n: nat)
    requires n <= |log| && Life(log, t) != Broken
    ensures Life(log[..n], t) != Broken
    decreases |log|
  {
    if n == |log| {
      assert log[..n] == log;
    } else {
      NeverBroken(log[..|log| - 1], t, n);
      assert log[..|log| - 1][..n] == log[..n];
    }
  }

  lemma BackoffNeedsAcceptance(log: seq<Entry>, t: DeliveryTag, i: nat, j: nat)
    requires Life(log, t) != Broken
    requires i < j < |log| && Persists(log[i], t) && log[j] == BackedOff(t)
    ensures exists k :: i < k < j && log[k] == Accepted(t)
  {
    NeverBroken(log, t, j);
    NeverBroken(log, t, j + 1);
    var before := log[..j];
    assert log[..j + 1][..j] == before;
    if forall k :: i < k < j ==> log[k] != Accepted(t) {
      PersistedStays(before, t, i);
    }
  }

  /**
   Persisted is a durability boundary: once a Persisted acknowledgement was reported, the same acceptance is
   never reported as a Backoff failure, whatever happens to the socket.
   */
  lemma DurabilityBoundary(reg: Registry, s: Contact, t: DeliveryTag, i: nat, j: nat)
    requires Reachable(reg, s) && t.Tracked()
    requires i < j < |s.log| && Persists(s.log[i], t) && s.log[j] == BackedOff(t)
    ensures exists k :: i < k < j && s.log[k] == Accepted(t)
  {
    assert Life(s.log, t) != Broken by {
      ReachableSound(reg, s);
      assert Placed(s, t, Life(s.log, t));
    }
    BackoffNeedsAcceptance(s.log, t, i, j);
  }

  /** Across pops, put-backs and reconnects, tracked envelopes are written in acceptance order, one at a time. */
  lemma WireOrder(reg: Registry, s: Contact)
    requires Reachable(reg, s)
    ensures Increasing(WrittenTickets(s.log)) && OneAtATime(s.log)
  {
    ReachableSound(reg, s);
  }

  /** Every error exit of a session leaves no delivery blocked. */
  lemma ErrorExitUnblocks(reg: Registry, s: Contact)
    requires Reachable(reg, s)
    ensures FailSession(s).queues == EMPTY_QUEUES
    ensures forall t: DeliveryTag :: t.Tracked() ==>
              AcceptedCount(FailSession(s).log, t) == ConcludedCount(FailSession(s).log, t)
  {
    ReachableSound(reg, s);
    FailSessionKeeps(reg, s);
    forall t: DeliveryTag | t.Tracked()
      ensures AcceptedCount(FailSession(s).log, t) == ConcludedCount(FailSession(s).log, t)
    {
      CountsBalance(FailSession(s).log, t);
    }
  }

  /** A tracked template stays the first command to be written, whatever arrives while dialling. */
  lemma {:induction false} TemplateIsWrittenFirst(s: Contact, arrivals: seq<Command>)
    requires HasDialWorthy(s.queues)
    requires s.queues.durable != [] || arrivals == []
    ensures PopNext(TakeAll(s, arrivals).queues).0 == ConnectionTemplate(s.queues)
    decreases |arrivals|
  {
    if arrivals != [] {
      var c := arrivals[0];
      assert Take(s, c).queues.durable[0] == s.queues.durable[0];
      TemplateIsWrittenFirst(Take(s, c), arrivals[1..]);
    }
  }

  // ---------------------------------------------------------------- one envelope id for two deliveries

  /** A connected session with an empty window, the given messages queued, and nothing near a time-out at time zero. */
  predicate Idling(s: Contact, queued: seq<Command>) {
    && s.phase == Connected && s.active == map[] && s.queues.durable == queued && s.sessionId == "s"
    && s.nextKeepalive > 0 && s.keepalive.None? && s.probes == map[]
    && (forall u :: u in s.awaiting ==> s.awaiting[u].sentAt == 0)
    && (forall i :: 0 <= i < |queued| ==>
          && queued[i].delivery.Message? && queued[i].endpoint == s.endpoint && queued[i].endpointUpdates == [])
  }

  function PersistedAck(c: Command): Frame { AckFrame(Ack("s", c.messageId, Persisted, Sha256(c.ciphertext))) }

  function WriteAndPersist(c: Command): Round { Round([], 1, 0, 0, 0, true, true, true, Incoming(PersistedAck(c))) }

  lemma WritesOne(s: Contact, queued: seq<Command>)
    requires Idling(s, queued) && queued != []
    ensures Fill(s, 1, 0) == (Written(s.(queues := s.queues.(durable := queued[1..])), queued[0], 0), Filled)
  {
    var c := queued[0];
    assert UnsentUpdates(c.endpointUpdates, s.sentSequence) == [];
    assert |FramesOf(c, s.sentSequence, s.sessionId)| == 1;
    var w := Written(s.(queues := s.queues.(durable := queued[1..])), c, 0);
    assert w.active == map[c.messageId := ActiveOf(c, s.sentSequence, 0)];
    assert Fill(w, 0, 0) == (w, Filled);
  }

  /** In one turn the head of the queue is written and reported persisted; it then waits under its envelope id. */
  lemma WrittenThenWaits(s: Contact, queued: seq<Command>) returns (s': Contact)
    requires Idling(s, queued) && queued != []
    ensures s' == Step(s, Turn(WriteAndPersist(queued[0]))) && Idling(s', queued[1..])
    ensures s'.queues.dedupe == s.queues.dedupe
    ensures s'.awaiting.Keys == s.awaiting.Keys + {queued[0].messageId}
    ensures s'.awaiting[queued[0].messageId].delivery == queued[0].delivery
  {
    hide *;
    var c, r := queued[0], WriteAndPersist(queued[0]);
    var w := Written(s.(queues := s.queues.(durable := queued[1..])), c, 0);
    WritesOne(s, queued);
    WrittenShape(s, queued, w);
    PersistsInTurn(w, c, ActiveOf(c, s.sentSequence, 0), r);
    TurnIs(s, queued, w);
    s' := AfterFill(w, r);
    IdlesOn(s, s', queued, ActiveOf(c, s.sentSequence, 0));
  }

  lemma WrittenShape(s: Contact, queued: seq<Command>, w: Contact)
    requires Idling(s, queued) && queued != []
    requires w == Written(s.(queues := s.queues.(durable := queued[1..])), queued[0], 0)
    ensures var c := queued[0];
            var d := ActiveOf(c, s.sentSequence, 0);
            && c.delivery.Message? && d.delivery == c.delivery && d.expectedHash == Sha256(c.ciphertext)
            && d.sentAt == 0
            && w.active == map[c.messageId := d] && w.awaiting == s.awaiting && w.phase == Connected
            && w.sessionId == "s"
            && w.queues == s.queues.(durable := queued[1..]) && w.endpoint == s.endpoint && w.probes == map[]
            && w.nextKeepalive == s.nextKeepalive > 0 && w.keepalive.None?
            && (forall u :: u in w.awaiting ==> w.awaiting[u].sentAt == 0)
  {
    hide FramesOf;
  }

  lemma TurnIs(s: Contact, queued: seq<Command>, w: Contact)
    requires Idling(s, queued) && queued != [] && Fill(s, 1, 0) == (w, Filled)
    ensures Step(s, Turn(WriteAndPersist(queued[0]))) == AfterFill(w, WriteAndPersist(queued[0]))
  {
    hide Fill, AfterFill;
    assert TakeAll(s, []) == s;
  }

  lemma IdlesOn(s: Contact, s': Contact, queued: seq<Command>, d: ActiveDelivery)
    requires Idling(s, queued) && queued != [] && d.sentAt == 0
    requires s'.active == map[] && s'.awaiting == s.awaiting[queued[0].messageId := d]
    requires s'.queues.durable == queued[1..]
    requires s'.phase == Connected && s'.sessionId == "s" && s'.endpoint == s.endpoint
    requires s'.nextKeepalive > 0 && s'.keepalive.None? && s'.probes == map[]
    ensures Idling(s', queued[1..]) && s'.awaiting.Keys == s.awaiting.Keys + {queued[0].messageId}
  {
  }

  lemma PersistsInTurn(w: Contact, c: Command, d: ActiveDelivery, r: Round)
    requires c.delivery.Message? && r == WriteAndPersist(c) && w.active == map[c.messageId := d] && w.sessionId == "s"
    requires d.delivery == c.delivery && d.expectedHash == Sha256(c.ciphertext) && d.sentAt == 0
    requires w.nextKeepalive > 0 && w.keepalive.None? && w.probes == map[]
    requires forall u :: u in w.awaiting ==> w.awaiting[u].sentAt == 0
    ensures var s' := AfterFill(w, r);
            && s'.active == map[] && s'.awaiting == w.awaiting[c.messageId := d] && s'.queues == w.queues
            && s'.phase == w.phase && s'.sessionId == w.sessionId && s'.endpoint == w.endpoint
            && s'.nextKeepalive == w.nextKeepalive && s'.keepalive.None? && s'.probes == map[]
  {
    var a := Release(w, Expired(w, 0));
    assert Expired(w, 0) == {};
    assert a.awaiting == w.awaiting && a.active == w.active;
    assert TagsIn(map u | u in w.awaiting && u in Expired(w, 0) :: w.awaiting[u]) == {};
    assert a.queues == w.queues by { assert KeysOf({}) == {}; }
    hide Release, Expired, FailSession;
    assert c.messageId in a.active;
    assert !KeepaliveTimedOut(a, 0) && !InFlightTimedOut(a, 0) && !Quiescent(a);
    var b := a.(lastActivity := 0);
    assert w.active - {c.messageId} == map[];
    assert HandleFrame(b, PersistedAck(c), true, true) == (ApplyAck(b, c.messageId, Persisted), true);
  }

  /**
   The registry assumption is needed. This run sends two messages under one envelope id: the second Persisted
   acknowledgement overwrites the first waiter, which is then held nowhere while its key stays blocked for good.
   */
  lemma SharedEnvelopeIdStrandsAKey() returns (inputs: seq<Input>, s: Contact)
    ensures s == Run(Initial(), inputs)
    ensures Holds(s, Message("a")) == 0 && Blocks(s.queues, Message("a"))
  {
    var peer := PeerAddress("i", "k", "o", 443, 1);
    var c1, c2 := Command(peer, [], "u", 1, [1], Message("a")), Command(peer, [], "u", 2, [2], Message("b"));
    var s1 := BothQueued(c1, c2);
    var s2 := Connect(s1, "s", 0);
    assert Step(s1, Wait(None, Opened("s"), 0)) == s2;
    hide Fill, AfterFill;
    var s3 := WrittenThenWaits(s2, [c1, c2]);
    assert [c1, c2][1..] == [c2];
    s := WrittenThenWaits(s3, [c2]);
    inputs := [Drain([c1, c2]), Wait(None, Opened("s"), 0), Turn(WriteAndPersist(c1)), Turn(WriteAndPersist(c2))];
    FourSteps(Initial(), inputs);
    assert TagsIn(s.awaiting) == {Message("b")} by { assert s.awaiting["u"].delivery == Message("b"); }
    assert TagsOf(s.queues.durable) == {};
  }

  lemma BothQueued(c1: Command, c2: Command) returns (s: Contact)
    requires c1.delivery == Message("a") && c2.delivery == Message("b")
    ensures s == Step(Initial(), Drain([c1, c2])) && s.phase == Waiting && s.queues.durable == [c1, c2]
    ensures Blocks(s.queues, Message("a"))
  {
    assert [c1, c2][1..] == [c2] && [c2][1..] == [];
    var t := Take(Initial(), c1);
    if Message("a").DedupeKey() == Message("b").DedupeKey() { DedupeKeyInjective(Message("a"), Message("b")); }
    hide DeliveryTag.DedupeKey;
    assert TakeAll(Take(t, c2), []) == Take(t, c2);
    assert TakeAll(t, [c2]) == Take(t, c2);
    s := Step(Initial(), Drain([c1, c2]));
  }

  lemma FourSteps(s: Contact, inputs: seq<Input>)
    requires |inputs| == 4
    ensures Run(s, inputs) == Step(Step(Step(Step(s, inputs[0]), inputs[1]), inputs[2]), inputs[3])
  {
    hide Step;
    var i1, i2, i3 := inputs[1..], inputs[1..][1..], inputs[1..][1..][1..];
    assert i1[0] == inputs[1] && i2[0] == inputs[2] && i3[0] == inputs[3] && i3[1..] == [];
    var s1 := Step(s, inputs[0]);
    var s2 := Step(s1, inputs[1]);
    var s3 := Step(s2, inputs[2]);
    assert Run(s3, i3) == Step(s3, inputs[3]);
    assert Run(s2, i2) == Run(s3, i3);
    assert Run(s1, i1) == Run(s2, i2);
  }
}
