/**
 What one turn of a connected session may leave behind, and what may end it: nothing stays overdue, and nothing fails,
 closes or is given up without a cause.
 */
module DeliveryTurns {
  import opened Foundation
  import opened PeerTypes
  import opened Delivery
  import opened DeliveryLedger
  import opened DeliveryOrder
  import opened DeliveryRuns
  import opened PeerWire
  import opened PeerLink
  import opened DeliveryReports

  // ---------------------------------------------------------------- small facts

  lemma {:induction false} TakeAllSame(s: Contact, cs: seq<Command>)
    ensures var t := TakeAll(s, cs);
            t.endpoint == s.endpoint && t.sentSequence == s.sentSequence && t.lastActivity == s.lastActivity
    decreases |cs|
  {
    hide Enqueue, Accepts;
    if cs != [] { TakeAllSame(Take(s, cs[0]), cs[1..]); }
  }

  lemma SilentWire(s: Contact, s': Contact)
    requires Silent(s, s')
    ensures s.wire <= s'.wire
  {
  }

  lemma BeforeSelectSound(reg: Registry, s: Contact, r: Round)
    requires Sound(reg, s) && s.phase == Connected
    ensures Sound(reg, BeforeSelect(s, r)) && BeforeSelect(s, r).phase == Connected
  {
    hide Conserved, Ledger, InOrder, Typed;
    SoundRelease(reg, s, Expired(s, r.now));
    SoundElsewhere(reg, Release(s, Expired(s, r.now)), BeforeSelect(s, r));
  }

  // ---------------------------------------------------------------- nothing stays overdue

  /** At this time nothing sent has waited for 60 seconds, no ping is past its deadline, and the next ping is ahead. */
  predicate OnTime(s: Contact, now: int) {
    && (forall u :: u in s.active ==> now - s.active[u].sentAt < ACK_TIMEOUT)
    && (forall u :: u in s.awaiting ==> now - s.awaiting[u].sentAt < ACK_TIMEOUT)
    && (forall n :: n in s.probes ==> now - s.probes[n].sentAt < ACK_TIMEOUT)
    && (s.keepalive.Some? ==> now < s.keepalive.value.deadline)
    && now < s.nextKeepalive
  }

  lemma HandleFrameOnTime(s: Contact, f: Frame, replyOk: bool, eventsOpen: bool, now: int)
    requires OnTime(s, now)
    ensures OnTime(HandleFrame(s, f, replyOk, eventsOpen).0, now)
  {
    if f.AckFrame? && KnowsDelivery(s, f.ack.messageId) { AckOnTime(s, f.ack.messageId, f.ack.kind, now); }
    hide ApplyAck, FindDelivery, KnowsDelivery;
  }

  lemma AckOnTime(s: Contact, u: Uuid, kind: AckKind, now: int)
    requires OnTime(s, now) && KnowsDelivery(s, u)
    ensures OnTime(ApplyAck(s, u, kind), now)
  {
    hide Complete;
  }

  lemma SelectOnTime(reg: Registry, s: Contact, r: Round)
    requires Sound(reg, s) && s.phase == Connected && OnTime(s, r.now)
    ensures Select(s, r).phase == Connected ==> OnTime(Select(s, r), r.now)
  {
    hide Conserved, Ledger, InOrder, Typed, HandleFrame, FailSession, Enqueue, Accepts;
    match r.selected {
      case FromChannel(c) =>
      case ChannelClosed =>
      case StreamBroken => SoundFailSession(reg, s);
      case Incoming(f) =>
        var a := s.(lastActivity := r.now);
        SoundElsewhere(reg, s, a);
        HandleFrameOnTime(a, f, r.replyOk, r.eventsOpen, r.now);
        SoundHandleFrame(reg, a, f, r.replyOk, r.eventsOpen);
        SoundFailSession(reg, HandleFrame(a, f, r.replyOk, r.eventsOpen).0);
      case Tick =>
    }
  }

  lemma BeforeSelectOnTime(s: Contact, r: Round)
    requires var a := Release(s, Expired(s, r.now)); !KeepaliveTimedOut(a, r.now) && !InFlightTimedOut(a, r.now)
    ensures OnTime(BeforeSelect(s, r), r.now)
  {
    hide KeysOf, TagsIn;
  }

  lemma AfterFillOnTime(reg: Registry, s: Contact, r: Round)
    requires Sound(reg, s) && s.phase == Connected
    ensures AfterFill(s, r).phase == Connected ==> OnTime(AfterFill(s, r), r.now)
  {
    hide Conserved, Ledger, InOrder, Typed, FailSession, Release, Select;
    var a, b := Release(s, Expired(s, r.now)), BeforeSelect(s, r);
    SoundRelease(reg, s, Expired(s, r.now));
    SoundFailSession(reg, a);
    if !KeepaliveTimedOut(a, r.now) && !InFlightTimedOut(a, r.now) {
      BeforeSelectOnTime(s, r);
      SoundElsewhere(reg, a, b);
      SelectOnTime(reg, b, r);
    }
  }

  /**
   Whatever happened before, a turn that leaves the session open leaves nothing overdue in it: no delivery, waiter or
   probe was sent 60 seconds ago or more, no ping is unanswered past its deadline, and the next one is scheduled.
   */
  lemma TurnLeavesNothingOverdue(reg: Registry, s: Contact, r: Round)
    requires Reachable(reg, s) && s.phase == Connected && RoundRegistered(reg, r)
    ensures Step(s, Turn(r)).phase == Connected ==> OnTime(Step(s, Turn(r)), r.now)
  {
    hide Sound, Reachable, OnTime, Fill, AfterFill, TakeAll;
    ReachableSound(reg, s);
    SoundTakeAll(reg, s, r.arrivals);
    SoundFill(reg, TakeAll(s, r.arrivals), r.budget, r.at);
    var (f, result) := Fill(TakeAll(s, r.arrivals), r.budget, r.at);
    if result == Filled { AfterFillOnTime(reg, f, r); }
  }

  /** Nothing waits, nothing is unanswered, and nothing was exchanged for 90 seconds or nothing more can come. */
  predicate Idle(s: Contact, now: int) {
    && s.queues.durable == [] && s.queues.endpointUpdate.None? && s.queues.probe.None? && s.queues.ephemeral.None?
    && s.active == map[] && s.awaiting == map[] && s.probes == map[]
    && (now - s.lastActivity >= SESSION_IDLE_TIMEOUT || !s.channelOpen)
  }

  lemma AfterFillNotIdle(reg: Registry, s: Contact, r: Round)
    requires Sound(reg, s) && s.phase == Connected && r.selected.Tick?
    ensures AfterFill(s, r).phase == Connected ==> !Idle(AfterFill(s, r), r.now)
  {
    hide Conserved, Ledger, InOrder, Typed, FailSession, Release;
    SoundRelease(reg, s, Expired(s, r.now));
    SoundFailSession(reg, Release(s, Expired(s, r.now)));
  }

  /** A session with nothing to do does not outlast 90 idle seconds, nor a closed command channel. */
  lemma IdleSessionCloses(reg: Registry, s: Contact, r: Round)
    requires Reachable(reg, s) && s.phase == Connected && RoundRegistered(reg, r) && r.selected.Tick?
    ensures Step(s, Turn(r)).phase == Connected ==> !Idle(Step(s, Turn(r)), r.now)
  {
    hide Sound, Reachable, Idle, AfterFill, Fill, TakeAll;
    ReachableSound(reg, s);
    SoundTakeAll(reg, s, r.arrivals);
    SoundFill(reg, TakeAll(s, r.arrivals), r.budget, r.at);
    var (f, result) := Fill(TakeAll(s, r.arrivals), r.budget, r.at);
    if result == Filled { AfterFillNotIdle(reg, f, r); }
  }

  // ---------------------------------------------------------------- nothing fails without a cause

  predicate Spared(s: Contact, s': Contact) {
    s.log <= s'.log && forall k :: |s.log| <= k < |s'.log| ==> !s'.log[k].BackedOff?
  }

  lemma {:induction false} TakeAllSpared(s: Contact, cs: seq<Command>)
    ensures Spared(s, TakeAll(s, cs))
    decreases |cs|
  {
    hide Enqueue, Accepts;
    if cs != [] { TakeAllSpared(Take(s, cs[0]), cs[1..]); }
  }

  lemma WrittenSpared(s: Contact, rest: Queues, c: Command, at: int)
    ensures Spared(s, Written(s.(queues := rest), c, at)) && Written(s.(queues := rest), c, at).queues == rest
  {
    WrittenEntersWindow(s.(queues := rest), c, at);
    hide Written, ActiveOf, ProbesUntracked;
  }

  lemma EndpointChangeSpared(s: Contact, q: Queues)
    ensures Spared(s, Disconnect(ReleaseAll(s.(queues := q))))
  {
    hide KeysOf, TagsIn;
  }

  lemma SparedTwice(a: Contact, b: Contact, c: Contact)
    requires Spared(a, b) && Spared(b, c)
    ensures Spared(a, c)
  {
  }

  lemma SparedSelf(s: Contact)
    ensures Spared(s, s)
  {
  }

  lemma {:induction false} FillSpared(s: Contact, budget: nat, at: int)
    ensures Fill(s, budget, at).1 != WriteFailed ==> Spared(s, Fill(s, budget, at).0)
    decreases QueueSize(s.queues)
  {
    hide *;
    var (next, rest) := PopNext(s.queues);
    PopShrinks(s.queues);
    if |s.active| >= MAX_IN_FLIGHT || next.None? {
      FillNothing(s, budget, at);
      SparedSelf(s);
    } else {
      var c, frames := next.value, FramesOf(next.value, s.sentSequence, s.sessionId);
      FillOnce(s, budget, at, c, rest);
      if c.endpoint != s.endpoint {
        EndpointChangeSpared(s, PushFront(rest, c));
      } else if |frames| <= budget {
        var w := Written(s.(queues := rest), c, at);
        WrittenSpared(s, rest, c, at);
        FillSpared(w, budget - |frames|, at);
        if Fill(s, budget, at).1 != WriteFailed { SparedTwice(s, w, Fill(s, budget, at).0); }
      }
    }
  }

  /** A frame the session cannot go on after: a wrong hash, a lost answer, a deaf engine, or a handshake frame. */
  predicate Refusable(reg: Registry, f: Frame, r: Round) {
    match f
    case AckFrame(ack) => ack.hash != Sha256(reg(ack.messageId).ciphertext)
    case Ping(_) => !r.replyOk
    case ProbeRequest(_) => !r.replyOk
    case ProbeResponse(_) => !r.eventsOpen
    case PresenceFrame(_, _) => !r.eventsOpen
    case TypingFrame(_, _) => !r.eventsOpen
    case FocusFrame(_, _) => !r.eventsOpen
    case HandshakeOrErrorFrame => true
    case Pong(_) => false
    case EndpointUpdateFrame(_) => false
    case MessageFrame(_) => false
  }

  lemma FrameSpared(reg: Registry, s: Contact, r: Round)
    requires Typed(reg, s) && r.selected.Incoming? && !Refusable(reg, r.selected.frame, r)
    ensures HandleFrame(s, r.selected.frame, r.replyOk, r.eventsOpen).1
    ensures Spared(s, HandleFrame(s, r.selected.frame, r.replyOk, r.eventsOpen).0)
  {
    hide Typed, ApplyAck, AnswerProbe, KnowsDelivery, FindDelivery;
    var f := r.selected.frame;
    if f.AckFrame? && KnowsDelivery(s, f.ack.messageId) { KnownHash(reg, s, f.ack.messageId); }
    assert HandleFrame(s, f, r.replyOk, r.eventsOpen).1;
    hide HandleFrame;
    HandleFrameLogs(s, f, r.replyOk, r.eventsOpen);
  }

  /** Nothing forces the session to end: everything was answered in time, and what was selected can be handled. */
  predicate Fine(reg: Registry, s: Contact, r: Round) {
    && !KeepaliveTimedOut(s, r.now) && !InFlightTimedOut(s, r.now)
    && (r.now >= s.nextKeepalive ==> r.pingOk)
    && !r.selected.StreamBroken?
    && (r.selected.Incoming? ==> !Refusable(reg, r.selected.frame, r))
  }

  lemma SelectSpared(reg: Registry, s: Contact, r: Round)
    requires Sound(reg, s) && s.phase == Connected && !r.selected.StreamBroken?
    requires r.selected.Incoming? ==> !Refusable(reg, r.selected.frame, r)
    ensures Spared(s, Select(s, r))
  {
    hide Conserved, Ledger, InOrder, Typed, HandleFrame, Enqueue, Accepts, Refusable;
    if r.selected.Incoming? {
      var a := s.(lastActivity := r.now);
      SoundElsewhere(reg, s, a);
      FrameSpared(reg, a, r);
    }
  }

  lemma BeforeSelectSpared(s: Contact, r: Round)
    ensures Spared(s, BeforeSelect(s, r)) && Spared(s, Disconnect(BeforeSelect(s, r)))
  {
    hide KeysOf, TagsIn, Expired;
  }

  lemma AfterFillSpared(reg: Registry, s: Contact, r: Round)
    requires Sound(reg, s) && s.phase == Connected && Fine(reg, s, r)
    ensures Spared(s, AfterFill(s, r))
  {
    hide Conserved, Ledger, InOrder, Typed, Select, KeysOf, TagsIn, Refusable;
    var a, b := Release(s, Expired(s, r.now)), BeforeSelect(s, r);
    SoundRelease(reg, s, Expired(s, r.now));
    SoundElsewhere(reg, a, b);
    SelectSpared(reg, b, r);
    BeforeSelectSpared(s, r);
    SparedTwice(s, b, Select(b, r));
    hide Spared;
  }

  /** What was pending before the send loop, and what it wrote itself, is all that can be late after it. */
  predicate SentSince(s: Contact, s': Contact, at: int) {
    && (forall u :: u in s'.active ==> s'.active[u].sentAt == at || (u in s.active && s'.active[u] == s.active[u]))
    && (forall n :: n in s'.probes ==> s'.probes[n].sentAt == at || (n in s.probes && s'.probes[n] == s.probes[n]))
    && s'.keepalive == s.keepalive && s'.nextKeepalive == s.nextKeepalive
  }

  lemma WrittenSince(s: Contact, rest: Queues, c: Command, at: int)
    ensures SentSince(s, Written(s.(queues := rest), c, at), at)
  {
    WrittenEntersWindow(s.(queues := rest), c, at);
    WrittenProbes(s.(queues := rest), c, at);
    WrittenTimers(s.(queues := rest), c, at);
    hide Written, ProbesUntracked, UnsentUpdates;
  }

  lemma WrittenTimers(s: Contact, c: Command, at: int)
    ensures Written(s, c, at).keepalive == s.keepalive && Written(s, c, at).nextKeepalive == s.nextKeepalive
  {
    hide FramesOf, UnsentUpdates;
  }

  lemma SinceTwice(a: Contact, b: Contact, c: Contact, at: int)
    requires SentSince(a, b, at) && SentSince(b, c, at)
    ensures SentSince(a, c, at)
  {
  }

  lemma {:induction false} FillSince(s: Contact, budget: nat, at: int)
    ensures Fill(s, budget, at).1 == Filled ==> SentSince(s, Fill(s, budget, at).0, at)
    decreases QueueSize(s.queues)
  {
    hide *;
    var (next, rest) := PopNext(s.queues);
    PopShrinks(s.queues);
    if |s.active| >= MAX_IN_FLIGHT || next.None? {
      FillNothing(s, budget, at);
      SinceSelf(s, at);
    } else {
      var c, frames := next.value, FramesOf(next.value, s.sentSequence, s.sessionId);
      FillOnce(s, budget, at, c, rest);
      if c.endpoint == s.endpoint && |frames| <= budget {
        var w := Written(s.(queues := rest), c, at);
        WrittenSpared(s, rest, c, at);
        WrittenSince(s, rest, c, at);
        FillSince(w, budget - |frames|, at);
        if Fill(s, budget, at).1 == Filled { SinceTwice(s, w, Fill(s, budget, at).0, at); }
      }
    }
  }

  lemma SinceSelf(s: Contact, at: int)
    ensures SentSince(s, s, at)
  {
  }

  lemma {:induction false} TakeAllSince(s: Contact, cs: seq<Command>, at: int)
    ensures SentSince(s, TakeAll(s, cs), at)
    decreases |cs|
  {
    hide Enqueue, Accepts;
    if cs != [] { TakeAllSince(Take(s, cs[0]), cs[1..], at); }
  }

  /**
   A turn reports a failure only for a cause: a write failed, something sent is unanswered for 60 seconds, a ping for
   15, the next ping could not be written, the stream broke, or the peer's frame cannot be gone on after.
   */
  lemma FailsOnlyForCause(reg: Registry, s: Contact, r: Round, k: nat)
    requires Reachable(reg, s) && s.phase == Connected && RoundRegistered(reg, r)
    requires |s.log| <= k < |Step(s, Turn(r)).log| && Step(s, Turn(r)).log[k].BackedOff?
    ensures || Fill(TakeAll(s, r.arrivals), r.budget, r.at).1 == WriteFailed
            || !Fine(reg, s, r)
            || r.now - r.at >= ACK_TIMEOUT
  {
    hide Sound, Reachable, Fine, SentSince;
    ReachableSound(reg, s);
    var t := TakeAll(s, r.arrivals);
    SoundTakeAll(reg, s, r.arrivals);
    TakeAllSpared(s, r.arrivals);
    SoundFill(reg, t, r.budget, r.at);
    FillSpared(t, r.budget, r.at);
    var (f, result) := Fill(t, r.budget, r.at);
    if result == Filled && Fine(reg, s, r) && r.now - r.at < ACK_TIMEOUT {
      TakeAllSince(s, r.arrivals, r.at);
      FillSince(t, r.budget, r.at);
      SinceTwice(s, t, f, r.at);
      StillFine(reg, s, f, r);
      AfterFillSpared(reg, f, r);
      hide Fill, AfterFill, TakeAll;
      SparedTwice(s, t, f);
      SparedTwice(s, f, AfterFill(f, r));
    } else if result != WriteFailed {
      hide Fill, AfterFill, TakeAll;
      SparedTwice(s, t, f);
    }
  }

  lemma StillFine(reg: Registry, s: Contact, s': Contact, r: Round)
    requires Fine(reg, s, r) && SentSince(s, s', r.at) && r.now - r.at < ACK_TIMEOUT
    ensures Fine(reg, s', r)
  {
    hide Refusable;
  }

  // ---------------------------------------------------------------- nothing is given up early

  lemma AfterFillEnds(reg: Registry, s: Contact, r: Round)
    requires Sound(reg, s) && s.phase == Connected && Fine(reg, s, r)
    ensures AfterFill(s, r).phase != Connected ==> Idle(BeforeSelect(s, r), r.now)
  {
    hide Conserved, Ledger, InOrder, Typed, KeysOf, TagsIn, Refusable, Select;
    var a, b := Release(s, Expired(s, r.now)), BeforeSelect(s, r);
    SoundRelease(reg, s, Expired(s, r.now));
    SoundElsewhere(reg, a, b);
    SelectStays(reg, b, r);
  }

  lemma SelectStays(reg: Registry, s: Contact, r: Round)
    requires Sound(reg, s) && s.phase == Connected && !r.selected.StreamBroken?
    requires r.selected.Incoming? ==> !Refusable(reg, r.selected.frame, r)
    ensures Select(s, r).phase == Connected
  {
    hide Conserved, Ledger, InOrder, Typed, HandleFrame, Enqueue, Accepts, Refusable;
    if r.selected.Incoming? {
      var a := s.(lastActivity := r.now);
      SoundElsewhere(reg, s, a);
      FrameSpared(reg, a, r);
      SoundHandleFrame(reg, a, r.selected.frame, r.replyOk, r.eventsOpen);
    }
  }

  /**
   A turn ends a session only for a cause: a failure as above, a command for another endpoint, or nothing to do for
   90 seconds or with the command channel closed.
   */
  lemma EndsOnlyForCause(reg: Registry, s: Contact, r: Round)
    requires Reachable(reg, s) && s.phase == Connected && RoundRegistered(reg, r)
    requires Step(s, Turn(r)).phase != Connected
    ensures var (f, result) := Fill(TakeAll(s, r.arrivals), r.budget, r.at);
            || result != Filled || !Fine(reg, s, r) || r.now - r.at >= ACK_TIMEOUT
            || Idle(BeforeSelect(f, r), r.now)
  {
    hide Sound, Reachable, Fine, Idle, AfterFill, Fill, TakeAll, BeforeSelect, SentSince;
    ReachableSound(reg, s);
    var t := TakeAll(s, r.arrivals);
    SoundTakeAll(reg, s, r.arrivals);
    SoundFill(reg, t, r.budget, r.at);
    var (f, result) := Fill(t, r.budget, r.at);
    if result == Filled && Fine(reg, s, r) && r.now - r.at < ACK_TIMEOUT {
      TakeAllSince(s, r.arrivals, r.at);
      FillSince(t, r.budget, r.at);
      SinceTwice(s, t, f, r.at);
      StillFine(reg, s, f, r);
      AfterFillEnds(reg, f, r);
    }
  }

  lemma {:induction false} FillAwaiting(s: Contact, budget: nat, at: int)
    ensures Fill(s, budget, at).1 == Filled ==> Fill(s, budget, at).0.awaiting == s.awaiting
    decreases QueueSize(s.queues)
  {
    hide *;
    var (next, rest) := PopNext(s.queues);
    PopShrinks(s.queues);
    if |s.active| >= MAX_IN_FLIGHT || next.None? {
      FillNothing(s, budget, at);
    } else {
      var c, frames := next.value, FramesOf(next.value, s.sentSequence, s.sessionId);
      FillOnce(s, budget, at, c, rest);
      if c.endpoint == s.endpoint && |frames| <= budget {
        WrittenSpared(s, rest, c, at);
        WrittenAwaiting(s.(queues := rest), c, at);
        FillAwaiting(Written(s.(queues := rest), c, at), budget - |frames|, at);
      }
    }
  }

  lemma WrittenAwaiting(s: Contact, c: Command, at: int)
    ensures Written(s, c, at).awaiting == s.awaiting
  {
    hide FramesOf, UnsentUpdates;
  }

  lemma FrameAwaiting(s: Contact, f: Frame, replyOk: bool, eventsOpen: bool, u: Uuid)
    requires u in s.awaiting && !(f.AckFrame? && f.ack.messageId == u)
    ensures var s' := HandleFrame(s, f, replyOk, eventsOpen).0; u in s'.awaiting && s'.awaiting[u] == s.awaiting[u]
  {
    hide Complete;
  }

  lemma SelectAwaiting(reg: Registry, s: Contact, r: Round, u: Uuid)
    requires Sound(reg, s) && s.phase == Connected && Select(s, r).phase == Connected && u in s.awaiting
    requires !(r.selected.Incoming? && r.selected.frame.AckFrame? && r.selected.frame.ack.messageId == u)
    ensures u in Select(s, r).awaiting && Select(s, r).awaiting[u] == s.awaiting[u]
  {
    hide Conserved, Ledger, InOrder, Typed, HandleFrame, FailSession, Enqueue, Accepts;
    SoundFailSession(reg, s);
    if r.selected.Incoming? {
      var a := s.(lastActivity := r.now);
      SoundElsewhere(reg, s, a);
      FrameAwaiting(a, r.selected.frame, r.replyOk, r.eventsOpen, u);
      SoundHandleFrame(reg, a, r.selected.frame, r.replyOk, r.eventsOpen);
      SoundFailSession(reg, HandleFrame(a, r.selected.frame, r.replyOk, r.eventsOpen).0);
    }
  }

  lemma BeforeSelectAwaiting(s: Contact, r: Round, u: Uuid)
    requires u in s.awaiting && r.now - s.awaiting[u].sentAt < ACK_TIMEOUT
    ensures u in BeforeSelect(s, r).awaiting && BeforeSelect(s, r).awaiting[u] == s.awaiting[u]
  {
    hide KeysOf, TagsIn;
  }

  /** While its session lasts, a persisted message waits until it is answered or 60 seconds are over. */
  lemma WaitersStay(reg: Registry, s: Contact, r: Round, u: Uuid)
    requires Reachable(reg, s) && s.phase == Connected && RoundRegistered(reg, r)
    requires u in s.awaiting && r.now - s.awaiting[u].sentAt < ACK_TIMEOUT && Step(s, Turn(r)).phase == Connected
    requires !(r.selected.Incoming? && r.selected.frame.AckFrame? && r.selected.frame.ack.messageId == u)
    ensures u in Step(s, Turn(r)).awaiting && Step(s, Turn(r)).awaiting[u] == s.awaiting[u]
  {
    hide Sound, Reachable, Fill, AfterFill, TakeAll, Select, BeforeSelect, Silent, InputRegistered;
    ReachableSound(reg, s);
    var t := TakeAll(s, r.arrivals);
    TakeAllSilent(s, r.arrivals);
    SoundTakeAll(reg, s, r.arrivals);
    SoundFill(reg, t, r.budget, r.at);
    FillAwaiting(t, r.budget, r.at);
    var f := Fill(t, r.budget, r.at).0;
    AfterFillCases(reg, f, r);
    BeforeSelectAwaiting(f, r, u);
    BeforeSelectSound(reg, f, r);
    SelectAwaiting(reg, BeforeSelect(f, r), r, u);
  }

  // ---------------------------------------------------------------- activity

  lemma {:induction false} FillActivity(s: Contact, budget: nat, at: int, base: nat)
    requires Backed(s, base)
    ensures var (s', r) := Fill(s, budget, at);
            r == Filled ==> s'.lastActivity == if s'.wire == s.wire then s.lastActivity else at
    decreases QueueSize(s.queues)
  {
    hide *;
    var (next, rest) := PopNext(s.queues);
    PopShrinks(s.queues);
    if |s.active| >= MAX_IN_FLIGHT || next.None? {
      FillNothing(s, budget, at);
    } else {
      var c, frames := next.value, FramesOf(next.value, s.sentSequence, s.sessionId);
      FillOnce(s, budget, at, c, rest);
      if c.endpoint == s.endpoint && |frames| <= budget {
        var p := s.(queues := rest);
        var w := Written(p, c, at);
        WrittenSpared(s, rest, c, at);
        WrittenActivity(p, c, at);
        SameBacked(s, p, base);
        WrittenBacked(p, c, at, base);
        FillActivity(w, budget - |frames|, at, base);
        FillBacked(w, budget - |frames|, at, base);
        SilentWire(w, Fill(s, budget, at).0);
      }
    }
  }

  lemma WrittenActivity(s: Contact, c: Command, at: int)
    ensures Written(s, c, at).lastActivity == at && |s.wire| < |Written(s, c, at).wire|
  {
    hide UnsentUpdates;
  }

  lemma SelectActivity(reg: Registry, s: Contact, r: Round)
    requires Sound(reg, s) && s.phase == Connected && Select(s, r).phase == Connected
    ensures Select(s, r).lastActivity == if r.selected.Incoming? then r.now else s.lastActivity
  {
    hide Conserved, Ledger, InOrder, Typed, HandleFrame, FailSession, Enqueue, Accepts;
    SoundFailSession(reg, s);
    if r.selected.Incoming? {
      var a := s.(lastActivity := r.now);
      SoundElsewhere(reg, s, a);
      FrameActivity(a, r.selected.frame, r.replyOk, r.eventsOpen);
      SoundHandleFrame(reg, a, r.selected.frame, r.replyOk, r.eventsOpen);
      SoundFailSession(reg, HandleFrame(a, r.selected.frame, r.replyOk, r.eventsOpen).0);
    }
  }

  lemma FrameActivity(s: Contact, f: Frame, replyOk: bool, eventsOpen: bool)
    ensures HandleFrame(s, f, replyOk, eventsOpen).0.lastActivity == s.lastActivity
  {
    hide Complete;
  }

  lemma BeforeSelectActivity(s: Contact, r: Round)
    ensures BeforeSelect(s, r).lastActivity == s.lastActivity
  {
    hide KeysOf, TagsIn, Expired;
  }

  /** A session counts as active from its last incoming frame, or else from the last turn that wrote a command. */
  lemma ActivityIsTheLastExchange(reg: Registry, inputs: seq<Input>, r: Round)
    requires AllInputsRegistered(reg, inputs) && RoundRegistered(reg, r) && After(inputs).phase == Connected
    requires Step(After(inputs), Turn(r)).phase == Connected
    ensures var s := After(inputs);
            Step(s, Turn(r)).lastActivity
            == if r.selected.Incoming? then r.now
               else if Fill(TakeAll(s, r.arrivals), r.budget, r.at).0.wire != s.wire then r.at
               else s.lastActivity
  {
    hide Sound, After, SessionBase, Fill, AfterFill, TakeAll, Select, BeforeSelect, Backed;
    AlwaysBacked(reg, inputs);
    AfterSound(reg, inputs);
    var s, base := After(inputs), SessionBase(inputs);
    var t := TakeAll(s, r.arrivals);
    TakeAllSilent(s, r.arrivals);
    TakeAllQuiet(s, r.arrivals);
    TakeAllSame(s, r.arrivals);
    SameBacked(s, t, base);
    SoundTakeAll(reg, s, r.arrivals);
    SoundFill(reg, t, r.budget, r.at);
    FillActivity(t, r.budget, r.at, base);
    var f := Fill(t, r.budget, r.at).0;
    AfterFillCases(reg, f, r);
    BeforeSelectActivity(f, r);
    BeforeSelectSound(reg, f, r);
    SelectActivity(reg, BeforeSelect(f, r), r);
  }
}
