/**
 What the delivery task reports to the engine, and why. Every acknowledgement it reports is traced back to a frame of
 the session it is in, and what a report confirms to frames the session wrote.
 */
module DeliveryReports {
  import opened Foundation
  import opened PeerTypes
  import opened Delivery
  import opened DeliveryLedger
  import opened DeliveryOrder
  import opened DeliveryRuns
  import opened PeerWire
  import opened PeerLink

  // ---------------------------------------------------------------- what may be confirmed

  /** The endpoint update written directly before a frame of this session, whose frames start at `base`. */
  function UpdateBefore(wire: seq<Frame>, base: nat, b: nat): Option<nat>
    requires b < |wire|
  {
    if base < b && wire[b - 1].EndpointUpdateFrame? then Some(wire[b - 1].endpointSequence) else None
  }

  /** The envelope was written in this session, directly after the update that its report confirms, if any. */
  predicate SentUnder(wire: seq<Frame>, base: nat, u: Uuid, upTo: Option<nat>) {
    exists b :: base <= b < |wire| && wire[b].MessageFrame? && wire[b].envelope.messageId == u
                && UpdateBefore(wire, base, b) == upTo
  }

  /** So was the frame that asked the peer to answer with this nonce. */
  predicate Asked(wire: seq<Frame>, base: nat, nonce: nat, t: DeliveryTag, upTo: Option<nat>) {
    exists b :: base <= b < |wire| && UpdateBefore(wire, base, b) == upTo
                && ((t.EndpointUpdate? && wire[b] == Ping(nonce)) || (t.Probe? && wire[b] == ProbeRequest(nonce)))
  }

  predicate Backed(s: Contact, base: nat) {
    && base <= |s.wire|
    && Closed(s.wire, base)
    && (forall u :: u in s.active ==> SentUnder(s.wire, base, u, s.active[u].endpointSequence))
    && (forall u :: u in s.awaiting ==> SentUnder(s.wire, base, u, s.awaiting[u].endpointSequence))
    && (forall n :: n in s.probes ==> Asked(s.wire, base, n, s.probes[n].delivery, s.probes[n].endpointSequence))
  }

  /** No endpoint update stands last: every command closes with a frame of its own. */
  predicate Closed(wire: seq<Frame>, base: nat) { base < |wire| ==> !wire[|wire| - 1].EndpointUpdateFrame? }

  lemma SentLater(wire: seq<Frame>, wire': seq<Frame>, base: nat, u: Uuid, upTo: Option<nat>)
    requires wire <= wire' && SentUnder(wire, base, u, upTo)
    ensures SentUnder(wire', base, u, upTo)
  {
    var b :| base <= b < |wire| && wire[b].MessageFrame? && wire[b].envelope.messageId == u
             && UpdateBefore(wire, base, b) == upTo;
    assert wire'[b] == wire[b] && UpdateBefore(wire', base, b) == upTo;
  }

  lemma AskedLater(wire: seq<Frame>, wire': seq<Frame>, base: nat, nonce: nat, t: DeliveryTag, upTo: Option<nat>)
    requires wire <= wire' && Asked(wire, base, nonce, t, upTo)
    ensures Asked(wire', base, nonce, t, upTo)
  {
    var b :| base <= b < |wire| && UpdateBefore(wire, base, b) == upTo
             && ((t.EndpointUpdate? && wire[b] == Ping(nonce)) || (t.Probe? && wire[b] == ProbeRequest(nonce)));
    assert wire'[b] == wire[b] && UpdateBefore(wire', base, b) == upTo;
  }

  /** Nothing new waits for an answer, and the wire only grew. */
  lemma StaysBacked(s: Contact, s': Contact, base: nat)
    requires Backed(s, base) && s.wire <= s'.wire && Closed(s'.wire, base)
    requires forall u :: u in s'.active ==> u in s.active && s'.active[u] == s.active[u]
    requires forall u :: u in s'.awaiting ==>
               (u in s.awaiting && s'.awaiting[u] == s.awaiting[u]) || (u in s.active && s'.awaiting[u] == s.active[u])
    requires forall n :: n in s'.probes ==> n in s.probes && s'.probes[n] == s.probes[n]
    ensures Backed(s', base)
  {
    forall u, upTo | SentUnder(s.wire, base, u, upTo) ensures SentUnder(s'.wire, base, u, upTo) {
      SentLater(s.wire, s'.wire, base, u, upTo);
    }
    forall n, t, upTo | Asked(s.wire, base, n, t, upTo) ensures Asked(s'.wire, base, n, t, upTo) {
      AskedLater(s.wire, s'.wire, base, n, t, upTo);
    }
    hide SentUnder, Asked;
  }

  // ---------------------------------------------------------------- steps that report no acknowledgement

  predicate Silent(s: Contact, s': Contact) {
    && s.wire <= s'.wire
    && s.log <= s'.log && forall k :: |s.log| <= k < |s'.log| ==> !s'.log[k].Acked?
  }

  lemma {:induction false} TakeAllSilent(s: Contact, cs: seq<Command>)
    ensures Silent(s, TakeAll(s, cs))
    ensures var t := TakeAll(s, cs);
            t.active == s.active && t.awaiting == s.awaiting && t.probes == s.probes && t.sessionId == s.sessionId
    decreases |cs|
  {
    hide Enqueue, Accepts;
    if cs != [] { TakeAllSilent(Take(s, cs[0]), cs[1..]); }
  }

  lemma {:induction false} FailQueuedSilent(s: Contact)
    ensures Silent(s, FailQueued(s))
    decreases |s.queues.durable|
  {
    if s.queues.durable != [] { FailQueuedSilent(FailHead(s)); }
  }

  lemma FailSessionSilent(s: Contact)
    ensures Silent(s, FailSession(s))
  {
    hide FailQueued, KeysOf, TagsIn;
    FailQueuedSilent(Disconnect(FailActive(s)));
  }

  lemma FailedWriteSilent(s: Contact, rest: Queues, written: seq<Frame>, t: DeliveryTag)
    ensures Silent(s, FailSession(FailPopped(s.(queues := rest, wire := s.wire + written), t)))
  {
    hide FailSession, Complete;
    FailSessionSilent(FailPopped(s.(queues := rest, wire := s.wire + written), t));
  }

  lemma EndpointChangeSilent(s: Contact, q: Queues)
    ensures Silent(s, Disconnect(ReleaseAll(s.(queues := q))))
  {
    hide KeysOf, TagsIn;
  }

  // ---------------------------------------------------------------- writing

  /** A command's closing frame stands last, directly after the last of its updates. */
  lemma ClosingOnWire(wire: seq<Frame>, c: Command, sent: nat, sessionId: Uuid, at: int, base: nat)
    requires base <= |wire| && Closed(wire, base) && !IsControl(c.delivery)
    ensures var all := wire + FramesOf(c, sent, sessionId);
            && |all| > |wire| && all[|all| - 1] == ClosingFrame(c, sessionId) && Closed(all, base)
            && UpdateBefore(all, base, |all| - 1) == ActiveOf(c, sent, at).endpointSequence
  {
    hide UnsentUpdates;
    var unsent, frames := UnsentUpdates(c.endpointUpdates, sent), FramesOf(c, sent, sessionId);
    var all := wire + frames;
    assert frames[|frames| - 1] == ClosingFrame(c, sessionId) && |frames| == |unsent| + 1;
    if unsent != [] {
      assert all[|all| - 2] == frames[|frames| - 2] == UpdateFrames(unsent)[|unsent| - 1];
    }
  }

  lemma ControlOnWire(wire: seq<Frame>, c: Command, sent: nat, sessionId: Uuid, base: nat)
    requires base <= |wire| && IsControl(c.delivery)
    ensures Closed(wire + FramesOf(c, sent, sessionId), base)
  {
  }

  lemma WrittenProbes(s: Contact, c: Command, at: int)
    ensures var probe := EndpointProbe(ActiveOf(c, s.sentSequence, at).endpointSequence, at, c.delivery);
            Written(s, c, at).probes
            == if c.delivery.EndpointUpdate? || c.delivery.Probe? then s.probes[c.sequence := probe] else s.probes
  {
    hide FramesOf, UnsentUpdates;
  }

  lemma WrittenBacked(s: Contact, c: Command, at: int, base: nat)
    requires Backed(s, base)
    ensures Backed(Written(s, c, at), base) && Silent(s, Written(s, c, at))
    ensures Written(s, c, at).sessionId == s.sessionId && Written(s, c, at).queues == s.queues
  {
    WrittenWire(s, c, at);
    WrittenEntersWindow(s, c, at);
    WrittenProbes(s, c, at);
    var w := Written(s, c, at);
    hide Written, ActiveOf, FramesOf, ProbesUntracked;
    if IsControl(c.delivery) {
      ControlOnWire(s.wire, c, s.sentSequence, s.sessionId, base);
      StaysBacked(s, w, base);
    } else {
      ClosingOnWire(s.wire, c, s.sentSequence, s.sessionId, at, base);
      StaysBacked(s, s.(wire := w.wire), base);
      ClosingAnswers(w.wire, c, s.sessionId, base, ActiveOf(c, s.sentSequence, at).endpointSequence);
      hide SentUnder, Asked, ClosingFrame, UpdateBefore;
    }
  }

  /** What the closing frame waits under can be found by it. */
  lemma ClosingAnswers(wire: seq<Frame>, c: Command, sessionId: Uuid, base: nat, upTo: Option<nat>)
    requires base < |wire| && wire[|wire| - 1] == ClosingFrame(c, sessionId) && !IsControl(c.delivery)
    requires UpdateBefore(wire, base, |wire| - 1) == upTo
    ensures if c.delivery.EndpointUpdate? || c.delivery.Probe? then Asked(wire, base, c.sequence, c.delivery, upTo)
            else SentUnder(wire, base, c.messageId, upTo)
  {
    var b := |wire| - 1;
    assert base <= b < |wire| && UpdateBefore(wire, base, b) == upTo;
  }

  lemma {:induction false} FillBacked(s: Contact, budget: nat, at: int, base: nat)
    requires Backed(s, base)
    ensures var (s', r) := Fill(s, budget, at);
            Silent(s, s') && (r == Filled ==> Backed(s', base) && s'.sessionId == s.sessionId)
    decreases QueueSize(s.queues)
  {
    hide *;
    var (next, rest) := PopNext(s.queues);
    PopShrinks(s.queues);
    if |s.active| >= MAX_IN_FLIGHT || next.None? {
      FillNothing(s, budget, at);
      SilentSelf(s);
    } else {
      var c, frames := next.value, FramesOf(next.value, s.sentSequence, s.sessionId);
      FillOnce(s, budget, at, c, rest);
      if c.endpoint != s.endpoint {
        EndpointChangeSilent(s, PushFront(rest, c));
      } else if |frames| <= budget {
        var p := s.(queues := rest);
        SameBacked(s, p, base);
        WrittenBacked(p, c, at, base);
        FillBacked(Written(p, c, at), budget - |frames|, at, base);
        SilentTwice(p, Written(p, c, at), Fill(s, budget, at).0);
        SilentSame(s, p, Fill(s, budget, at).0);
      } else {
        FailedWriteSilent(s, rest, frames[..budget], c.delivery);
      }
    }
  }

  lemma SilentSelf(s: Contact)
    ensures Silent(s, s)
  {
  }

  lemma SilentTwice(a: Contact, b: Contact, c: Contact)
    requires Silent(a, b) && Silent(b, c)
    ensures Silent(a, c)
  {
  }

  lemma SilentSame(a: Contact, b: Contact, c: Contact)
    requires Silent(b, c) && a.wire == b.wire && a.log == b.log
    ensures Silent(a, c)
  {
  }

  lemma SameBacked(s: Contact, s': Contact, base: nat)
    requires Backed(s, base) && s'.wire == s.wire
    requires s'.active == s.active && s'.awaiting == s.awaiting && s'.probes == s.probes
    ensures Backed(s', base)
  {
    hide SentUnder, Asked;
  }

  // ---------------------------------------------------------------- what a frame makes the sender report

  /**
   The frame says what the entry reports: an acknowledgement of this session for the envelope of that delivery, with
   its hash and of that kind, or the answer to a question this session asked. The endpoint sequence it confirms is
   exactly that of the update written directly before that envelope or question.
   */
  predicate Told(reg: Registry, sessionId: Uuid, wire: seq<Frame>, base: nat, f: Frame, e: Entry) {
    && e.Acked?
    && match f
       case AckFrame(ack) =>
         && ack.sessionId == sessionId && ack.kind == e.kind
         && reg(ack.messageId).tag == e.tag && ack.hash == Sha256(reg(ack.messageId).ciphertext)
         && SentUnder(wire, base, ack.messageId, e.upTo)
       case Pong(n) => e.kind == Persisted && Asked(wire, base, n, e.tag, e.upTo)
       case ProbeResponse(n) => e.kind == Persisted && Asked(wire, base, n, e.tag, e.upTo)
       case _ => false
  }

  /** Every acknowledgement reported between the two states is what the selected frame says. */
  predicate Reports(reg: Registry, s: Contact, s': Contact, base: nat, selected: Selected) {
    && s.wire <= s'.wire && s.log <= s'.log
    && forall k :: |s.log| <= k < |s'.log| && s'.log[k].Acked? ==>
         selected.Incoming? && Told(reg, s.sessionId, s'.wire, base, selected.frame, s'.log[k])
  }

  lemma ToldLater(reg: Registry, sessionId: Uuid, wire: seq<Frame>, wire': seq<Frame>, base: nat, f: Frame, e: Entry)
    requires Told(reg, sessionId, wire, base, f, e) && wire <= wire'
    ensures Told(reg, sessionId, wire', base, f, e)
  {
    if f.AckFrame? {
      SentLater(wire, wire', base, f.ack.messageId, e.upTo);
    } else {
      AskedLater(wire, wire', base, f.nonce, e.tag, e.upTo);
    }
  }

  lemma SilentThenReports(reg: Registry, a: Contact, b: Contact, c: Contact, base: nat, selected: Selected)
    requires Silent(a, b) && Reports(reg, b, c, base, selected) && a.sessionId == b.sessionId
    ensures Reports(reg, a, c, base, selected)
  {
    hide Told;
  }

  lemma ReportsThenSilent(reg: Registry, a: Contact, b: Contact, c: Contact, base: nat, selected: Selected)
    requires Reports(reg, a, b, base, selected) && Silent(b, c)
    ensures Reports(reg, a, c, base, selected)
  {
    hide Told;
    forall k | |a.log| <= k < |c.log| && c.log[k].Acked?
      ensures selected.Incoming? && Told(reg, a.sessionId, c.wire, base, selected.frame, c.log[k])
    {
      assert c.log[k] == b.log[k];
      ToldLater(reg, a.sessionId, b.wire, c.wire, base, selected.frame, b.log[k]);
    }
  }

  lemma AckTold(reg: Registry, s: Contact, ack: Ack, base: nat)
    requires Typed(reg, s) && Backed(s, base) && KnowsDelivery(s, ack.messageId)
    requires ack.sessionId == s.sessionId && ack.hash == FindDelivery(s, ack.messageId).expectedHash
    ensures Told(reg, s.sessionId, s.wire, base, AckFrame(ack), AckEntry(FindDelivery(s, ack.messageId), ack.kind))
  {
    hide QueuesTyped, ProbesUntracked, SentUnder, Asked;
  }

  lemma AckBacked(s: Contact, u: Uuid, kind: AckKind, base: nat)
    requires Backed(s, base) && KnowsDelivery(s, u)
    ensures var s' := ApplyAck(s, u, kind);
            s'.wire == s.wire && s'.log == s.log + [AckEntry(FindDelivery(s, u), kind)] && Backed(s', base)
  {
    hide Complete, SentUnder, Asked;
  }

  lemma ProbeTold(reg: Registry, s: Contact, nonce: nat, f: Frame, base: nat)
    requires Backed(s, base) && nonce in s.probes && (f == Pong(nonce) || f == ProbeResponse(nonce))
    ensures Told(reg, s.sessionId, s.wire, base, f, ProbeEntry(s.probes[nonce]))
  {
    hide SentUnder, Asked;
  }

  lemma AckReports(reg: Registry, s: Contact, ack: Ack, replyOk: bool, eventsOpen: bool, base: nat)
    requires Typed(reg, s) && Backed(s, base)
    ensures var s' := HandleFrame(s, AckFrame(ack), replyOk, eventsOpen).0;
            Reports(reg, s, s', base, Incoming(AckFrame(ack))) && Backed(s', base)
  {
    hide Typed, Told, ApplyAck, AckEntry, Backed;
    if ack.sessionId == s.sessionId && KnowsDelivery(s, ack.messageId)
       && ack.hash == FindDelivery(s, ack.messageId).expectedHash {
      AckTold(reg, s, ack, base);
      AckBacked(s, ack.messageId, ack.kind, base);
    }
  }

  lemma ProbeReports(reg: Registry, s: Contact, f: Frame, replyOk: bool, eventsOpen: bool, base: nat)
    requires Backed(s, base) && (f.Pong? || f.ProbeResponse?)
    ensures var s' := HandleFrame(s, f, replyOk, eventsOpen).0;
            Reports(reg, s, s', base, Incoming(f)) && Backed(s', base)
  {
    ProbeShape(s, f, replyOk, eventsOpen);
    hide HandleFrame, Told, ProbeEntry, SentUnder, Asked;
    var s' := HandleFrame(s, f, replyOk, eventsOpen).0;
    FewerWaits(s, s', base);
    hide Backed;
    if f.nonce in s.probes { ProbeTold(reg, s, f.nonce, f, base); }
  }

  lemma ProbeShape(s: Contact, f: Frame, replyOk: bool, eventsOpen: bool)
    requires f.Pong? || f.ProbeResponse?
    ensures var s' := HandleFrame(s, f, replyOk, eventsOpen).0;
            && s'.wire == s.wire && s'.active == s.active && s'.awaiting == s.awaiting
            && s'.probes == s.probes - {f.nonce}
            && s'.log == s.log + if f.nonce in s.probes then [ProbeEntry(s.probes[f.nonce])] else []
  {
    assert f.nonce !in s.probes ==> s.probes - {f.nonce} == s.probes;
  }

  lemma FrameReports(reg: Registry, s: Contact, f: Frame, replyOk: bool, eventsOpen: bool, base: nat)
    requires Typed(reg, s) && Backed(s, base)
    ensures var s' := HandleFrame(s, f, replyOk, eventsOpen).0;
            Reports(reg, s, s', base, Incoming(f)) && Backed(s', base)
  {
    hide Typed, Told, SentUnder, Asked;
    match f {
      case AckFrame(ack) => AckReports(reg, s, ack, replyOk, eventsOpen, base);
      case Pong(_) => ProbeReports(reg, s, f, replyOk, eventsOpen, base);
      case ProbeResponse(_) => ProbeReports(reg, s, f, replyOk, eventsOpen, base);
      case Ping(_) => FewerWaits(s, HandleFrame(s, f, replyOk, eventsOpen).0, base);
      case ProbeRequest(_) => FewerWaits(s, HandleFrame(s, f, replyOk, eventsOpen).0, base);
      case _ =>
    }
  }

  lemma FewerWaits(s: Contact, s': Contact, base: nat)
    requires Backed(s, base) && s.wire <= s'.wire && Closed(s'.wire, base) && s'.active == s.active
    requires forall u :: u in s'.awaiting ==> u in s.awaiting && s'.awaiting[u] == s.awaiting[u]
    requires forall n :: n in s'.probes ==> n in s.probes && s'.probes[n] == s.probes[n]
    ensures Backed(s', base)
  {
    StaysBacked(s, s', base);
  }

  // ---------------------------------------------------------------- a whole turn

  lemma TakeReports(reg: Registry, s: Contact, c: Command, base: nat, selected: Selected)
    requires Backed(s, base)
    ensures Reports(reg, s, Take(s, c), base, selected) && Backed(Take(s, c), base)
  {
    hide Enqueue, Accepts, Told, SentUnder, Asked;
    SameBacked(s, Take(s, c), base);
  }

  lemma SilentReports(reg: Registry, s: Contact, s': Contact, base: nat, selected: Selected)
    requires Silent(s, s')
    ensures Reports(reg, s, s', base, selected)
  {
  }

  lemma IncomingReports(reg: Registry, s: Contact, r: Round, base: nat)
    requires Sound(reg, s) && s.phase == Connected && Backed(s, base) && r.selected.Incoming?
    ensures Reports(reg, s, Select(s, r), base, r.selected)
    ensures Select(s, r).phase == Connected ==> Backed(Select(s, r), base)
  {
    hide Conserved, Ledger, InOrder, Typed, HandleFrame, Told, FailSession, Backed;
    var a := s.(lastActivity := r.now);
    SoundElsewhere(reg, s, a);
    SameBacked(s, a, base);
    FrameReports(reg, a, r.selected.frame, r.replyOk, r.eventsOpen, base);
    SoundHandleFrame(reg, a, r.selected.frame, r.replyOk, r.eventsOpen);
    var h := HandleFrame(a, r.selected.frame, r.replyOk, r.eventsOpen).0;
    SoundFailSession(reg, h);
    FailSessionSilent(h);
    ReportsThenSilent(reg, s, h, FailSession(h), base, r.selected);
  }

  lemma SelectReports(reg: Registry, s: Contact, r: Round, base: nat)
    requires Sound(reg, s) && s.phase == Connected && Backed(s, base)
    ensures Reports(reg, s, Select(s, r), base, r.selected)
    ensures Select(s, r).phase == Connected ==> Backed(Select(s, r), base)
  {
    hide Conserved, Ledger, InOrder, Typed, HandleFrame, Told, FailSession, Backed, Take;
    match r.selected {
      case FromChannel(c) => if s.channelOpen { TakeReports(reg, s, c, base, r.selected); }
      case ChannelClosed => SameBacked(s, s.(channelOpen := false), base);
      case StreamBroken =>
        SoundFailSession(reg, s);
        FailSessionSilent(s);
        SilentReports(reg, s, FailSession(s), base, r.selected);
      case Incoming(_) => IncomingReports(reg, s, r, base);
      case Tick =>
    }
  }

  lemma BeforeSelectBacked(s: Contact, r: Round, base: nat)
    requires Backed(s, base)
    ensures var a, b := Release(s, Expired(s, r.now)), BeforeSelect(s, r);
            && Silent(s, a) && Silent(s, b) && Backed(b, base)
            && b.sessionId == s.sessionId && b.phase == s.phase
  {
    hide KeysOf, TagsIn, Expired;
    FewerWaits(s, BeforeSelect(s, r), base);
  }

  lemma AfterFillReports(reg: Registry, s: Contact, r: Round, base: nat)
    requires Sound(reg, s) && s.phase == Connected && Backed(s, base)
    ensures Reports(reg, s, AfterFill(s, r), base, r.selected)
    ensures AfterFill(s, r).phase == Connected ==> Backed(AfterFill(s, r), base)
  {
    hide Conserved, Ledger, InOrder, Typed, Told, FailSession, Backed, Release, Select;
    BeforeSelectBacked(s, r, base);
    var a, b := Release(s, Expired(s, r.now)), BeforeSelect(s, r);
    SoundRelease(reg, s, Expired(s, r.now));
    SoundFailSession(reg, a);
    FailSessionSilent(a);
    SilentTwice(s, a, FailSession(a));
    SilentReports(reg, s, FailSession(a), base, r.selected);
    SoundElsewhere(reg, a, b);
    SelectReports(reg, b, r, base);
    SilentThenReports(reg, s, b, Select(b, r), base, r.selected);
    SilentReports(reg, s, Disconnect(b), base, r.selected);
  }

  lemma RoundReports(reg: Registry, s: Contact, r: Round, base: nat)
    requires Sound(reg, s) && s.phase == Connected && Backed(s, base) && RoundRegistered(reg, r)
    ensures Reports(reg, s, ConnectedRound(s, r), base, r.selected)
    ensures ConnectedRound(s, r).phase == Connected ==> Backed(ConnectedRound(s, r), base)
  {
    hide Conserved, Ledger, InOrder, Typed, Told, Backed, Fill, AfterFill, TakeAll;
    var t := TakeAll(s, r.arrivals);
    TakeAllSilent(s, r.arrivals);
    SoundTakeAll(reg, s, r.arrivals);
    TakeAllQuiet(s, r.arrivals);
    SameBacked(s, t, base);
    SoundFill(reg, t, r.budget, r.at);
    FillBacked(t, r.budget, r.at, base);
    var (f, result) := Fill(t, r.budget, r.at);
    SilentTwice(s, t, f);
    SilentReports(reg, s, f, base, r.selected);
    if result == Filled {
      AfterFillReports(reg, f, r, base);
      SilentThenReports(reg, s, f, AfterFill(f, r), base, r.selected);
    }
  }

  // ---------------------------------------------------------------- whole runs

  /** Where the frames of the session start that the sender is in, or was in last. */
  ghost function SessionBase(inputs: seq<Input>): nat {
    if inputs == [] then 0
    else
      var before := inputs[..|inputs| - 1];
      var s := After(before);
      if s.phase == Waiting && Step(s, inputs[|inputs| - 1]).phase == Connected then |s.wire| else SessionBase(before)
  }

  ghost function After(inputs: seq<Input>): Contact { Run(Initial(), inputs) }

  lemma {:induction false} RunThen(s: Contact, inputs: seq<Input>, i: Input)
    ensures Run(s, inputs + [i]) == Step(Run(s, inputs), i)
    decreases |inputs|
  {
    hide Step;
    if inputs == [] {
      assert ([i])[1..] == [] && inputs + [i] == [i];
      assert Run(Step(s, i), []) == Step(s, i);
    } else {
      assert (inputs + [i])[1..] == inputs[1..] + [i];
      RunThen(Step(s, inputs[0]), inputs[1..], i);
    }
  }

  lemma AfterSnoc(inputs: seq<Input>)
    requires inputs != []
    ensures After(inputs) == Step(After(inputs[..|inputs| - 1]), inputs[|inputs| - 1])
  {
    hide Step, Run;
    assert inputs == inputs[..|inputs| - 1] + [inputs[|inputs| - 1]];
    RunThen(Initial(), inputs[..|inputs| - 1], inputs[|inputs| - 1]);
  }

  predicate AllInputsRegistered(reg: Registry, inputs: seq<Input>) {
    forall i :: 0 <= i < |inputs| ==> InputRegistered(reg, inputs[i])
  }

  lemma AfterSound(reg: Registry, inputs: seq<Input>)
    requires AllInputsRegistered(reg, inputs)
    ensures Sound(reg, After(inputs)) && LeavesNothing(After(inputs))
  {
    hide Sound;
    SoundInitially(reg);
    SoundRun(reg, Initial(), inputs);
  }

  /** Outside a session nothing is acknowledged, and a new one starts with nothing to answer. */
  lemma IdleReports(s: Contact, i: Input)
    requires s.phase != Connected
    ensures Silent(s, Step(s, i))
    ensures Step(s, i).phase == Connected ==> s.phase == Waiting && Backed(Step(s, i), |s.wire|)
  {
    hide TakeAll, WaitStep, Backed;
    if s.phase == Top && i.Drain? {
      TakeAllSilent(s, i.arrivals);
      TakeAllPhase(s, i.arrivals);
    } else if s.phase == Waiting && i.Wait? {
      WaitReports(s, i.received, i.dialled, i.at);
    }
  }

  lemma WaitReports(s: Contact, received: Option<Command>, dialled: Dialled, at: int)
    ensures Silent(s, WaitStep(s, received, dialled, at))
    ensures s.phase != Connected && WaitStep(s, received, dialled, at).phase == Connected ==>
              Backed(WaitStep(s, received, dialled, at), |s.wire|)
  {
    hide FailQueued, Enqueue, Accepts, HasDialWorthy, ConnectionTemplate;
    FailQueuedSilent(s);
  }

  lemma {:induction false} TakeAllPhase(s: Contact, cs: seq<Command>)
    ensures TakeAll(s, cs).phase == s.phase
    decreases |cs|
  {
    hide Enqueue;
    if cs != [] { TakeAllPhase(Take(s, cs[0]), cs[1..]); }
  }

  lemma {:induction false} AlwaysBacked(reg: Registry, inputs: seq<Input>)
    requires AllInputsRegistered(reg, inputs)
    ensures After(inputs).phase == Connected ==> Backed(After(inputs), SessionBase(inputs))
  {
    if inputs != [] {
      var before, i := inputs[..|inputs| - 1], inputs[|inputs| - 1];
      var s := After(before);
      AlwaysBacked(reg, before);
      AfterSnoc(inputs);
      AfterSound(reg, before);
      if s.phase == Connected {
        if i.Turn? { RoundReports(reg, s, i.round, SessionBase(before)); }
      } else {
        IdleReports(s, i);
      }
    }
  }

  /** The input is a turn whose frame says what the entry reports. */
  ghost predicate ToldBy(reg: Registry, inputs: seq<Input>, j: nat, e: Entry)
    requires j < |inputs|
  {
    var s := After(inputs[..j]);
    && inputs[j].Turn? && inputs[j].round.selected.Incoming? && s.phase == Connected
    && Told(reg, s.sessionId, After(inputs[..j + 1]).wire, SessionBase(inputs[..j]), inputs[j].round.selected.frame, e)
  }

  lemma StepReports(reg: Registry, inputs: seq<Input>)
    requires inputs != [] && AllInputsRegistered(reg, inputs)
    ensures var before := After(inputs[..|inputs| - 1]).log;
            && before <= After(inputs).log
            && forall k :: |before| <= k < |After(inputs).log| && After(inputs).log[k].Acked? ==>
                 ToldBy(reg, inputs, |inputs| - 1, After(inputs).log[k])
  {
    var before, i := inputs[..|inputs| - 1], inputs[|inputs| - 1];
    var s := After(before);
    AfterSnoc(inputs);
    AfterSound(reg, before);
    AlwaysBacked(reg, before);
    assert inputs[..|inputs| - 1 + 1] == inputs;
    hide After, Sound, Told, Backed, ConnectedRound;
    if s.phase == Connected {
      if i.Turn? { RoundReports(reg, s, i.round, SessionBase(before)); }
    } else {
      IdleReports(s, i);
    }
  }

  /**
   In every run, every acknowledgement reported to the engine was told by a frame: by an acknowledgement frame of the
   session the sender was in, of the reported kind, with the hash of the reported delivery's envelope, or, for a probe,
   by the answer to a question of that session. It confirms an endpoint sequence exactly if that update was written
   directly before the envelope or question in that session.
   */
  lemma {:induction false} ReportsAreTold(reg: Registry, inputs: seq<Input>, k: nat)
    requires AllInputsRegistered(reg, inputs) && k < |After(inputs).log| && After(inputs).log[k].Acked?
    ensures exists j :: 0 <= j < |inputs| && ToldBy(reg, inputs, j, After(inputs).log[k])
    decreases |inputs|
  {
    hide ToldBy;
    if inputs != [] {
      var before := inputs[..|inputs| - 1];
      StepReports(reg, inputs);
      if k < |After(before).log| {
        ReportsAreTold(reg, before, k);
        var j :| 0 <= j < |before| && ToldBy(reg, before, j, After(before).log[k]);
        EarlierTold(reg, inputs, j, After(inputs).log[k]);
      }
    }
  }

  lemma EarlierTold(reg: Registry, inputs: seq<Input>, j: nat, e: Entry)
    requires j < |inputs| - 1 && ToldBy(reg, inputs[..|inputs| - 1], j, e)
    ensures ToldBy(reg, inputs, j, e)
  {
    hide After, Told;
    var before := inputs[..|inputs| - 1];
    assert before[..j] == inputs[..j] && before[..j + 1] == inputs[..j + 1];
  }
}
