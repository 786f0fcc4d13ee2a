/** The order in which the delivery task writes tracked envelopes, read off its log. */
module DeliveryOrder {
  import opened Foundation
  import opened PeerTypes
  import opened Delivery
  import opened DeliveryLedger

  /** The acceptance number of a delivery: where the log last accepted it. */
  function Ticket(log: seq<Entry>, t: DeliveryTag): int
    decreases |log|
  {
    if log == [] then -1
    else if log[|log| - 1] == Accepted(t) then |log| - 1
    else Ticket(log[..|log| - 1], t)
  }

  /** The acceptance numbers of the tracked envelopes written so far, in the order of writing. */
  function WrittenTickets(log: seq<Entry>): seq<int>
    decreases |log|
  {
    if log == [] then []
    else
      var before, e := log[..|log| - 1], log[|log| - 1];
      WrittenTickets(before) + if e.Wrote? && e.tag.Tracked() then [Ticket(before, e.tag)] else []
  }

  predicate Increasing(s: seq<int>) {
    forall i, j :: 0 <= i < j < |s| ==> s[i] < s[j]
  }

  /** No envelope was ever written while another tracked one was unacknowledged. */
  ghost predicate OneAtATime(log: seq<Entry>)
    decreases |log|
  {
    log == [] ||
    var before, e := log[..|log| - 1], log[|log| - 1];
    && OneAtATime(before)
    && (e.Wrote? ==> forall t: DeliveryTag :: t.Tracked() ==> Life(before, t) != InFlight)
  }

  ghost predicate QueuedInOrder(durable: seq<Command>, log: seq<Entry>) {
    && (forall i, j :: 0 <= i < j < |durable| ==> Ticket(log, durable[i].delivery) < Ticket(log, durable[j].delivery))
    && (forall w, i :: 0 <= w < |WrittenTickets(log)| && 0 <= i < |durable| ==>
          WrittenTickets(log)[w] < Ticket(log, durable[i].delivery))
  }

  ghost predicate InOrder(s: Contact) {
    && Increasing(WrittenTickets(s.log))
    && OneAtATime(s.log)
    && QueuedInOrder(s.queues.durable, s.log)
  }

  lemma LogSnoc(log: seq<Entry>, e: Entry)
    ensures forall t :: Ticket(log + [e], t) == if e == Accepted(t) then |log| else Ticket(log, t)
    ensures WrittenTickets(log + [e]) ==
            WrittenTickets(log) + if e.Wrote? && e.tag.Tracked() then [Ticket(log, e.tag)] else []
    ensures OneAtATime(log + [e]) <==>
            && OneAtATime(log)
            && (e.Wrote? ==> forall t: DeliveryTag :: t.Tracked() ==> Life(log, t) != InFlight)
  {
    assert (log + [e])[..|log|] == log;
  }

  lemma {:induction false} TicketsBelow(log: seq<Entry>)
    ensures forall t :: Ticket(log, t) < |log|
    ensures forall w :: 0 <= w < |WrittenTickets(log)| ==> WrittenTickets(log)[w] < |log|
    decreases |log|
  {
    if log != [] { TicketsBelow(log[..|log| - 1]); }
  }

  /** Entries other than acceptances and writes leave the order alone, also when the head of the queue goes. */
  lemma QuietKeepsOrder(s: Contact, s': Contact, e: Entry)
    requires InOrder(s) && !e.Accepted? && !e.Wrote?
    requires s'.log == s.log + [e]
    requires s'.queues.durable == s.queues.durable
             || (s.queues.durable != [] && s'.queues.durable == s.queues.durable[1..])
    ensures InOrder(s')
  {
    LogSnoc(s.log, e);
  }

  lemma AcceptKeepsOrder(s: Contact, c: Command)
    requires InOrder(s) && Conserved(s) && Accepts(s.queues, c) && Life(s.log, c.delivery) == Absent
    ensures InOrder(Take(s, c))
  {
    LogSnoc(s.log, Accepted(c.delivery));
    TicketsBelow(s.log);
    var durable' := Take(s, c).queues.durable;
    forall i | 0 <= i < |s.queues.durable| ensures s.queues.durable[i].delivery != c.delivery {
      assert s.queues.durable[i].delivery in TagsOf(s.queues.durable);
      assert Placed(s, c.delivery, Life(s.log, c.delivery));
    }
  }

  lemma TakeKeepsOrder(s: Contact, c: Command)
    requires InOrder(s) && Conserved(s) && Ledger(s)
    ensures InOrder(Take(s, c))
  {
    if Accepts(s.queues, c) {
      assert !Blocks(s.queues, c.delivery);
      AcceptKeepsOrder(s, c);
    }
  }

  lemma WindowOrdered(s: Contact, p: Contact, s': Contact, c: Command, at: int)
    requires InOrder(s) && Conserved(s) && s.active == map[] && p.log == s.log
    requires if c.delivery.Tracked()
             then s.queues.durable != [] && s.queues.durable[0] == c && p.queues.durable == s.queues.durable[1..]
             else p.queues.durable == s.queues.durable
    requires EntersWindow(p, s', c, at)
    ensures InOrder(s')
  {
    if Enveloped(c.delivery) {
      LogSnoc(s.log, Wrote(c.delivery));
      forall t: DeliveryTag | t.Tracked() ensures Life(s.log, t) != InFlight {
        assert Placed(s, t, Life(s.log, t));
      }
    }
  }

  lemma WrittenKeepsOrder(reg: Registry, s: Contact, c: Command, at: int)
    requires Typed(reg, s) && Conserved(s) && InOrder(s) && s.active == map[]
    requires PopNext(s.queues).0 == Some(c)
    ensures InOrder(Written(s.(queues := PopNext(s.queues).1), c, at))
  {
    var p := s.(queues := PopNext(s.queues).1);
    WrittenEntersWindow(p, c, at);
    PopRegistered(reg, s.queues);
    WindowOrdered(s, p, Written(p, c, at), c, at);
  }

  lemma FailPoppedKeepsOrder(s: Contact, c: Command)
    requires SlotsTyped(s.queues) && InOrder(s) && PopNext(s.queues).0 == Some(c)
    ensures InOrder(FailPopped(s.(queues := PopNext(s.queues).1), c.delivery))
  {
    if c.delivery.IsDurable() {
      QuietKeepsOrder(s, FailPopped(s.(queues := PopNext(s.queues).1), c.delivery), BackedOff(c.delivery));
    }
  }

  lemma ReleaseKeepsOrder(s: Contact, waiters: set<Uuid>)
    requires InOrder(s)
    ensures InOrder(Release(s, waiters))
  {
    var s' := Release(s, waiters);
    QuietKeepsOrder(s, s', s'.log[|s.log|]);
  }

  lemma {:induction false} FailQueuedKeepsOrder(s: Contact)
    requires InOrder(s)
    ensures InOrder(FailQueued(s))
    decreases |s.queues.durable|
  {
    if s.queues.durable != [] {
      QuietKeepsOrder(s, FailHead(s), BackedOff(s.queues.durable[0].delivery));
      FailQueuedKeepsOrder(FailHead(s));
    } else if s.queues.endpointUpdate.Some? {
      QuietKeepsOrder(s, FailQueued(s), BackedOff(s.queues.endpointUpdate.value.delivery));
    }
  }

  lemma FailSessionKeepsOrder(s: Contact)
    requires InOrder(s)
    ensures InOrder(FailSession(s))
  {
    var emptied := s.(queues := s.queues.(dedupe := s.queues.dedupe - KeysOf(TagsIn(s.active))),
                      active := map[],
                      log := s.log + ActiveFailures(s.active));
    if s.active == map[] {
      assert emptied.log == s.log;
    } else {
      QuietKeepsOrder(s, emptied, ActiveFailures(s.active)[0]);
    }
    ReleaseKeepsOrder(emptied, emptied.awaiting.Keys);
    FailQueuedKeepsOrder(Disconnect(FailActive(s)));
  }

  lemma ApplyAckLogs(s: Contact, u: Uuid, kind: AckKind)
    requires KnowsDelivery(s, u)
    ensures var s' := ApplyAck(s, u, kind);
            && s'.queues.durable == s.queues.durable
            && |s'.log| == |s.log| + 1 && s'.log[..|s.log|] == s.log && s'.log[|s.log|].Acked?
  {
  }

  /** A frame adds at most one acknowledgement to the log and leaves the durable queue alone. */
  lemma HandleFrameLogs(s: Contact, f: Frame, replyOk: bool, eventsOpen: bool)
    ensures var s' := HandleFrame(s, f, replyOk, eventsOpen).0;
            && s'.queues.durable == s.queues.durable
            && (s'.log == s.log || (|s'.log| == |s.log| + 1 && s'.log[..|s.log|] == s.log && s'.log[|s.log|].Acked?))
  {
    if f.AckFrame? && KnowsDelivery(s, f.ack.messageId) { ApplyAckLogs(s, f.ack.messageId, f.ack.kind); }
    hide ApplyAck, KnowsDelivery, FindDelivery;
  }

  lemma HandleFrameKeepsOrder(s: Contact, f: Frame, replyOk: bool, eventsOpen: bool)
    requires InOrder(s)
    ensures InOrder(HandleFrame(s, f, replyOk, eventsOpen).0)
  {
    hide HandleFrame;
    HandleFrameLogs(s, f, replyOk, eventsOpen);
    var s' := HandleFrame(s, f, replyOk, eventsOpen).0;
    if s'.log != s.log {
      assert s'.log == s.log + [s'.log[|s.log|]];
      QuietKeepsOrder(s, s', s'.log[|s.log|]);
    }
  }
}
