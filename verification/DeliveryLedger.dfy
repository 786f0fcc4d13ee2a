/**
 What every run of the delivery task keeps. A monitor reads the log alone and assigns each delivery a stage;
 the containers and the dedupe set must agree with it at every step.
 */
module DeliveryLedger {
  import opened Foundation
  import opened PeerTypes
  import opened Delivery

  /** `Broken` is reached by any history the transport must never produce. */
  datatype Stage = Absent | Queued | InFlight | Durable | Broken

  function Acknowledge(st: Stage, kind: AckKind, message: bool): Stage {
    if st != InFlight && st != Durable then Broken
    else match kind
      case Received => st
      case Persisted => if message then Durable else if st == InFlight then Absent else Broken
      case Delivered => Absent
      case Rejected => Absent
  }

  function Advance(st: Stage, e: Entry, t: DeliveryTag): Stage {
    match e
    case Accepted(x) => if x != t then st else if st == Absent then Queued else Broken
    case Wrote(x) => if x != t then st else if st == Queued then InFlight else Broken
    case Acked(x, kind, _) => if x != t then st else Acknowledge(st, kind, t.Message?)
    case BackedOff(x) => if x != t then st else if st == Queued || st == InFlight then Absent else Broken
    case Released(xs) => if t !in xs then st else if st == Durable then Absent else Broken
  }

  function Life(log: seq<Entry>, t: DeliveryTag): Stage
    decreases |log|
  {
    if log == [] then Absent else Advance(Life(log[..|log| - 1], t), log[|log| - 1], t)
  }

  lemma LifeSnoc(log: seq<Entry>, e: Entry)
    ensures forall t :: Life(log + [e], t) == Advance(Life(log, t), e, t)
  {
    assert (log + [e])[..|log|] == log;
  }

  // ---------------------------------------------------------------- the invariant

  datatype Content = Content(tag: DeliveryTag, ciphertext: Bytes)

  /** Envelope ids are fresh UUIDs: an id stands for one delivery with one ciphertext. */
  type Registry = Uuid -> Content

  predicate Registered(reg: Registry, c: Command) {
    reg(c.messageId) == Content(c.delivery, c.ciphertext)
  }

  predicate AllRegistered(reg: Registry, cs: seq<Command>) {
    forall i :: 0 <= i < |cs| ==> Registered(reg, cs[i])
  }

  predicate SlotRegistered(reg: Registry, o: Option<Command>) {
    o.Some? ==> Registered(reg, o.value)
  }

  predicate QueuesRegistered(reg: Registry, q: Queues) {
    && AllRegistered(reg, q.durable)
    && SlotRegistered(reg, q.endpointUpdate)
    && SlotRegistered(reg, q.probe)
    && SlotRegistered(reg, q.ephemeral)
  }

  predicate Awaits(reg: Registry, u: Uuid, d: ActiveDelivery) {
    && d.delivery == reg(u).tag
    && d.expectedHash == Sha256(reg(u).ciphertext)
  }

  predicate QueuesTyped(reg: Registry, q: Queues) {
    SlotsTyped(q) && QueuesRegistered(reg, q)
  }

  predicate OneTagEach(m: map<Uuid, ActiveDelivery>) {
    forall u, v :: u in m && v in m && m[u].delivery == m[v].delivery ==> u == v
  }

  predicate WindowTyped(reg: Registry, active: map<Uuid, ActiveDelivery>) {
    && |active| <= MAX_IN_FLIGHT
    && (forall u :: u in active ==> Awaits(reg, u, active[u]) && Enveloped(active[u].delivery))
  }

  predicate WaitersTyped(reg: Registry, awaiting: map<Uuid, ActiveDelivery>) {
    && (forall u :: u in awaiting ==> Awaits(reg, u, awaiting[u]) && awaiting[u].delivery.Message?)
    && OneTagEach(awaiting)
  }

  /** Probes are reported under untracked tags. */
  predicate ProbesUntracked(probes: map<nat, EndpointProbe>) {
    forall n :: n in probes ==> !probes[n].delivery.Tracked()
  }

  predicate Typed(reg: Registry, s: Contact) {
    && QueuesTyped(reg, s.queues)
    && WindowTyped(reg, s.active)
    && WaitersTyped(reg, s.awaiting)
    && ProbesUntracked(s.probes)
    && (s.phase != Connected ==> s.active == map[] && s.awaiting == map[])
  }

  /** Deliveries sent as an envelope that the peer acknowledges. */
  predicate Enveloped(t: DeliveryTag) { t.Tracked() || t.RelationshipRemovalAck? }

  function TagsOf(cs: seq<Command>): set<DeliveryTag> {
    set i | 0 <= i < |cs| :: cs[i].delivery
  }

  predicate DistinctTags(cs: seq<Command>) {
    forall i, j :: 0 <= i < j < |cs| ==> cs[i].delivery != cs[j].delivery
  }

  /** Where the containers say a delivery is. */
  predicate Placed(s: Contact, t: DeliveryTag, st: Stage) {
    && (st == Queued <==> t in TagsOf(s.queues.durable))
    && (st == InFlight <==> t in TagsIn(s.active))
    && (st == Durable <==> t in TagsIn(s.awaiting))
    && st != Broken
  }

  ghost predicate Conserved(s: Contact) {
    && DistinctTags(s.queues.durable)
    && (forall t: DeliveryTag :: t.Tracked() ==> Placed(s, t, Life(s.log, t)))
  }

  predicate Blocks(q: Queues, t: DeliveryTag) {
    t.DedupeKey().Some? && t.DedupeKey().value in q.dedupe
  }

  ghost predicate Ledger(s: Contact) {
    && (forall t: DeliveryTag :: Blocks(s.queues, t) <==> t.Tracked() && Life(s.log, t) != Absent)
    && (forall k :: k in s.queues.dedupe ==> exists t: DeliveryTag :: t.DedupeKey() == Some(k))
  }

  ghost predicate Inv(reg: Registry, s: Contact) {
    Typed(reg, s) && Conserved(s) && Ledger(s)
  }

  // ---------------------------------------------------------------- dedupe keys as tags

  lemma KeysDistinct()
    ensures forall a: DeliveryTag, b: DeliveryTag ::
              a.DedupeKey().Some? && a.DedupeKey() == b.DedupeKey() ==> a == b
  {
    forall a: DeliveryTag, b: DeliveryTag | a.DedupeKey().Some? && a.DedupeKey() == b.DedupeKey()
      ensures a == b
    {
      DedupeKeyInjective(a, b);
    }
  }

  lemma BlocksAfterComplete(q: Queues, x: DeliveryTag)
    ensures forall t :: Blocks(Complete(q, x), t) <==> Blocks(q, t) && t != x
  {
    KeysDistinct();
  }

  lemma BlocksAfterAccept(q: Queues, c: Command)
    requires Accepts(q, c)
    ensures forall t :: Blocks(Enqueue(q, c), t) <==> Blocks(q, t) || t == c.delivery
  {
    KeysDistinct();
  }

  lemma BlocksAfterRemoving(q: Queues, tags: set<DeliveryTag>)
    ensures forall t :: Blocks(q.(dedupe := q.dedupe - KeysOf(tags)), t) <==> Blocks(q, t) && t !in tags
  {
    KeysDistinct();
  }

  // ---------------------------------------------------------------- each primitive keeps it

  lemma EnqueueTyped(reg: Registry, q: Queues, c: Command)
    requires QueuesTyped(reg, q) && Registered(reg, c)
    ensures QueuesTyped(reg, Enqueue(q, c))
  {
    hide DeliveryTag.DedupeKey;
  }

  lemma TagsOfSnoc(cs: seq<Command>, c: Command)
    ensures TagsOf(cs + [c]) == TagsOf(cs) + {c.delivery}
    ensures DistinctTags(cs) && c.delivery !in TagsOf(cs) ==> DistinctTags(cs + [c])
  {
    var all := cs + [c];
    assert all[|cs|] == c;
    forall t | t in TagsOf(cs) ensures t in TagsOf(all) {
      var i :| 0 <= i < |cs| && cs[i].delivery == t;
      assert all[i].delivery == t;
    }
    forall i | 0 <= i < |cs| ensures cs[i].delivery in TagsOf(cs) {}
  }

  lemma AcceptConserved(s: Contact, s': Contact, c: Command)
    requires Conserved(s) && Ledger(s) && Accepts(s.queues, c)
    requires s'.queues == Enqueue(s.queues, c) && s'.log == s.log + [Accepted(c.delivery)]
    requires s'.active == s.active && s'.awaiting == s.awaiting
    ensures Conserved(s') && Ledger(s')
  {
    hide DeliveryTag.DedupeKey;
    LifeSnoc(s.log, Accepted(c.delivery));
    BlocksAfterAccept(s.queues, c);
    assert !Blocks(s.queues, c.delivery);
    assert Life(s.log, c.delivery) == Absent;
    assert Placed(s, c.delivery, Life(s.log, c.delivery));
    TagsOfSnoc(s.queues.durable, c);
    forall t: DeliveryTag | t.Tracked() ensures Placed(s', t, Life(s'.log, t)) {
      assert Placed(s, t, Life(s.log, t));
    }
  }

  lemma TakeKeeps(reg: Registry, s: Contact, c: Command)
    requires Inv(reg, s) && Registered(reg, c)
    ensures Inv(reg, Take(s, c))
  {
    hide Conserved, Ledger, DeliveryTag.DedupeKey;
    EnqueueTyped(reg, s.queues, c);
    if Accepts(s.queues, c) {
      AcceptConserved(s, Take(s, c), c);
    } else {
      SameDeliveriesKeeps(s, Take(s, c));
    }
  }

  lemma TagsOfTail(cs: seq<Command>)
    requires cs != [] && DistinctTags(cs)
    ensures TagsOf(cs[1..]) == TagsOf(cs) - {cs[0].delivery}
    ensures cs[0].delivery in TagsOf(cs)
    ensures DistinctTags(cs[1..])
  {
    forall t | t in TagsOf(cs) && t != cs[0].delivery ensures t in TagsOf(cs[1..]) {
      var i :| 0 <= i < |cs| && cs[i].delivery == t;
      assert cs[1..][i - 1].delivery == t;
    }
    forall t | t in TagsOf(cs[1..]) ensures t in TagsOf(cs) && t != cs[0].delivery {
      var i :| 0 <= i < |cs[1..]| && cs[1..][i].delivery == t;
      assert cs[i + 1].delivery == t;
    }
  }

  /** Steps that touch no tracked delivery. */
  ghost predicate SameDeliveries(s: Contact, s': Contact) {
    && s'.queues.durable == s.queues.durable
    && s'.queues.dedupe == s.queues.dedupe
    && s'.awaiting == s.awaiting
    && (forall t: DeliveryTag :: t.Tracked() ==> (t in TagsIn(s'.active) <==> t in TagsIn(s.active)))
    && (forall t: DeliveryTag :: t.Tracked() ==> Life(s'.log, t) == Life(s.log, t))
  }

  lemma SameDeliveriesKeeps(s: Contact, s': Contact)
    requires Conserved(s) && Ledger(s) && SameDeliveries(s, s')
    ensures Conserved(s') && Ledger(s')
  {
    hide DeliveryTag.DedupeKey;
    forall t: DeliveryTag | t.Tracked() ensures Placed(s', t, Life(s'.log, t)) {
      assert Placed(s, t, Life(s.log, t));
    }
    forall t: DeliveryTag ensures Blocks(s'.queues, t) <==> t.Tracked() && Life(s'.log, t) != Absent {
      assert Blocks(s'.queues, t) <==> Blocks(s.queues, t);
    }
  }

  /** One log entry about one delivery, with the containers of all others untouched. */
  lemma MoveKeeps(s: Contact, s': Contact, t: DeliveryTag, e: Entry)
    requires Conserved(s) && Ledger(s)
    requires s'.log == s.log + [e] && s'.queues.durable == s.queues.durable
    requires s'.queues.dedupe <= s.queues.dedupe
    requires forall x: DeliveryTag :: x.Tracked() && x != t ==>
               && (x in TagsIn(s'.active) <==> x in TagsIn(s.active))
               && (x in TagsIn(s'.awaiting) <==> x in TagsIn(s.awaiting))
               && Advance(Life(s.log, x), e, x) == Life(s.log, x)
    requires t.Tracked() ==> Placed(s', t, Advance(Life(s.log, t), e, t))
    requires forall x :: Blocks(s'.queues, x) <==>
               if x == t then t.Tracked() && Advance(Life(s.log, t), e, t) != Absent else Blocks(s.queues, x)
    ensures Conserved(s') && Ledger(s')
  {
    hide DeliveryTag.DedupeKey;
    LifeSnoc(s.log, e);
    forall x: DeliveryTag | x.Tracked() ensures Placed(s', x, Life(s'.log, x)) {
      assert Placed(s, x, Life(s.log, x));
    }
  }

  predicate EntersWindow(s: Contact, s': Contact, c: Command, at: int) {
    && s'.queues == s.queues && s'.awaiting == s.awaiting && s'.phase == s.phase
    && (ProbesUntracked(s.probes) ==> ProbesUntracked(s'.probes))
    && if Enveloped(c.delivery)
       then s'.active == s.active[c.messageId := ActiveOf(c, s.sentSequence, at)]
           && s'.log == s.log + [Wrote(c.delivery)]
       else s'.active == s.active && s'.log == s.log
  }

  lemma WrittenEntersWindow(s: Contact, c: Command, at: int)
    ensures EntersWindow(s, Written(s, c, at), c, at)
  {
    hide UnsentUpdates, FramesOf;
  }

  lemma PopRegistered(reg: Registry, q: Queues)
    requires SlotsTyped(q) && QueuesRegistered(reg, q) && PopNext(q).0.Some?
    ensures SlotsTyped(PopNext(q).1) && QueuesRegistered(reg, PopNext(q).1)
    ensures Registered(reg, PopNext(q).0.value)
    ensures PopNext(q).1.dedupe == q.dedupe
    ensures var c := PopNext(q).0.value;
            if c.delivery.Tracked() then q.durable != [] && c == q.durable[0] && PopNext(q).1.durable == q.durable[1..]
            else q.durable == [] && PopNext(q).1.durable == []
  {
  }

  lemma WindowStaysTyped(reg: Registry, s: Contact, p: Contact, s': Contact, c: Command, at: int)
    requires Typed(reg, s) && s.phase == Connected && s.active == map[]
    requires PopNext(s.queues).0 == Some(c) && p == s.(queues := PopNext(s.queues).1)
    requires EntersWindow(p, s', c, at)
    ensures Typed(reg, s')
  {
    PopRegistered(reg, s.queues);
    if Enveloped(c.delivery) {
      assert s'.active == map[c.messageId := ActiveOf(c, s.sentSequence, at)];
    }
  }

  lemma WindowConserved(s: Contact, p: Contact, s': Contact, c: Command, at: int)
    requires Conserved(s) && Ledger(s) && s.active == map[]
    requires p.queues.dedupe == s.queues.dedupe && p.log == s.log && p.active == map[] && p.awaiting == s.awaiting
    requires if c.delivery.Tracked()
             then s.queues.durable != [] && s.queues.durable[0] == c && p.queues.durable == s.queues.durable[1..]
             else p.queues.durable == s.queues.durable
    requires EntersWindow(p, s', c, at)
    ensures Conserved(s') && Ledger(s')
  {
    hide DeliveryTag.DedupeKey;
    assert TagsIn(s.active) == {};
    if Enveloped(c.delivery) {
      LifeSnoc(s.log, Wrote(c.delivery));
      assert s'.active == map[c.messageId := ActiveOf(c, p.sentSequence, at)];
      assert TagsIn(s'.active) == {c.delivery} by { assert s'.active[c.messageId].delivery == c.delivery; }
    }
    if c.delivery.Tracked() {
      TagsOfTail(s.queues.durable);
      forall t: DeliveryTag | t.Tracked() ensures Placed(s', t, Life(s'.log, t)) {
        assert Placed(s, t, Life(s.log, t));
      }
      forall t: DeliveryTag ensures Blocks(s'.queues, t) <==> t.Tracked() && Life(s'.log, t) != Absent {
        assert Blocks(s'.queues, t) <==> Blocks(s.queues, t);
        if t.Tracked() { assert Placed(s, t, Life(s.log, t)); }
      }
    } else {
      SameDeliveriesKeeps(s, s');
    }
  }

  /** Popping and writing one command moves a tracked delivery from the queue into the empty window. */
  lemma WrittenKeeps(reg: Registry, s: Contact, c: Command, at: int)
    requires Inv(reg, s) && s.phase == Connected && s.active == map[]
    requires PopNext(s.queues).0 == Some(c)
    ensures Inv(reg, Written(s.(queues := PopNext(s.queues).1), c, at))
  {
    var p := s.(queues := PopNext(s.queues).1);
    var s' := Written(p, c, at);
    WrittenEntersWindow(p, c, at);
    PopRegistered(reg, s.queues);
    WindowStaysTyped(reg, s, p, s', c, at);
    WindowConserved(s, p, s', c, at);
  }

  lemma HeadFailed(s: Contact, s': Contact, t: DeliveryTag)
    requires Conserved(s) && Ledger(s)
    requires s.queues.durable != [] && s.queues.durable[0].delivery == t && t.Tracked()
    requires s'.queues.durable == s.queues.durable[1..] && s'.queues.dedupe == Complete(s.queues, t).dedupe
    requires s'.active == s.active && s'.awaiting == s.awaiting && s'.log == s.log + [BackedOff(t)]
    ensures Conserved(s') && Ledger(s')
  {
    hide DeliveryTag.DedupeKey;
    TagsOfTail(s.queues.durable);
    LifeSnoc(s.log, BackedOff(t));
    BlocksAfterComplete(s.queues, t);
    forall x: DeliveryTag | x.Tracked() ensures Placed(s', x, Life(s'.log, x)) {
      assert Placed(s, x, Life(s.log, x));
    }
    forall x: DeliveryTag ensures Blocks(s'.queues, x) <==> x.Tracked() && Life(s'.log, x) != Absent {
      assert Blocks(s'.queues, x) <==> Blocks(Complete(s.queues, t), x);
      if x.Tracked() { assert Placed(s, x, Life(s.log, x)); }
    }
  }

  lemma UntrackedFailed(s: Contact, s': Contact, t: DeliveryTag)
    requires Conserved(s) && Ledger(s) && !t.Tracked()
    requires s'.queues.durable == s.queues.durable && s'.queues.dedupe == Complete(s.queues, t).dedupe
    requires s'.active == s.active && s'.awaiting == s.awaiting
    requires s'.log == s.log || s'.log == s.log + [BackedOff(t)]
    ensures Conserved(s') && Ledger(s')
  {
    hide DeliveryTag.DedupeKey;
    LifeSnoc(s.log, BackedOff(t));
    assert !Blocks(s.queues, t);
    assert s'.queues.dedupe == s.queues.dedupe;
    SameDeliveriesKeeps(s, s');
  }

  lemma CompleteTyped(reg: Registry, q: Queues, t: DeliveryTag)
    requires QueuesTyped(reg, q)
    ensures QueuesTyped(reg, Complete(q, t))
    ensures Complete(q, t) == q.(dedupe := Complete(q, t).dedupe)
    ensures forall q': Queues :: q'.dedupe == q.dedupe ==> Complete(q', t).dedupe == Complete(q, t).dedupe
  {
    hide DeliveryTag.DedupeKey;
  }

  /** A popped command that cannot be written is reported as failed and unblocked. */
  lemma FailPoppedKeeps(reg: Registry, s: Contact, c: Command)
    requires Inv(reg, s) && PopNext(s.queues).0 == Some(c)
    ensures Inv(reg, FailPopped(s.(queues := PopNext(s.queues).1), c.delivery))
  {
    hide Conserved, Ledger, DeliveryTag.DedupeKey;
    var s' := FailPopped(s.(queues := PopNext(s.queues).1), c.delivery);
    PopRegistered(reg, s.queues);
    CompleteTyped(reg, PopNext(s.queues).1, c.delivery);
    hide QueuesTyped;
    if c.delivery.Tracked() { HeadFailed(s, s', c.delivery); } else { UntrackedFailed(s, s', c.delivery); }
  }

  lemma ReleasedTags(s: Contact, waiters: set<Uuid>)
    requires OneTagEach(s.awaiting)
    ensures var tags := TagsIn(map u | u in s.awaiting && u in waiters :: s.awaiting[u]);
            && tags <= TagsIn(s.awaiting)
            && TagsIn(s.awaiting - waiters) == TagsIn(s.awaiting) - tags
  {
    var gone := map u | u in s.awaiting && u in waiters :: s.awaiting[u];
    var rest := s.awaiting - waiters;
    forall t | t in TagsIn(gone) ensures t in TagsIn(s.awaiting) && t !in TagsIn(rest) {
      var v :| v in gone && gone[v].delivery == t;
      assert s.awaiting[v].delivery == t;
    }
    forall t | t in TagsIn(s.awaiting) ensures t in TagsIn(gone) || t in TagsIn(rest) {
      var u :| u in s.awaiting && s.awaiting[u].delivery == t;
      if u in waiters { assert gone[u].delivery == t; } else { assert rest[u].delivery == t; }
    }
    forall t | t in TagsIn(rest) ensures t in TagsIn(s.awaiting) {
      var u :| u in rest && rest[u].delivery == t;
      assert s.awaiting[u].delivery == t;
    }
  }

  lemma ReleaseTyped(reg: Registry, s: Contact, waiters: set<Uuid>)
    requires Typed(reg, s)
    ensures Typed(reg, Release(s, waiters))
  {
  }

  lemma ReleaseConserved(s: Contact, s': Contact, tags: set<DeliveryTag>)
    requires Conserved(s) && Ledger(s)
    requires s'.queues == s.queues.(dedupe := s.queues.dedupe - KeysOf(tags)) && s'.active == s.active
    requires s'.log == s.log + [Released(tags)]
    requires tags <= TagsIn(s.awaiting) && TagsIn(s'.awaiting) == TagsIn(s.awaiting) - tags
    requires forall t: DeliveryTag :: t in tags ==> t.Tracked()
    ensures Conserved(s') && Ledger(s')
  {
    hide DeliveryTag.DedupeKey;
    LifeSnoc(s.log, Released(tags));
    BlocksAfterRemoving(s.queues, tags);
    forall t: DeliveryTag | t.Tracked() ensures Placed(s', t, Life(s'.log, t)) {
      assert Placed(s, t, Life(s.log, t));
    }
    forall t: DeliveryTag ensures Blocks(s'.queues, t) <==> t.Tracked() && Life(s'.log, t) != Absent {
      if t.Tracked() { assert Placed(s, t, Life(s.log, t)); }
    }
  }

  lemma ReleaseKeeps(reg: Registry, s: Contact, waiters: set<Uuid>)
    requires Inv(reg, s)
    ensures Inv(reg, Release(s, waiters))
  {
    hide Conserved, Ledger;
    var tags := TagsIn(map u | u in s.awaiting && u in waiters :: s.awaiting[u]);
    ReleaseTyped(reg, s, waiters);
    ReleasedTags(s, waiters);
    forall t: DeliveryTag | t in TagsIn(s.awaiting) ensures t.Tracked() {
      var v :| v in s.awaiting && s.awaiting[v].delivery == t;
    }
    ReleaseConserved(s, Release(s, waiters), tags);
  }

  lemma OneElement<K, V>(m: map<K, V>, a: K, b: K)
    requires |m| <= 1 && a in m && b in m
    ensures a == b
  {
    if a != b {
      assert {a, b} <= m.Keys;
      assert |{a, b}| == 2;
      SubsetSize({a, b}, m.Keys);
    }
  }

  lemma ActiveFailed(s: Contact)
    requires s.active != map[] && |s.active| <= 1
    ensures |ActiveFailures(s.active)| == 1 && ActiveFailures(s.active)[0].BackedOff?
    ensures TagsIn(s.active) == {ActiveFailures(s.active)[0].tag}
  {
    var u :| u in s.active && ActiveFailures(s.active) == [BackedOff(s.active[u].delivery)];
    forall v | v in s.active ensures v == u { OneElement(s.active, u, v); }
    assert s.active[u].delivery in TagsIn(s.active);
  }

  /** Clearing the window reports its delivery as failed and unblocks it. */
  lemma ClearWindowConserved(s: Contact, s': Contact)
    requires Conserved(s) && Ledger(s) && |s.active| <= 1
    requires s'.queues == s.queues.(dedupe := s.queues.dedupe - KeysOf(TagsIn(s.active))) && s'.awaiting == s.awaiting
    requires s'.active == map[] && s'.log == s.log + ActiveFailures(s.active)
    ensures Conserved(s') && Ledger(s')
  {
    hide DeliveryTag.DedupeKey;
    BlocksAfterRemoving(s.queues, TagsIn(s.active));
    assert TagsIn(s'.active) == {};
    if s.active == map[] {
      assert s'.log == s.log && KeysOf(TagsIn(s.active)) == {};
      SameDeliveriesKeeps(s, s');
    } else {
      ActiveFailed(s);
      var t := ActiveFailures(s.active)[0].tag;
      assert ActiveFailures(s.active) == [BackedOff(t)];
      assert t.Tracked() ==> Placed(s, t, Life(s.log, t));
      MoveKeeps(s, s', t, BackedOff(t));
    }
  }

  lemma ClearWindowKeeps(reg: Registry, s: Contact, s': Contact)
    requires Inv(reg, s)
    requires s' == s.(queues := s.queues.(dedupe := s.queues.dedupe - KeysOf(TagsIn(s.active))),
                      active := map[], log := s.log + ActiveFailures(s.active))
    ensures Inv(reg, s')
  {
    hide Conserved, Ledger;
    ClearWindowConserved(s, s');
  }

  lemma FailActiveKeeps(reg: Registry, s: Contact)
    requires Inv(reg, s)
    ensures Inv(reg, FailActive(s))
    ensures FailActive(s).active == map[] && FailActive(s).awaiting == map[]
  {
    hide DeliveryTag.DedupeKey;
    var emptied := s.(queues := s.queues.(dedupe := s.queues.dedupe - KeysOf(TagsIn(s.active))),
                      active := map[],
                      log := s.log + ActiveFailures(s.active));
    ClearWindowKeeps(reg, s, emptied);
    ReleaseKeeps(reg, emptied, emptied.awaiting.Keys);
    assert emptied.awaiting - emptied.awaiting.Keys == map[];
  }

  lemma FailSlotsKeeps(reg: Registry, s: Contact)
    requires Inv(reg, s) && s.queues.durable == []
    ensures Inv(reg, FailQueued(s))
  {
    hide DeliveryTag.DedupeKey, Conserved, Ledger;
    var s' := FailQueued(s);
    if s.queues.endpointUpdate.Some? { LifeSnoc(s.log, BackedOff(s.queues.endpointUpdate.value.delivery)); }
    SameDeliveriesKeeps(s, s');
  }

  lemma HeadIsPopped(s: Contact)
    requires s.queues.durable != [] && s.queues.durable[0].delivery.Tracked()
    ensures FailHead(s) == FailPopped(s.(queues := PopNext(s.queues).1), s.queues.durable[0].delivery)
    ensures FailHead(s).queues.durable == s.queues.durable[1..] && FailHead(s).phase == s.phase
    ensures FailHead(s).active == s.active && FailHead(s).awaiting == s.awaiting
  {
  }

  lemma {:induction false} FailQueuedKeeps(reg: Registry, s: Contact)
    requires Inv(reg, s)
    ensures Inv(reg, FailQueued(s))
    ensures IsEmpty(FailQueued(s).queues) && FailQueued(s).phase == s.phase
    ensures FailQueued(s).active == s.active && FailQueued(s).awaiting == s.awaiting
    decreases |s.queues.durable|
  {
    if s.queues.durable != [] {
      FailPoppedKeeps(reg, s, s.queues.durable[0]);
      HeadIsPopped(s);
      hide Inv, DeliveryTag.DedupeKey, FailHead, FailPopped;
      FailQueuedKeeps(reg, FailHead(s));
    } else {
      FailSlotsKeeps(reg, s);
    }
  }

  /** Nothing is left in the dedupe set when neither the queue nor a session holds a delivery. */
  lemma NothingBlocked(reg: Registry, s: Contact)
    requires Inv(reg, s) && s.queues.durable == [] && s.active == map[] && s.awaiting == map[]
    ensures s.queues.dedupe == {}
    ensures forall t: DeliveryTag :: t.Tracked() ==> Life(s.log, t) == Absent
  {
    assert TagsIn(s.active) == {} && TagsIn(s.awaiting) == {} && TagsOf(s.queues.durable) == {};
    forall t: DeliveryTag | t.Tracked() ensures Life(s.log, t) == Absent {
      assert Placed(s, t, Life(s.log, t));
    }
    if k :| k in s.queues.dedupe {
      var t: DeliveryTag :| t.DedupeKey() == Some(k);
      assert Blocks(s.queues, t);
    }
  }

  lemma FailSessionKeeps(reg: Registry, s: Contact)
    requires Inv(reg, s)
    ensures Inv(reg, FailSession(s))
    ensures FailSession(s).queues == EMPTY_QUEUES && FailSession(s).phase == Top
    ensures forall t: DeliveryTag :: t.Tracked() ==> Life(FailSession(s).log, t) == Absent
  {
    hide DeliveryTag.DedupeKey;
    FailActiveKeeps(reg, s);
    var a := FailActive(s);
    var d := Disconnect(a);
    forall t: DeliveryTag | t.Tracked() ensures Placed(d, t, Life(d.log, t)) {
      assert Placed(a, t, Life(a.log, t));
    }
    assert Inv(reg, d);
    FailQueuedKeeps(reg, d);
    NothingBlocked(reg, FailQueued(d));
  }

  // ---------------------------------------------------------------- acknowledgements

  /** With one delivery in flight, an acknowledged id names one stage only. */
  lemma KnownStage(reg: Registry, s: Contact, u: Uuid)
    requires Inv(reg, s) && KnowsDelivery(s, u)
    ensures var t := FindDelivery(s, u).delivery;
            && Enveloped(t)
            && (u in s.active
                ==> TagsIn(s.active) == {t} && s.active - {u} == map[] && u !in s.awaiting && t !in TagsIn(s.awaiting))
            && (u !in s.active ==> t.Message? && t in TagsIn(s.awaiting))
            && (t.Tracked() ==> Life(s.log, t) == if u in s.active then InFlight else Durable)
  {
    hide DeliveryTag.DedupeKey;
    var t := FindDelivery(s, u).delivery;
    assert t.Tracked() ==> Placed(s, t, Life(s.log, t));
    assert u in s.awaiting ==> s.awaiting[u].delivery in TagsIn(s.awaiting) && s.awaiting[u].delivery == t;
    assert !t.Message? ==> t !in TagsIn(s.awaiting);
    if u in s.active {
      forall v | v in s.active ensures v == u { OneElement(s.active, u, v); }
      assert TagsIn(s.active) == {t} by { assert s.active[u].delivery == t; }
    }
  }

  lemma AwaitingTagsMinus(reg: Registry, s: Contact, u: Uuid)
    requires Typed(reg, s) && u in s.awaiting
    ensures TagsIn(s.awaiting - {u}) == TagsIn(s.awaiting) - {s.awaiting[u].delivery}
  {
    ReleasedTags(s, {u});
    var gone := map v | v in s.awaiting && v in {u} :: s.awaiting[v];
    assert TagsIn(gone) == {s.awaiting[u].delivery} by { assert gone[u] == s.awaiting[u]; }
  }

  lemma SettleTyped(reg: Registry, s: Contact, u: Uuid, kind: AckKind)
    requires Typed(reg, s) && KnowsDelivery(s, u)
    ensures Typed(reg, Settle(Log(s, AckEntry(FindDelivery(s, u), kind)), u, FindDelivery(s, u).delivery))
  {
    var t := FindDelivery(s, u).delivery;
    var s' := Settle(Log(s, AckEntry(FindDelivery(s, u), kind)), u, t);
    assert s'.queues.(dedupe := {}) == s.queues.(dedupe := {});
    SubsetSize(s'.active.Keys, s.active.Keys);
  }

  predicate SettlingKind(s: Contact, u: Uuid, kind: AckKind) {
    kind == Delivered || kind == Rejected || (kind == Persisted && u in s.active && !s.active[u].delivery.Message?)
  }

  /** A settled delivery leaves the one container that held it and is unblocked. */
  lemma SettleConserved(s: Contact, s': Contact, t: DeliveryTag, e: Entry)
    requires Conserved(s) && Ledger(s) && e.Acked? && e.tag == t
    requires s'.queues == Complete(s.queues, t) && s'.log == s.log + [e]
    requires t.Tracked() ==> Advance(Life(s.log, t), e, t) == Absent
    requires TagsIn(s'.active) == TagsIn(s.active) - {t}
    requires TagsIn(s'.awaiting) == TagsIn(s.awaiting) - {t}
    ensures Conserved(s') && Ledger(s')
  {
    hide DeliveryTag.DedupeKey;
    BlocksAfterComplete(s.queues, t);
    assert t.Tracked() ==> Placed(s, t, Life(s.log, t));
    MoveKeeps(s, s', t, e);
  }

  lemma SettleTags(reg: Registry, s: Contact, u: Uuid, t: DeliveryTag)
    requires Typed(reg, s) && KnowsDelivery(s, u) && t == FindDelivery(s, u).delivery
    requires u in s.active ==> TagsIn(s.active) == {t} && s.active - {u} == map[] && t !in TagsIn(s.awaiting)
    requires u !in s.active ==> t !in TagsIn(s.active)
    ensures TagsIn(s.active - {u}) == TagsIn(s.active) - {t}
    ensures TagsIn(if u in s.active then s.awaiting else s.awaiting - {u}) == TagsIn(s.awaiting) - {t}
  {
    if u in s.active {
      assert TagsIn(s.active - {u}) == {};
    } else {
      AwaitingTagsMinus(reg, s, u);
      assert s.active - {u} == s.active;
    }
  }

  lemma SettleKeeps(reg: Registry, s: Contact, u: Uuid, kind: AckKind)
    requires Inv(reg, s) && KnowsDelivery(s, u) && SettlingKind(s, u, kind)
    ensures Inv(reg, Settle(Log(s, AckEntry(FindDelivery(s, u), kind)), u, FindDelivery(s, u).delivery))
  {
    hide DeliveryTag.DedupeKey, WindowTyped, WaitersTyped, QueuesTyped, ProbesUntracked;
    var t := FindDelivery(s, u).delivery;
    KnownStage(reg, s, u);
    assert t.Tracked() ==> Placed(s, t, Life(s.log, t));
    SettleTags(reg, s, u, t);
    var e := AckEntry(FindDelivery(s, u), kind);
    SettleConserved(s, Settle(Log(s, e), u, t), t, e);
    SettleTyped(reg, s, u, kind);
  }

  lemma AwaitingTagsPlus(m: map<Uuid, ActiveDelivery>, u: Uuid, d: ActiveDelivery)
    requires u !in m
    ensures TagsIn(m[u := d]) == TagsIn(m) + {d.delivery}
  {
    var m' := m[u := d];
    assert m'[u].delivery == d.delivery;
    forall x | x in TagsIn(m) ensures x in TagsIn(m') {
      var v :| v in m && m[v].delivery == x;
      assert m'[v].delivery == x;
    }
  }

  lemma PersistConserved(s: Contact, s': Contact, t: DeliveryTag, upTo: Option<nat>)
    requires Conserved(s) && Ledger(s) && t.Message? && Life(s.log, t) == InFlight
    requires s'.queues == s.queues && s'.log == s.log + [Acked(t, Persisted, upTo)]
    requires TagsIn(s.active) == {t} && TagsIn(s'.active) == {} && TagsIn(s'.awaiting) == TagsIn(s.awaiting) + {t}
    ensures Conserved(s') && Ledger(s')
  {
    hide DeliveryTag.DedupeKey;
    assert Placed(s, t, Life(s.log, t));
    MoveKeeps(s, s', t, Acked(t, Persisted, upTo));
  }

  lemma PersistTyped(reg: Registry, s: Contact, u: Uuid)
    requires Typed(reg, s) && u in s.active && s.active[u].delivery.Message?
    requires s.active[u].delivery !in TagsIn(s.awaiting)
    ensures WaitersTyped(reg, s.awaiting[u := s.active[u]])
  {
    forall v | v in s.awaiting ensures s.awaiting[v].delivery != s.active[u].delivery {
      assert s.awaiting[v].delivery in TagsIn(s.awaiting);
    }
  }

  /** A persisted message leaves the window and waits for its delivery. */
  lemma PersistKeeps(reg: Registry, s: Contact, s': Contact, u: Uuid)
    requires Inv(reg, s) && s.phase == Connected && u in s.active && s.active[u].delivery.Message?
    requires s' == s.(active := s.active - {u}, awaiting := s.awaiting[u := s.active[u]],
                      log := s.log + [AckEntry(s.active[u], Persisted)])
    ensures Inv(reg, s')
  {
    var d := s.active[u];
    KnownStage(reg, s, u);
    hide Conserved, Ledger;
    AwaitingTagsPlus(s.awaiting, u, d);
    assert s'.active == map[] && TagsIn(s'.active) == {};
    PersistConserved(s, s', d.delivery, d.endpointSequence);
    PersistTyped(reg, s, u);
  }

  /** An acknowledgement that moves nothing is recorded and changes no stage. */
  lemma NoteKeeps(reg: Registry, s: Contact, u: Uuid, kind: AckKind)
    requires Inv(reg, s) && KnowsDelivery(s, u)
    requires kind == Received || (kind == Persisted && u !in s.active)
    ensures Inv(reg, Log(s, AckEntry(FindDelivery(s, u), kind)))
  {
    hide Conserved, Ledger, WindowTyped, WaitersTyped, QueuesTyped, ProbesUntracked;
    var t := FindDelivery(s, u).delivery;
    KnownStage(reg, s, u);
    var e := AckEntry(FindDelivery(s, u), kind);
    LifeSnoc(s.log, e);
    SameDeliveriesKeeps(s, Log(s, e));
  }

  lemma ApplyAckKeeps(reg: Registry, s: Contact, u: Uuid, kind: AckKind)
    requires Inv(reg, s) && KnowsDelivery(s, u)
    ensures Inv(reg, ApplyAck(s, u, kind))
  {
    hide DeliveryTag.DedupeKey;
    if kind == Received || (kind == Persisted && u !in s.active) {
      NoteKeeps(reg, s, u, kind);
    } else if kind == Persisted && s.active[u].delivery.Message? {
      PersistKeeps(reg, s, ApplyAck(s, u, kind), u);
    } else {
      SettleKeeps(reg, s, u, kind);
    }
  }

  lemma AnswerProbeKeeps(reg: Registry, s: Contact, nonce: nat)
    requires Inv(reg, s)
    ensures Inv(reg, AnswerProbe(s, nonce))
  {
    hide DeliveryTag.DedupeKey;
    if nonce in s.probes {
      LifeSnoc(s.log, ProbeEntry(s.probes[nonce]));
      SameDeliveriesKeeps(s, AnswerProbe(s, nonce));
    }
  }
}
