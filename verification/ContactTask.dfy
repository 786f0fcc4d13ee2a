/** The delivery task in the form of the program: queues and session state updated in place, loops and early exits. */
module ContactTask {
  import opened Foundation
  import opened PeerTypes
  import D = Delivery
  import L = DeliveryLedger
  import R = DeliveryRuns

  class CommandQueues {
    var durable: seq<Command>
    var endpointUpdate: Option<Command>
    var probe: Option<Command>
    var ephemeral: Option<Command>
    var dedupe: set<string>

    function View(): D.Queues
      reads this
    {
      D.Queues(durable, endpointUpdate, probe, ephemeral, dedupe)
    }

    constructor ()
      ensures View() == D.EMPTY_QUEUES
    {
      durable, endpointUpdate, probe, ephemeral, dedupe := [], None, None, None, {};
    }

    method Complete(tag: DeliveryTag)
      modifies `dedupe
      ensures dedupe == old(dedupe) - KeySet(tag)
      ensures View() == D.Complete(old(View()), tag)
    {
      match tag.DedupeKey() {
        case Some(key) => dedupe := dedupe - {key};
        case None =>
      }
    }

    method InsertDedupe(c: Command) returns (inserted: bool)
      modifies `dedupe
      ensures inserted <==> c.delivery.DedupeKey().None? || c.delivery.DedupeKey().value !in old(dedupe)
      ensures dedupe == old(dedupe) + if c.delivery.DedupeKey().Some? then {c.delivery.DedupeKey().value} else {}
    {
      match c.delivery.DedupeKey() {
        case Some(key) =>
          inserted := key !in dedupe;
          dedupe := dedupe + {key};
        case None => inserted := true;
      }
    }

    method Enqueue(c: Command) returns (accepted: bool)
      modifies this
      ensures View() == D.Enqueue(old(View()), c)
      ensures accepted <==> old(D.Accepts(View(), c))
    {
      accepted := false;
      if c.delivery.Tracked() {
        accepted := InsertDedupe(c);
        if accepted { durable := durable + [c]; }
      } else if c.delivery.EndpointUpdate? {
        endpointUpdate := Some(c);
      } else if c.delivery.Probe? {
        probe := Some(c);
      } else {
        ephemeral := Some(c);
      }
    }

    method PopNext(sessionReady: bool) returns (next: Option<Command>)
      modifies this
      ensures sessionReady ==> (next, View()) == D.PopNext(old(View()))
      ensures !sessionReady ==>
                (next, View()) == if old(D.HasDialWorthy(View())) then D.PopNext(old(View())) else (None, old(View()))
    {
      if durable != [] {
        next := Some(durable[0]);
        durable := durable[1..];
        return;
      }
      if endpointUpdate.Some? {
        next, endpointUpdate := endpointUpdate, None;
      } else if probe.Some? {
        next, probe := probe, None;
      } else if sessionReady {
        next, ephemeral := ephemeral, None;
      } else {
        next := None;
      }
    }

    method PushFront(c: Command)
      modifies this
      ensures View() == D.PushFront(old(View()), c)
    {
      if c.delivery.Tracked() {
        durable := [c] + durable;
      } else if c.delivery.EndpointUpdate? {
        endpointUpdate := Some(c);
      } else if c.delivery.Probe? {
        probe := Some(c);
      } else {
        ephemeral := Some(c);
      }
    }

    method DropEphemeralWithoutSession()
      modifies `ephemeral
      ensures View() == old(View()).(ephemeral := None)
    {
      ephemeral := None;
    }

    /** Empties the queues; what had been promised a delivery is returned and unblocked. */
    method DrainFailed() returns (commands: seq<Command>)
      modifies this
      ensures commands == old(durable) + if old(endpointUpdate).Some? then [old(endpointUpdate).value] else []
      ensures View() == D.Queues([], None, None, None, old(dedupe) - D.KeysOf(L.TagsOf(commands)))
    {
      commands := durable;
      durable := [];
      if endpointUpdate.Some? {
        commands := commands + [endpointUpdate.value];
        endpointUpdate := None;
      }
      probe := None;
      ephemeral := None;
      var i := 0;
      assert L.TagsOf(commands[..0]) == {};
      while i < |commands|
        invariant 0 <= i <= |commands|
        invariant View() == D.Queues([], None, None, None, old(dedupe) - D.KeysOf(L.TagsOf(commands[..i])))
      {
        KeysOfSnoc(commands[..i], commands[i]);
        assert commands[..i] + [commands[i]] == commands[..i + 1];
        Complete(commands[i].delivery);
        i := i + 1;
      }
      assert commands[..i] == commands;
    }
  }

  function KeySet(tag: DeliveryTag): set<string> {
    if tag.DedupeKey().Some? then {tag.DedupeKey().value} else {}
  }

  lemma KeysOfPlus(tags: set<DeliveryTag>, tag: DeliveryTag)
    ensures D.KeysOf(tags + {tag}) == D.KeysOf(tags) + KeySet(tag)
  {
    assert tag in tags + {tag};
  }

  lemma KeysOfSnoc(cs: seq<Command>, c: Command)
    ensures D.KeysOf(L.TagsOf(cs + [c])) == D.KeysOf(L.TagsOf(cs)) + KeySet(c.delivery)
  {
    var all := cs + [c];
    assert all[|cs|] == c;
    forall t | t in L.TagsOf(cs) ensures t in L.TagsOf(all) {
      var i :| 0 <= i < |cs| && cs[i].delivery == t;
      assert all[i].delivery == t;
    }
    assert L.TagsOf(all) == L.TagsOf(cs) + {c.delivery};
    KeysOfPlus(L.TagsOf(cs), c.delivery);
  }

  function Restrict(m: map<Uuid, D.ActiveDelivery>, us: set<Uuid>): map<Uuid, D.ActiveDelivery> {
    map u | u in m && u in us :: m[u]
  }

  /** The dedupe keys of some entries of a delivery map. */
  function KeysAt(m: map<Uuid, D.ActiveDelivery>, us: set<Uuid>): set<string> {
    D.KeysOf(D.TagsIn(Restrict(m, us)))
  }

  lemma KeysAtNone(m: map<Uuid, D.ActiveDelivery>)
    ensures KeysAt(m, {}) == {}
  {
  }

  lemma KeysAtAll(m: map<Uuid, D.ActiveDelivery>)
    ensures KeysAt(m, m.Keys) == D.KeysOf(D.TagsIn(m))
  {
    assert Restrict(m, m.Keys) == m;
  }

  lemma RestrictPlus(m: map<Uuid, D.ActiveDelivery>, us: set<Uuid>, u: Uuid)
    requires u in m
    ensures KeysAt(m, us + {u}) == KeysAt(m, us) + KeySet(m[u].delivery)
  {
    var more := Restrict(m, us + {u});
    assert more[u] == m[u];
    forall t | t in D.TagsIn(Restrict(m, us)) ensures t in D.TagsIn(more) {
      var v :| v in Restrict(m, us) && Restrict(m, us)[v].delivery == t;
      assert more[v].delivery == t;
    }
    assert D.TagsIn(more) == D.TagsIn(Restrict(m, us)) + {m[u].delivery} by {
      forall t | t in D.TagsIn(more) ensures t in D.TagsIn(Restrict(m, us)) + {m[u].delivery} {
        var v :| v in more && more[v].delivery == t;
        if v != u { assert Restrict(m, us)[v].delivery == t; }
      }
    }
    KeysOfPlus(D.TagsIn(Restrict(m, us)), m[u].delivery);
  }

  // ---------------------------------------------------------------- the specification in loop-sized pieces

  function Backoffs(cs: seq<Command>): seq<D.Entry> {
    seq(|cs|, i requires 0 <= i < |cs| => D.BackedOff(cs[i].delivery))
  }

  function Doomed(q: D.Queues): seq<Command> {
    q.durable + if q.endpointUpdate.Some? then [q.endpointUpdate.value] else []
  }

  function Drained(s: D.Contact): D.Contact {
    s.(queues := D.Queues([], None, None, None, s.queues.dedupe - D.KeysOf(L.TagsOf(Doomed(s.queues)))),
       log := s.log + Backoffs(Doomed(s.queues)))
  }

  lemma DrainedStep(s: D.Contact)
    requires s.queues.durable != []
    ensures Drained(D.FailHead(s)) == Drained(s)
  {
    var c, h := s.queues.durable[0], D.FailHead(s);
    assert Doomed(s.queues) == [c] + Doomed(h.queues);
    KeysOfCons(c, Doomed(h.queues));
    assert Backoffs(Doomed(s.queues)) == [D.BackedOff(c.delivery)] + Backoffs(Doomed(h.queues));
    assert h.log + Backoffs(Doomed(h.queues)) == s.log + Backoffs(Doomed(s.queues));
    assert h.queues.dedupe == s.queues.dedupe - KeySet(c.delivery);
  }

  /** Failing the queue head by head is the same as draining it and reporting each command. */
  lemma {:induction false} FailQueuedAtOnce(s: D.Contact)
    requires D.SlotsTyped(s.queues)
    ensures D.FailQueued(s) == Drained(s)
    decreases |s.queues.durable|
  {
    if s.queues.durable == [] {
      assert D.KeysOf(L.TagsOf(Doomed(s.queues))) == {};
      assert s.log + Backoffs([]) == s.log;
    } else {
      DrainedStep(s);
      hide Drained;
      FailQueuedAtOnce(D.FailHead(s));
    }
  }

  lemma KeysOfCons(c: Command, cs: seq<Command>)
    ensures D.KeysOf(L.TagsOf([c] + cs)) == KeySet(c.delivery) + D.KeysOf(L.TagsOf(cs))
  {
    var all := [c] + cs;
    assert all[0] == c;
    forall t | t in L.TagsOf(cs) ensures t in L.TagsOf(all) {
      var i :| 0 <= i < |cs| && cs[i].delivery == t;
      assert all[i + 1].delivery == t;
    }
    forall t | t in L.TagsOf(all) ensures t in L.TagsOf(cs) + {c.delivery} {
      var i :| 0 <= i < |all| && all[i].delivery == t;
      if i > 0 { assert cs[i - 1].delivery == t; }
    }
    assert L.TagsOf(all) == L.TagsOf(cs) + {c.delivery};
    KeysOfPlus(L.TagsOf(cs), c.delivery);
  }

  lemma ReleaseParts(s: D.Contact, s': D.Contact, us: set<Uuid>)
    requires s' == s.(queues := s.queues.(dedupe := s.queues.dedupe - KeysAt(s.awaiting, us)),
                      awaiting := s.awaiting - us,
                      log := s.log + [D.Released(D.TagsIn(Restrict(s.awaiting, us)))])
    ensures s' == D.Release(s, us)
  {
  }

  lemma ReleaseAllParts(s: D.Contact, s': D.Contact)
    requires s' == s.(queues := s.queues.(dedupe := s.queues.dedupe - KeysAt(s.awaiting, s.awaiting.Keys)),
                      awaiting := map[],
                      log := s.log + [D.Released(D.TagsIn(Restrict(s.awaiting, s.awaiting.Keys)))])
    ensures s' == D.ReleaseAll(s)
  {
    assert s.awaiting - s.awaiting.Keys == map[];
    ReleaseParts(s, s', s.awaiting.Keys);
  }

  lemma OneFailure(active: map<Uuid, D.ActiveDelivery>, u: Uuid)
    requires u in active && |active| <= 1
    ensures D.ActiveFailures(active) == [D.BackedOff(active[u].delivery)] && active.Keys == {u}
  {
    forall v | v in active ensures v == u { L.OneElement(active, u, v); }
  }

  lemma NoFailure(active: map<Uuid, D.ActiveDelivery>)
    ensures active == map[] ==> D.ActiveFailures(active) == [] && KeysAt(active, active.Keys) == {}
  {
  }

  lemma OneKey(active: map<Uuid, D.ActiveDelivery>, u: Uuid)
    requires u in active && active.Keys == {u}
    ensures KeysAt(active, active.Keys) == KeySet(active[u].delivery) && active - {u} == map[]
  {
    KeysAtNone(active);
    RestrictPlus(active, {}, u);
    assert {} + {u} == {u};
  }

  lemma FramesParts(c: Command, sent: nat, sessionId: Uuid)
    requires !D.IsControl(c.delivery)
    ensures var unsent, frames := D.UnsentUpdates(c.endpointUpdates, sent), D.FramesOf(c, sent, sessionId);
            && |frames| == |unsent| + 1
            && frames == D.UpdateFrames(unsent) + [D.ClosingFrame(c, sessionId)]
            && forall b :: 0 <= b <= |unsent| ==> frames[..b] == D.UpdateFrames(unsent)[..b]
  {
  }

  class ContactTask {
    ghost const reg: L.Registry
    const queues: CommandQueues
    var channelOpen: bool
    var phase: D.Phase
    var endpoint: PeerAddress
    var sessionId: Uuid
    var active: map<Uuid, D.ActiveDelivery>
    var awaiting: map<Uuid, D.ActiveDelivery>
    var probes: map<nat, D.EndpointProbe>
    var sentSequence: nat
    var lastActivity: int
    var nextKeepalive: int
    var keepalive: Option<D.Keepalive>
    var wire: seq<Frame>
    var log: seq<D.Entry>

    ghost function View(): D.Contact
      reads this, queues
    {
      D.Contact(queues.View(), channelOpen, phase, endpoint, sessionId, active, awaiting, probes,
                sentSequence, lastActivity, nextKeepalive, keepalive, wire, log)
    }

    ghost predicate Valid()
      reads this, queues
    {
      R.Sound(reg, View())
    }

    constructor (ghost registry: L.Registry)
      ensures View() == D.Initial() && Valid() && fresh(queues) && reg == registry
    {
      reg := registry;
      queues := new CommandQueues();
      channelOpen, phase, endpoint, sessionId := true, D.Top, PeerAddress("", "", "", 0, 0), "";
      active, awaiting, probes := map[], map[], map[];
      sentSequence, lastActivity, nextKeepalive, keepalive := 0, 0, 0, None;
      wire, log := [], [];
      new;
      R.SoundInitially(registry);
    }

    method Take(c: Command)
      modifies this`log, queues
      ensures View() == D.Take(old(View()), c)
    {
      var accepted := queues.Enqueue(c);
      if accepted { log := log + [D.Accepted(c.delivery)]; }
    }

    method TakeAll(cs: seq<Command>)
      modifies this`log, queues
      ensures View() == D.TakeAll(old(View()), cs)
    {
      var i := 0;
      assert cs[0..] == cs;
      while i < |cs|
        invariant 0 <= i <= |cs|
        invariant D.TakeAll(View(), cs[i..]) == D.TakeAll(old(View()), cs)
      {
        assert cs[i..][1..] == cs[i + 1..];
        Take(cs[i]);
        i := i + 1;
      }
    }

    method FailDelivery(tag: DeliveryTag)
      modifies this`log
      ensures log == old(log) + [D.BackedOff(tag)]
    {
      log := log + [D.BackedOff(tag)];
    }

    method CompletePersistedWaiters()
      modifies this`awaiting, this`log, queues`dedupe
      ensures View() == D.ReleaseAll(old(View()))
    {
      var was := awaiting;
      DrainLoop();
      log := log + [D.Released(D.TagsIn(Restrict(was, was.Keys)))];
      ReleaseAllParts(old(View()), View());
    }

    /** Drains the waiters, unblocking each. */
    method DrainLoop()
      modifies this`awaiting, queues`dedupe
      ensures awaiting == map[] && queues.dedupe == old(queues.dedupe) - KeysAt(old(awaiting), old(awaiting).Keys)
    {
      hide DeliveryTag.DedupeKey, KeysAt, D.Complete;
      ghost var was, removed: set<Uuid> := awaiting, {};
      KeysAtNone(was);
      while awaiting != map[]
        invariant removed <= was.Keys && awaiting == was - removed
        invariant queues.dedupe == old(queues.dedupe) - KeysAt(was, removed)
        decreases |awaiting|
      {
        var u :| u in awaiting;
        RestrictPlus(was, removed, u);
        queues.Complete(awaiting[u].delivery);
        removed := removed + {u};
        awaiting := awaiting - {u};
      }
      assert removed == was.Keys;
    }

    method ExpirePersistedWaiters(now: int)
      modifies this`awaiting, this`log, queues`dedupe
      ensures View() == D.Release(old(View()), D.Expired(old(View()), now))
    {
      var expired := set u | u in awaiting && now - awaiting[u].sentAt >= D.ACK_TIMEOUT;
      var was := awaiting;
      RemoveLoop(expired);
      log := log + [D.Released(D.TagsIn(Restrict(was, expired)))];
      ReleaseParts(old(View()), View(), expired);
    }

    method RemoveLoop(expired: set<Uuid>)
      requires expired <= awaiting.Keys
      modifies this`awaiting, queues`dedupe
      ensures awaiting == old(awaiting) - expired
      ensures queues.dedupe == old(queues.dedupe) - KeysAt(old(awaiting), expired)
    {
      hide DeliveryTag.DedupeKey, KeysAt, D.Complete;
      ghost var was := awaiting;
      var left := expired;
      KeysAtNone(was);
      assert expired - left == {};
      while left != {}
        invariant left <= expired && awaiting == was - (expired - left)
        invariant queues.dedupe == old(queues.dedupe) - KeysAt(was, expired - left)
        decreases |left|
      {
        var u :| u in left;
        RestrictPlus(was, expired - left, u);
        assert expired - (left - {u}) == (expired - left) + {u};
        queues.Complete(awaiting[u].delivery);
        awaiting := awaiting - {u};
        left := left - {u};
      }
      assert expired - {} == expired;
    }

    method FailActiveDeliveries()
      requires |active| <= D.MAX_IN_FLIGHT
      modifies this`active, this`awaiting, this`log, queues`dedupe
      ensures View() == D.FailActive(old(View()))
    {
      FailLoop();
      KeysAtAll(old(active));
      CompletePersistedWaiters();
    }

    /** Drains the window, unblocking and reporting each delivery. */
    method FailLoop()
      requires |active| <= D.MAX_IN_FLIGHT
      modifies this`active, this`log, queues`dedupe
      ensures active == map[] && queues.dedupe == old(queues.dedupe) - KeysAt(old(active), old(active).Keys)
      ensures log == old(log) + D.ActiveFailures(old(active))
    {
      hide DeliveryTag.DedupeKey, D.Complete, KeysAt, D.ActiveFailures;
      ghost var was := active;
      NoFailure(was);
      while active != map[]
        invariant || (active == was && log == old(log) && queues.dedupe == old(queues.dedupe))
                  || (&& active == map[] && was != map[] && log == old(log) + D.ActiveFailures(was)
                      && queues.dedupe == old(queues.dedupe) - KeysAt(was, was.Keys))
        decreases |active|
      {
        var u :| u in active;
        OneFailure(was, u);
        queues.Complete(active[u].delivery);
        FailDelivery(active[u].delivery);
        active := active - {u};
        OneKey(was, u);
      }
    }

    method FailQueuedCommands()
      requires D.SlotsTyped(queues.View())
      modifies this`log, queues
      ensures View() == D.FailQueued(old(View()))
    {
      hide DeliveryTag.DedupeKey, D.FailQueued;
      FailQueuedAtOnce(View());
      var commands := queues.DrainFailed();
      ghost var drained := queues.View();
      var i := 0;
      while i < |commands|
        invariant 0 <= i <= |commands| && queues.View() == drained
        invariant log == old(log) + Backoffs(commands[..i])
      {
        assert commands[i].delivery.IsDurable();
        assert Backoffs(commands[..i + 1]) == Backoffs(commands[..i]) + [D.BackedOff(commands[i].delivery)];
        if commands[i].delivery.IsDurable() { FailDelivery(commands[i].delivery); }
        i := i + 1;
      }
      assert commands[..i] == commands && commands == Doomed(old(queues.View()));
    }

    /** Leaves the connected loop; session-local state is gone. */
    method CloseSession()
      modifies this`phase, this`active, this`awaiting, this`probes
      modifies this`sentSequence, this`lastActivity, this`nextKeepalive, this`keepalive
      ensures View() == D.Disconnect(old(View()))
    {
      ClearWindow();
      phase, sentSequence, lastActivity, nextKeepalive, keepalive := D.Top, 0, 0, 0, None;
    }

    method ClearWindow()
      modifies this`active, this`awaiting, this`probes
      ensures View() == old(View()).(active := map[], awaiting := map[], probes := map[])
    {
      active, awaiting, probes := map[], map[], map[];
    }

    method FailSession()
      requires Valid()
      modifies this, queues
      ensures View() == D.FailSession(old(View())) && Valid()
    {
      R.SoundFailSession(reg, View());
      FailActiveDeliveries();
      CloseSession();
      assert D.SlotsTyped(queues.View());
      FailQueuedCommands();
    }

    /** Writes one frame unless the socket is exhausted. */
    method WriteFrame(f: Frame, budget: nat) returns (ok: bool, left: nat)
      modifies this`wire
      ensures ok <==> budget > 0
      ensures if ok then wire == old(wire) + [f] && left == budget - 1 else wire == old(wire) && left == 0
    {
      if budget == 0 { return false, 0; }
      wire := wire + [f];
      return true, budget - 1;
    }

    /** The loop over a command's endpoint updates. */
    method SendUpdates(updates: seq<nat>, budget: nat) returns (ok: bool, left: nat, latest: Option<nat>)
      modifies this`wire, this`sentSequence
      ensures var unsent := D.UnsentUpdates(updates, old(sentSequence));
              && (ok <==> |unsent| <= budget)
              && (ok ==> && wire == old(wire) + D.UpdateFrames(unsent)
                         && left == budget - |unsent|
                         && sentSequence == D.Last(unsent, old(sentSequence))
                         && latest == if unsent == [] then None else Some(D.Last(unsent, 0)))
              && (!ok ==> wire == old(wire) + D.UpdateFrames(unsent)[..budget])
    {
      ghost var unsent := D.UnsentUpdates(updates, sentSequence);
      ghost var sent: seq<nat> := [];
      ok, left, latest := true, budget, None;
      var i := 0;
      while i < |updates|
        invariant 0 <= i <= |updates|
        invariant ok && left == budget - |sent| && wire == old(wire) + D.UpdateFrames(sent)
        invariant unsent == sent + D.UnsentUpdates(updates[i..], sentSequence)
        invariant sentSequence == D.Last(sent, old(sentSequence))
        invariant latest == if sent == [] then None else Some(D.Last(sent, 0))
      {
        assert updates[i..][1..] == updates[i + 1..];
        if updates[i] > sentSequence {
          ok, left := WriteFrame(EndpointUpdateFrame(updates[i]), left);
          if !ok {
            assert D.UpdateFrames(unsent)[..budget] == D.UpdateFrames(sent);
            return;
          }
          sent := sent + [updates[i]];
          assert D.UpdateFrames(sent) == D.UpdateFrames(sent[..|sent| - 1]) + [EndpointUpdateFrame(updates[i])];
          assert sent[..|sent| - 1] + ([updates[i]] + D.UnsentUpdates(updates[i + 1..], updates[i]))
              == sent + D.UnsentUpdates(updates[i + 1..], updates[i]);
          sentSequence := updates[i];
          latest := Some(updates[i]);
        }
        i := i + 1;
      }
      assert sent == unsent;
    }

    /** Records what a written command is waiting for. */
    method RecordSent(c: Command, latest: Option<nat>, at: int)
      modifies this`probes, this`active, this`log, this`lastActivity
      ensures lastActivity == at
      ensures probes == if c.delivery.EndpointUpdate? || c.delivery.Probe?
                        then old(probes)[c.sequence := D.EndpointProbe(latest, at, c.delivery)] else old(probes)
      ensures if !D.IsControl(c.delivery) && !c.delivery.EndpointUpdate? && !c.delivery.Probe? && !c.delivery.Ephemeral?
              then && active
                      == old(active)[c.messageId := D.ActiveDelivery(c.delivery, Sha256(c.ciphertext), latest, at)]
                   && log == old(log) + [D.Wrote(c.delivery)]
              else active == old(active) && log == old(log)
    {
      lastActivity := at;
      if c.delivery.EndpointUpdate? || c.delivery.Probe? {
        probes := probes[c.sequence := D.EndpointProbe(latest, at, c.delivery)];
      } else if !D.IsControl(c.delivery) && !c.delivery.Ephemeral? {
        active := active[c.messageId := D.ActiveDelivery(c.delivery, Sha256(c.ciphertext), latest, at)];
        log := log + [D.Wrote(c.delivery)];
      }
    }

    method SendOutboundCommand(c: Command, budget: nat, at: int) returns (ok: bool, left: nat)
      modifies this`wire, this`sentSequence, this`probes, this`active, this`log, this`lastActivity
      ensures var frames := D.FramesOf(c, old(sentSequence), old(sessionId));
              && (ok <==> |frames| <= budget)
              && (ok ==> left == budget - |frames| && View() == D.Written(old(View()), c, at))
              && (!ok ==> View() == old(View()).(wire := old(wire) + frames[..budget], sentSequence := sentSequence))
    {
      hide D.UnsentUpdates, D.UpdateFrames;
      var latest := None;
      ok, left := true, budget;
      if !D.IsControl(c.delivery) {
        FramesParts(c, sentSequence, sessionId);
        ok, left, latest := SendUpdates(c.endpointUpdates, budget);
        if !ok { return; }
      }
      hide D.ClosingFrame;
      ok, left := WriteFrame(D.ClosingFrame(c, sessionId), left);
      if ok {
        RecordSent(c, latest, at);
      }
    }

    method FillWindow(frames: nat, at: int) returns (result: D.FillResult)
      requires Valid() && phase == D.Connected
      modifies this, queues
      ensures (View(), result) == D.Fill(old(View()), frames, at) && Valid()
    {
      hide R.Sound, D.Written, D.FramesOf, D.FailSession, D.FailPopped, D.ReleaseAll, D.PopNext, D.PushFront,
           D.Disconnect;
      R.SoundFill(reg, View(), frames, at);
      var budget := frames;
      while |active| < D.MAX_IN_FLIGHT
        invariant Valid() && phase == D.Connected
        invariant D.Fill(View(), budget, at) == D.Fill(old(View()), frames, at)
        decreases D.QueueSize(queues.View())
      {
        ghost var s := View();
        D.PopShrinks(s.queues);
        var next := queues.PopNext(true);
        if next.None? { EmptyPop(s.queues); break; }
        var c := next.value;
        if c.endpoint != endpoint {
          queues.PushFront(c);
          CompletePersistedWaiters();
          CloseSession();
          return D.EndpointChanged;
        }
        var ok, left := SendOutboundCommand(c, budget, at);
        if !ok {
          FailWrite(s, c, budget);
          return D.WriteFailed;
        }
        budget := left;
        NoActive(s);
        R.SoundWritten(reg, s, c, at);
      }
      return D.Filled;
    }

    method FailWrite(ghost s: D.Contact, c: Command, ghost budget: nat)
      requires R.Sound(reg, s) && s.phase == D.Connected && D.PopNext(s.queues).0 == Some(c)
      requires budget < |D.FramesOf(c, s.sentSequence, s.sessionId)|
      requires View() == s.(queues := D.PopNext(s.queues).1, sentSequence := sentSequence,
                            wire := s.wire + D.FramesOf(c, s.sentSequence, s.sessionId)[..budget])
      modifies this, queues
      ensures var written := D.FramesOf(c, s.sentSequence, s.sessionId)[..budget];
              View() == D.FailSession(D.FailPopped(s.(queues := D.PopNext(s.queues).1, wire := s.wire + written),
                                                   c.delivery))
    {
      hide D.FramesOf, D.PopNext, D.FailSession, R.Sound;
      queues.Complete(c.delivery);
      if c.delivery.IsDurable() { FailDelivery(c.delivery); }
      ghost var p := D.FailPopped(s.(queues := D.PopNext(s.queues).1), c.delivery);
      R.SoundFailPopped(reg, s, c, p);
      R.SoundElsewhere(reg, p, View());
      ghost var v := View();
      FailSession();
      SentSequenceForgotten(v, s.sentSequence);
    }

    method HandleAck(ack: Ack) returns (ok: bool)
      modifies this`active, this`awaiting, this`log, queues`dedupe
      ensures (View(), ok) == D.HandleFrame(old(View()), AckFrame(ack), true, true)
    {
      var u := ack.messageId;
      if ack.sessionId != sessionId || (u !in active && u !in awaiting) { return true; }
      var d := if u in active then active[u] else awaiting[u];
      if ack.hash != d.expectedHash { return false; }
      log := log + [D.Acked(d.delivery, ack.kind, d.endpointSequence)];
      match ack.kind {
        case Received =>
        case Persisted =>
          if u in active {
            active := active - {u};
            if d.delivery.Message? { awaiting := awaiting[u := d]; } else { queues.Complete(d.delivery); }
          }
        case _ =>
          if u in active { active := active - {u}; } else { awaiting := awaiting - {u}; }
          queues.Complete(d.delivery);
      }
      assert u !in old(active) ==> old(active) - {u} == old(active);
      return true;
    }

    method AnswerProbe(nonce: nat)
      modifies this`probes, this`log
      ensures View() == D.AnswerProbe(old(View()), nonce)
    {
      if nonce in probes {
        log := log + [D.Acked(probes[nonce].delivery, Persisted, probes[nonce].endpointSequence)];
        probes := probes - {nonce};
      }
    }

    method HandleOutboundFrame(f: Frame, replyOk: bool, eventsOpen: bool) returns (ok: bool)
      modifies this, queues`dedupe
      ensures (View(), ok) == D.HandleFrame(old(View()), f, replyOk, eventsOpen)
    {
      ok := true;
      match f {
        case AckFrame(ack) => ok := HandleAck(ack);
        case Pong(nonce) =>
          if keepalive.Some? && keepalive.value.nonce == nonce { keepalive := None; }
          AnswerProbe(nonce);
        case Ping(nonce) =>
          if replyOk { wire := wire + [Pong(nonce)]; }
          ok := replyOk;
        case ProbeRequest(nonce) =>
          if replyOk { wire := wire + [ProbeResponse(nonce)]; }
          ok := replyOk;
        case ProbeResponse(nonce) =>
          AnswerProbe(nonce);
          ok := eventsOpen;
        case PresenceFrame(_, _) => ok := eventsOpen;
        case TypingFrame(_, _) => ok := eventsOpen;
        case FocusFrame(_, _) => ok := eventsOpen;
        case EndpointUpdateFrame(_) =>
        case MessageFrame(_) =>
        case HandshakeOrErrorFrame => ok := false;
      }
    }

    /** A frame from the peer; an error in handling it ends the session. */
    method Receive(f: Frame, r: D.Round)
      requires Valid() && phase == D.Connected && r.selected == D.Incoming(f)
      modifies this, queues
      ensures View() == D.Select(old(View()), r) && Valid()
    {
      hide R.Sound, D.HandleFrame, D.FailSession;
      R.SoundElsewhere(reg, View(), View().(lastActivity := r.now));
      lastActivity := r.now;
      R.SoundHandleFrame(reg, View(), f, r.replyOk, r.eventsOpen);
      var ok := HandleOutboundFrame(f, r.replyOk, r.eventsOpen);
      if !ok { FailSession(); }
    }

    method Select(r: D.Round)
      requires Valid() && phase == D.Connected && R.RoundRegistered(reg, r)
      modifies this, queues
      ensures View() == D.Select(old(View()), r) && Valid()
    {
      R.SoundSelect(reg, View(), r);
      hide R.Sound, D.HandleFrame, D.FailSession, D.Take, R.RoundRegistered;
      if r.selected.FromChannel? {
        if channelOpen { Take(r.selected.command); }
      } else if r.selected.ChannelClosed? {
        channelOpen := false;
      } else if r.selected.StreamBroken? {
        FailSession();
      } else if r.selected.Incoming? {
        Receive(r.selected.frame, r);
      }
    }

    /** Timeouts and the keepalive; `alive` says whether the session goes on. */
    method KeepAlive(r: D.Round) returns (alive: bool)
      requires Valid() && phase == D.Connected
      modifies this, queues
      ensures Valid()
      ensures var s := old(View());
              if D.KeepaliveTimedOut(s, r.now) || D.InFlightTimedOut(s, r.now)
                 || (r.now >= s.nextKeepalive && !r.pingOk)
              then !alive && View() == D.FailSession(s)
              else alive && View() == if r.now >= s.nextKeepalive then D.SendKeepalive(s, r) else s
    {
      hide R.Sound, D.FailSession;
      alive := false;
      if keepalive.Some? && r.now >= keepalive.value.deadline {
        FailSession();
        return;
      }
      if (exists u :: u in active && r.now - active[u].sentAt >= D.ACK_TIMEOUT)
        || (exists n :: n in probes && r.now - probes[n].sentAt >= D.ACK_TIMEOUT)
      {
        FailSession();
        return;
      }
      if r.now >= nextKeepalive {
        if !r.pingOk {
          FailSession();
          return;
        }
        R.SoundElsewhere(reg, View(), D.SendKeepalive(View(), r));
        wire := wire + [Ping(r.nonce)];
        keepalive := Some(D.Keepalive(r.nonce, r.now + D.KEEPALIVE_TIMEOUT));
        nextKeepalive := r.now + D.KEEPALIVE_INTERVAL;
      }
      alive := true;
    }

    method AfterFill(r: D.Round)
      requires Valid() && phase == D.Connected && R.RoundRegistered(reg, r)
      modifies this, queues
      ensures View() == D.AfterFill(old(View()), r) && Valid()
    {
      hide R.Sound, D.FailSession, D.Select, D.Expired, D.InFlightTimedOut, R.RoundRegistered;
      R.SoundAfterFill(reg, View(), r);
      R.SoundRelease(reg, View(), D.Expired(View(), r.now));
      hide D.Release;
      ExpirePersistedWaiters(r.now);
      var alive := KeepAlive(r);
      if !alive { return; }
      if D.IsEmpty(queues.View()) && active == map[] && awaiting == map[] && probes == map[] {
        if r.now - lastActivity >= D.SESSION_IDLE_TIMEOUT || !channelOpen {
          CloseSession();
          return;
        }
      }
      Select(r);
    }

    /** One turn of the connected loop. */
    method Turn(r: D.Round)
      requires Valid() && phase == D.Connected && R.RoundRegistered(reg, r)
      modifies this, queues
      ensures View() == D.ConnectedRound(old(View()), r) && Valid()
    {
      hide R.Sound;
      R.SoundRound(reg, View(), r);
      R.SoundTakeAll(reg, View(), r.arrivals);
      TakeAll(r.arrivals);
      R.SoundFill(reg, View(), r.budget, r.at);
      var result := FillWindow(r.budget, r.at);
      if result == D.Filled { AfterFill(r); }
    }

    method OpenSession(id: Uuid, at: int)
      requires D.HasDialWorthy(queues.View())
      modifies this
      ensures View() == D.Connect(old(View()), id, at)
    {
      var template := D.ConnectionTemplate(queues.View()).value;
      hide D.ConnectionTemplate, D.HasDialWorthy;
      phase, endpoint, sessionId := D.Connected, template.endpoint, id;
      active, awaiting, probes := map[], map[], map[];
      sentSequence, lastActivity, nextKeepalive, keepalive := 0, at, at + D.KEEPALIVE_INTERVAL, None;
    }

    method RefuseDial()
      requires D.SlotsTyped(queues.View())
      modifies this, queues
      ensures View() == D.FailQueued(old(View())).(phase := D.Top)
    {
      hide D.FailQueued, D.SlotsTyped;
      FailQueuedCommands();
      phase := D.Top;
    }

    method AwaitCommand(received: Option<Command>)
      requires !D.HasDialWorthy(queues.View())
      modifies this, queues
      ensures View() == D.WaitStep(old(View()), received, D.Refused, 0)
    {
      hide D.Take;
      if !channelOpen || received.None? {
        phase := D.Returned;
      } else {
        Take(received.value);
        queues.DropEphemeralWithoutSession();
      }
    }

    /** Waiting for something worth a connection, then dialling. */
    method Wait(received: Option<Command>, dialled: D.Dialled, at: int)
      requires Valid() && phase == D.Waiting && L.SlotRegistered(reg, received)
      modifies this, queues
      ensures View() == D.WaitStep(old(View()), received, dialled, at) && Valid()
    {
      R.SoundWait(reg, View(), received, dialled, at);
      assert D.SlotsTyped(queues.View());
      hide R.Sound, D.FailQueued, D.Take, L.SlotRegistered, D.SlotsTyped;
      if !D.HasDialWorthy(queues.View()) {
        AwaitCommand(received);
      } else if dialled.Refused? {
        RefuseDial();
      } else {
        OpenSession(dialled.sessionId, at);
      }
    }

    method Step(i: D.Input)
      requires Valid() && R.LeavesNothing(View()) && R.InputRegistered(reg, i)
      modifies this, queues
      ensures View() == D.Step(old(View()), i) && Valid() && R.LeavesNothing(View())
    {
      hide R.Sound, D.WaitStep, D.ConnectedRound, D.TakeAll;
      R.SoundStep(reg, View(), i);
      match i {
        case Drain(cs) =>
          if phase == D.Top {
            R.SoundTakeAll(reg, View(), cs);
            TakeAll(cs);
            phase := D.Waiting;
          }
        case Wait(received, dialled, at) => if phase == D.Waiting { Wait(received, dialled, at); }
        case Turn(r) => if phase == D.Connected { Turn(r); }
      }
    }

    /** A run of the contact task from its start is a run of the state machine. */
    method Drive(inputs: seq<D.Input>)
      requires Valid() && R.LeavesNothing(View())
      requires forall i :: 0 <= i < |inputs| ==> R.InputRegistered(reg, inputs[i])
      modifies this, queues
      ensures View() == D.Run(old(View()), inputs) && Valid() && R.LeavesNothing(View())
    {
      hide R.Sound, D.Step;
      var i := 0;
      assert inputs[0..] == inputs;
      while i < |inputs|
        invariant 0 <= i <= |inputs| && Valid() && R.LeavesNothing(View())
        invariant D.Run(View(), inputs[i..]) == D.Run(old(View()), inputs)
      {
        assert inputs[i..][1..] == inputs[i + 1..];
        Step(inputs[i]);
        i := i + 1;
      }
    }
  }

  lemma EmptyPop(q: D.Queues)
    requires D.PopNext(q).0.None?
    ensures D.PopNext(q).1 == q
  {
  }

  lemma NoActive(s: D.Contact)
    requires |s.active| < D.MAX_IN_FLIGHT
    ensures s.active == map[]
  {
  }

  /** The endpoint sequence sent so far is local to the session that failed. */
  lemma SentSequenceForgotten(s: D.Contact, n: nat)
    ensures D.FailSession(s) == D.FailSession(s.(sentSequence := n))
  {
    assert D.Disconnect(D.FailActive(s)) == D.Disconnect(D.FailActive(s.(sentSequence := n)));
  }
}
