/**
 The table of authorized endpoints, written by the engine that authorizes contacts and by several inbound sessions,
 each with its own copy of its peer's endpoint.
 */
module EndpointTable {
  import opened Foundation
  import opened ByteCodec
  import opened PeerSigning
  import opened EndpointChain

  datatype Table = Table(authorized: map<Text, Endpoint>, sessions: seq<Session>)

  datatype Event = Authorize(endpoint: Endpoint) | Open(peerId: Text) | Deliver(session: nat, arrival: Arrival)

  /** An authenticated session starts from the table's endpoint. */
  function NewSession(authorized: map<Text, Endpoint>, p: Text): Session
    requires p in authorized
  {
    Session(true, p, authorized[p].identityKey, authorized[p], authorized, [])
  }

  /** A session as it finds the table when an update reaches it. */
  function Facing(t: Table, k: nat): Session
    requires k < |t.sessions|
  {
    t.sessions[k].(authorized := t.authorized)
  }

  function Step(o: Oracle, t: Table, e: Event): Table {
    match e
    case Authorize(x) => t.(authorized := t.authorized[x.installationId := x])
    case Open(p) => if p in t.authorized then t.(sessions := t.sessions + [NewSession(t.authorized, p)]) else t
    case Deliver(k, a) =>
      if k < |t.sessions| then
        var r := Receive(o, Facing(t, k), a);
        Table(r.authorized, t.sessions[k := r])
      else t
  }

  function Run(o: Oracle, authorized: map<Text, Endpoint>, events: seq<Event>): Table {
    if events == [] then Table(authorized, [])
    else Step(o, Run(o, authorized, events[..|events| - 1]), events[|events| - 1])
  }

  // ---------------------------------------------------------------- who writes the entry

  /** The event makes one of the peer's sessions accept an update. */
  predicate Applies(o: Oracle, t: Table, e: Event, p: Text) {
    && e.Deliver? && e.session < |t.sessions|
    && var s, u := t.sessions[e.session], e.arrival.update;
       && s.running && s.peerId == p && p in t.authorized
       && u.endpoint.installationId == p && u.endpoint.identityKey == s.peerKey
       && ValidateUpdate(o, u, s.endpoint, e.arrival.now)
  }

  predicate Writes(o: Oracle, t: Table, e: Event, p: Text) {
    Applies(o, t, e, p) || (e.Authorize? && e.endpoint.installationId == p)
  }

  function Content(e: Event): Endpoint
    requires !e.Open?
  {
    if e.Authorize? then e.endpoint else e.arrival.update.endpoint
  }

  lemma StepEntry(o: Oracle, t: Table, e: Event, p: Text)
    requires p in t.authorized
    ensures var t' := Step(o, t, e);
            && p in t'.authorized
            && t'.authorized[p] == if Writes(o, t, e, p) then Content(e) else t.authorized[p]
  {
    hide Validate;
  }

  /** The endpoint last written for the peer, or the one the table started with. */
  function LastWritten(o: Oracle, authorized: map<Text, Endpoint>, events: seq<Event>, p: Text): Endpoint
    requires p in authorized
  {
    if events == [] then authorized[p]
    else
      var before, e := events[..|events| - 1], events[|events| - 1];
      if Writes(o, Run(o, authorized, before), e, p) then Content(e) else LastWritten(o, authorized, before, p)
  }

  datatype Writer = Nobody | Engine | Inbound(session: nat)

  function WriterOf(e: Event): Writer { if e.Deliver? then Inbound(e.session) else Engine }

  function LastWriter(o: Oracle, authorized: map<Text, Endpoint>, events: seq<Event>, p: Text): Writer {
    if events == [] then Nobody
    else
      var before, e := events[..|events| - 1], events[|events| - 1];
      if Writes(o, Run(o, authorized, before), e, p) then WriterOf(e) else LastWriter(o, authorized, before, p)
  }

  lemma {:induction false} EntryIsLastWritten(o: Oracle, authorized: map<Text, Endpoint>, events: seq<Event>, p: Text)
    requires p in authorized
    ensures p in Run(o, authorized, events).authorized
    ensures Run(o, authorized, events).authorized[p] == LastWritten(o, authorized, events, p)
  {
    hide Step, Writes;
    if events != [] {
      EntryIsLastWritten(o, authorized, events[..|events| - 1], p);
      StepEntry(o, Run(o, authorized, events[..|events| - 1]), events[|events| - 1], p);
    }
  }

  /** A session's copy differs from the table only if the engine or another session wrote last. */
  predicate Current(t: Table, p: Text, writer: Writer) {
    p in t.authorized &&
    forall k :: 0 <= k < |t.sessions| && t.sessions[k].peerId == p && writer in {Nobody, Inbound(k)} ==>
      t.sessions[k].endpoint == t.authorized[p]
  }

  lemma StepCurrent(o: Oracle, t: Table, e: Event, p: Text, writer: Writer)
    requires Current(t, p, writer)
    ensures Current(Step(o, t, e), p, if Writes(o, t, e, p) then WriterOf(e) else writer)
  {
    hide Validate;
  }

  lemma {:induction false} AlwaysCurrent(o: Oracle, authorized: map<Text, Endpoint>, events: seq<Event>, p: Text)
    requires p in authorized
    ensures Current(Run(o, authorized, events), p, LastWriter(o, authorized, events, p))
  {
    hide Step, Writes, Current;
    if events == [] {
      EmptyCurrent(authorized, p);
    } else {
      AlwaysCurrent(o, authorized, events[..|events| - 1], p);
      StepCurrent(o, Run(o, authorized, events[..|events| - 1]), events[|events| - 1], p,
                  LastWriter(o, authorized, events[..|events| - 1], p));
    }
  }

  lemma EmptyCurrent(authorized: map<Text, Endpoint>, p: Text)
    requires p in authorized
    ensures Current(Table(authorized, []), p, Nobody)
  {
  }

  // ---------------------------------------------------------------- moving back

  function EntryAfter(o: Oracle, authorized: map<Text, Endpoint>, events: seq<Event>, j: nat, p: Text): Endpoint
    requires p in authorized && j <= |events|
  {
    EntryIsLastWritten(o, authorized, events[..j], p);
    Run(o, authorized, events[..j]).authorized[p]
  }

  /**
   Over every run, the entry moves back at an event if and only if the event writes an endpoint with a lower sequence
   than the last one written. If a session's accepted update does so, the engine or another session wrote last.
   */
  lemma EntryMovesBackIff(o: Oracle, authorized: map<Text, Endpoint>, events: seq<Event>, j: nat, p: Text)
    requires p in authorized && j < |events|
    ensures var t, e, last := Run(o, authorized, events[..j]), events[j], LastWritten(o, authorized, events[..j], p);
            var back := EntryAfter(o, authorized, events, j + 1, p).sequence
                        < EntryAfter(o, authorized, events, j, p).sequence;
            && (back <==> Writes(o, t, e, p) && Content(e).sequence < last.sequence)
            && (back && e.Deliver? ==> LastWriter(o, authorized, events[..j], p) !in {Nobody, Inbound(e.session)})
  {
    var before, e := events[..j], events[j];
    var t := Run(o, authorized, before);
    assert events[..j + 1][..j] == before && Run(o, authorized, events[..j + 1]) == Step(o, t, e);
    EntryIsLastWritten(o, authorized, before, p);
    AlwaysCurrent(o, authorized, before, p);
    StepEntry(o, t, e, p);
    hide Run, LastWritten, LastWriter, Step, Validate;
  }

  /** While everything written for a peer comes through one session, its entry never moves back. */
  lemma OneSessionNeverMovesBack(o: Oracle, authorized: map<Text, Endpoint>, events: seq<Event>,
                                 j: nat, p: Text, k: nat)
    requires p in authorized && j < |events|
    requires forall i :: 0 <= i < |events| && Writes(o, Run(o, authorized, events[..i]), events[i], p) ==>
               WriterOf(events[i]) == Inbound(k)
    ensures EntryAfter(o, authorized, events, j + 1, p).sequence >= EntryAfter(o, authorized, events, j, p).sequence
  {
    EntryMovesBackIff(o, authorized, events, j, p);
    OnlyWriter(o, authorized, events, j, p, k);
    hide Run, EntryAfter;
  }

  lemma {:induction false} OnlyWriter(o: Oracle, authorized: map<Text, Endpoint>, events: seq<Event>,
                                      j: nat, p: Text, k: nat)
    requires j <= |events|
    requires forall i :: 0 <= i < |events| && Writes(o, Run(o, authorized, events[..i]), events[i], p) ==>
               WriterOf(events[i]) == Inbound(k)
    ensures LastWriter(o, authorized, events[..j], p) in {Nobody, Inbound(k)}
    decreases j
  {
    hide Run, Writes;
    if j > 0 {
      OnlyWriter(o, authorized, events, j - 1, p, k);
      assert events[..j][..j - 1] == events[..j - 1];
    }
  }

  // ---------------------------------------------------------------- it happens with an honest chain

  /**
   For every chain of two valid updates: two sessions open, the first receives the chain, the second only its first
   update, and the table falls back from the last endpoint to the one before it.
   */
  lemma HonestChainMovesBack(o: Oracle, base: Endpoint, u1: Update, u2: Update, now: I64)
    requires Chain(base, [u1, u2]) && Validate(o, u1.endpoint, now) && Validate(o, u2.endpoint, now)
    ensures var p := base.installationId;
            var events := [Open(p), Open(p), Deliver(0, Arrival(u1, now)), Deliver(0, Arrival(u2, now)),
                           Deliver(1, Arrival(u1, now))];
            && EntryAfter(o, map[p := base], events, 4, p) == u2.endpoint
            && EntryAfter(o, map[p := base], events, 5, p) == u1.endpoint
            && u1.endpoint.sequence < u2.endpoint.sequence
  {
    var p, authorized := base.installationId, map[base.installationId := base];
    var a1, a2 := Arrival(u1, now), Arrival(u2, now);
    var events := [Open(p), Open(p), Deliver(0, a1), Deliver(0, a2), Deliver(1, a1)];
    assert Linked(base, [u1, u2], 0) && Linked(base, [u1, u2], 1);
    var s0 := NewSession(authorized, p);
    var r1 := Updated(o, s0, a1);
    var r2 := Updated(o, r1, a2);
    var late := Updated(o, s0.(authorized := r2.authorized), a1);
    hide *;
    ChainRun(o, authorized, p, a1, a2);
  }

  /** Two sessions of one peer: what the table holds after the first has both updates and the second only the first. */
  lemma ChainRun(o: Oracle, authorized: map<Text, Endpoint>, p: Text, a1: Arrival, a2: Arrival)
    requires p in authorized
    ensures var events := [Open(p), Open(p), Deliver(0, a1), Deliver(0, a2), Deliver(1, a1)];
            var s0 := NewSession(authorized, p);
            var r2 := Receive(o, Receive(o, s0, a1), a2);
            && Run(o, authorized, events[..4]).authorized == r2.authorized
            && Run(o, authorized, events[..5]).authorized
               == Receive(o, s0.(authorized := r2.authorized), a1).authorized
  {
    hide Receive, Run, Step;
    var events := [Open(p), Open(p), Deliver(0, a1), Deliver(0, a2), Deliver(1, a1)];
    var s0 := NewSession(authorized, p);
    var r1 := Receive(o, s0, a1);
    var r2 := Receive(o, r1, a2);
    assert s0.(authorized := authorized) == s0 && r1.(authorized := r1.authorized) == r1;
    assert [s0, s0][0 := r1] == [r1, s0] && [r1, s0][0 := r2] == [r2, s0];
    TwoOpen(o, authorized, events, p);
    RunNext(o, authorized, events, 2);
    DeliverStep(o, Table(authorized, [s0, s0]), 0, a1);
    RunNext(o, authorized, events, 3);
    DeliverStep(o, Table(r1.authorized, [r1, s0]), 0, a2);
    RunNext(o, authorized, events, 4);
    DeliverStep(o, Table(r2.authorized, [r2, s0]), 1, a1);
  }

  lemma Updated(o: Oracle, s: Session, a: Arrival) returns (r: Session)
    requires s.running && s.peerId in s.authorized && Pinned(s)
    requires Validate(o, a.update.endpoint, a.now) && a.update.previousSequence == s.endpoint.sequence
    requires a.update.endpoint.sequence > s.endpoint.sequence
    requires a.update.endpoint.installationId == s.peerId && a.update.endpoint.identityKey == s.peerKey
    ensures r == Receive(o, s, a) && r.running && r.peerId == s.peerId && r.peerKey == s.peerKey && Pinned(r)
    ensures r.endpoint == a.update.endpoint && r.authorized == s.authorized[s.peerId := a.update.endpoint]
  {
    hide Validate;
    r := Receive(o, s, a);
  }

  lemma DeliverStep(o: Oracle, t: Table, k: nat, a: Arrival)
    requires k < |t.sessions|
    ensures var r := Receive(o, t.sessions[k].(authorized := t.authorized), a);
            Step(o, t, Deliver(k, a)) == Table(r.authorized, t.sessions[k := r])
  {
    hide Receive;
  }

  lemma RunNext(o: Oracle, authorized: map<Text, Endpoint>, events: seq<Event>, j: nat)
    requires j < |events|
    ensures Run(o, authorized, events[..j + 1]) == Step(o, Run(o, authorized, events[..j]), events[j])
  {
    assert events[..j + 1][..j] == events[..j];
  }

  lemma TwoOpen(o: Oracle, authorized: map<Text, Endpoint>, events: seq<Event>, p: Text)
    requires p in authorized && |events| >= 2 && events[0] == events[1] == Open(p)
    ensures Run(o, authorized, events[..2]) == Table(authorized, [NewSession(authorized, p), NewSession(authorized, p)])
  {
    assert events[..0] == [];
    RunNext(o, authorized, events, 0);
    RunNext(o, authorized, events, 1);
  }

  function Sample(sequence: U64): Endpoint {
    Endpoint(PROTOCOL_VERSION, [1], [2], PEER_VIRTUAL_PORT, [3], [[4]], sequence, 0, None)
  }

  /** One such run, with nothing left open. */
  lemma EntryMovesBackSomewhere() returns (o: Oracle, authorized: map<Text, Endpoint>, events: seq<Event>)
    ensures [1] in authorized && |events| == 5
    ensures EntryAfter(o, authorized, events, 5, [1]).sequence < EntryAfter(o, authorized, events, 4, [1]).sequence
  {
    o := Oracle(_ => true, _ => false, _ => Some([1]), _ => true);
    var u1, u2 := Update(1, Sample(2)), Update(2, Sample(3));
    assert Linked(Sample(1), [u1, u2], 0) && Linked(Sample(1), [u1, u2], 1);
    assert Validate(o, Sample(2), 0) && Validate(o, Sample(3), 0);
    HonestChainMovesBack(o, Sample(1), u1, u2, 0);
    authorized := map[[1] := Sample(1)];
    events := [Open([1]), Open([1]), Deliver(0, Arrival(u1, 0)), Deliver(0, Arrival(u2, 0)),
               Deliver(1, Arrival(u1, 0))];
    hide Run;
  }
}
