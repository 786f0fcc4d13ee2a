/** Endpoint updates within one inbound session: what is accepted, what is skipped, and replay after a reconnect. */
module EndpointChain {
  import opened Foundation
  import opened ByteCodec
  import opened PeerSigning
  import opened Delivery

  const PEER_VIRTUAL_PORT := 443
  const MAX_CLOCK_SKEW := 600
  const MAX_CAPABILITY_BYTES := 64

  /** The checks that need cryptography or address parsing. */
  datatype Oracle = Oracle(
    onionValid: Text -> bool, isBlank: Text -> bool, idOfKey: Text -> Option<Text>, signatureValid: Endpoint -> bool)

  function SaturatingSub(a: I64, b: I64): I64 {
    if a - b < I64_MIN then I64_MIN else if a - b >= I64_LIMIT then I64_LIMIT - 1 else a - b
  }

  predicate CapabilitiesValid(o: Oracle, cs: seq<Text>) {
    && cs != []
    && (forall i :: 0 <= i < |cs| ==> !o.isBlank(cs[i]) && |cs[i]| <= MAX_CAPABILITY_BYTES)
    && (forall i, j :: 0 <= i < j < |cs| ==> cs[i] != cs[j])
  }

  predicate ExpiryValid(expiresAt: Option<I64>, now: I64) {
    expiresAt.Some? ==> expiresAt.value >= now && SaturatingSub(expiresAt.value, now) <= MAX_CLOCK_SKEW
  }

  predicate Validate(o: Oracle, e: Endpoint, now: I64) {
    && e.protocolVersion == PROTOCOL_VERSION
    && e.sequence != 0
    && e.virtualPort == PEER_VIRTUAL_PORT
    && SaturatingSub(e.issuedAt, now) <= MAX_CLOCK_SKEW
    && o.onionValid(e.onionAddress)
    && ExpiryValid(e.expiresAt, now)
    && CapabilitiesValid(o, e.capabilities)
    && o.idOfKey(e.identityKey) == Some(e.installationId)
    && o.signatureValid(e)
  }

  predicate ValidateSuccessor(o: Oracle, e: Endpoint, previous: Endpoint, now: I64) {
    && Validate(o, e, now)
    && e.installationId == previous.installationId && e.identityKey == previous.identityKey
    && e.sequence > previous.sequence
  }

  datatype Update = Update(previousSequence: U64, endpoint: Endpoint)

  predicate ValidateUpdate(o: Oracle, u: Update, previous: Endpoint, now: I64) {
    u.previousSequence == previous.sequence && ValidateSuccessor(o, u.endpoint, previous, now)
  }

  // ---------------------------------------------------------------- the receiving session

  /** `authorized` is shared by all sessions; `published` lists the endpoints announced to the engine. */
  datatype Session = Session(
    running: bool, peerId: Text, peerKey: Text, endpoint: Endpoint, authorized: map<Text, Endpoint>,
    published: seq<Endpoint>)

  datatype Arrival = Arrival(update: Update, now: I64)

  function Receive(o: Oracle, s: Session, a: Arrival): Session {
    var e := a.update.endpoint;
    if !s.running then s
    else if e.installationId != s.peerId || e.identityKey != s.peerKey then s.(running := false)
    else if e.sequence <= s.endpoint.sequence then s
    else if !ValidateUpdate(o, a.update, s.endpoint, a.now) then s.(running := false)
    else if s.peerId !in s.authorized then s.(endpoint := e, running := false)
    else s.(endpoint := e, authorized := s.authorized[s.peerId := e], published := s.published + [e])
  }

  function Serve(o: Oracle, s: Session, arrivals: seq<Arrival>): Session
    decreases |arrivals|
  {
    if arrivals == [] then s else Serve(o, Receive(o, s, arrivals[0]), arrivals[1..])
  }

  predicate Pinned(s: Session) { s.endpoint.installationId == s.peerId && s.endpoint.identityKey == s.peerKey }

  /** Announced endpoints rise strictly from where the session started, and all belong to the authenticated peer. */
  predicate Rising(s: Session, start: Endpoint) {
    && Pinned(s)
    && (forall i :: 0 <= i < |s.published| ==>
          && s.published[i].installationId == s.peerId && s.published[i].identityKey == s.peerKey
          && start.sequence < s.published[i].sequence <= s.endpoint.sequence)
    && (forall i, j :: 0 <= i < j < |s.published| ==> s.published[i].sequence < s.published[j].sequence)
    && (s.running && s.published != [] ==> s.endpoint == s.published[|s.published| - 1])
    && start.sequence <= s.endpoint.sequence
  }

  lemma ReceiveRises(o: Oracle, s: Session, a: Arrival, start: Endpoint)
    requires Rising(s, start)
    ensures Rising(Receive(o, s, a), start)
  {
    hide Validate;
  }

  lemma {:induction false} ServeRises(o: Oracle, s: Session, arrivals: seq<Arrival>, start: Endpoint)
    requires Rising(s, start)
    ensures Rising(Serve(o, s, arrivals), start)
    decreases |arrivals|
  {
    hide Rising, Receive;
    if arrivals != [] {
      ReceiveRises(o, s, arrivals[0], start);
      ServeRises(o, Receive(o, s, arrivals[0]), arrivals[1..], start);
    }
  }

  /** Whatever updates arrive, at whatever times, a session's accepted sequence only rises and its peer stays. */
  lemma SessionMonotone(o: Oracle, s: Session, arrivals: seq<Arrival>)
    requires Pinned(s) && s.published == []
    ensures Rising(Serve(o, s, arrivals), s.endpoint)
  {
    ServeRises(o, s, arrivals, s.endpoint);
  }

  // ---------------------------------------------------------------- what is applied

  /** What has to be true of an endpoint that is believed at this time. */
  predicate Credible(o: Oracle, e: Endpoint, now: I64) {
    && e.protocolVersion == PROTOCOL_VERSION && e.sequence > 0 && e.virtualPort == PEER_VIRTUAL_PORT
    && o.onionValid(e.onionAddress) && o.idOfKey(e.identityKey) == Some(e.installationId) && o.signatureValid(e)
    && e.issuedAt <= now + MAX_CLOCK_SKEW
    && (e.expiresAt.Some? ==> now <= e.expiresAt.value <= now + MAX_CLOCK_SKEW)
    && e.capabilities != []
    && (forall c :: c in e.capabilities ==> !o.isBlank(c) && |c| <= MAX_CAPABILITY_BYTES)
    && (forall i, j :: 0 <= i < j < |e.capabilities| ==> e.capabilities[i] != e.capabilities[j])
  }

  /** The update comes from the session's peer and follows directly on what the session holds. */
  predicate Follows(s: Session, u: Update) {
    && u.endpoint.installationId == s.peerId && u.endpoint.identityKey == s.peerKey
    && u.previousSequence == s.endpoint.sequence < u.endpoint.sequence
  }

  lemma CredibleIff(o: Oracle, e: Endpoint, now: I64)
    ensures Credible(o, e, now) <==> Validate(o, e, now)
  {
    assert SaturatingSub(e.issuedAt, now) <= MAX_CLOCK_SKEW <==> e.issuedAt - now <= MAX_CLOCK_SKEW;
    assert e.expiresAt.Some? ==>
        (SaturatingSub(e.expiresAt.value, now) <= MAX_CLOCK_SKEW <==> e.expiresAt.value - now <= MAX_CLOCK_SKEW);
  }

  /**
   A running session takes an update over if and only if it follows and is credible at that moment, and then
   announces it exactly if the peer is still authorized. It ends if and only if the update is someone else's, is newer
   but not of that kind, or finds the peer no longer authorized; everything else it skips.
   */
  lemma AppliedIff(o: Oracle, s: Session, a: Arrival)
    requires s.running && Pinned(s)
    ensures var s', u := Receive(o, s, a), a.update;
            var applies := Follows(s, u) && Credible(o, u.endpoint, a.now);
            var known := s.peerId in s.authorized;
            && s'.endpoint == (if applies then u.endpoint else s.endpoint)
            && s'.published == s.published + (if applies && known then [u.endpoint] else [])
            && s'.authorized == (if applies && known then s.authorized[s.peerId := u.endpoint] else s.authorized)
            && (s'.running <==>
                if u.endpoint.installationId != s.peerId || u.endpoint.identityKey != s.peerKey then false
                else if u.endpoint.sequence <= s.endpoint.sequence then true
                else applies && known)
  {
    CredibleIff(o, a.update.endpoint, a.now);
    hide Credible, Validate;
  }

  /** Every endpoint a session announces arrived in an update and was credible then: signed, current, its key's own. */
  lemma {:induction false} AnnouncedIsCredible(o: Oracle, s: Session, arrivals: seq<Arrival>, k: nat)
    requires Pinned(s) && |s.published| <= k < |Serve(o, s, arrivals).published|
    ensures s.published <= Serve(o, s, arrivals).published
    ensures var e := Serve(o, s, arrivals).published[k];
            exists i :: 0 <= i < |arrivals| && arrivals[i].update.endpoint == e && Credible(o, e, arrivals[i].now)
    decreases |arrivals|
  {
    if arrivals != [] {
      var r, rest := Receive(o, s, arrivals[0]), arrivals[1..];
      ServeExtends(o, r, rest);
      if s.running { AppliedIff(o, s, arrivals[0]); } else { StoppedServes(o, s, arrivals); }
      hide Credible, Receive;
      if k < |r.published| {
        assert Serve(o, s, arrivals).published[k] == r.published[k] == arrivals[0].update.endpoint;
      } else {
        AnnouncedIsCredible(o, r, rest, k);
        var e := Serve(o, s, arrivals).published[k];
        var i :| 0 <= i < |rest| && rest[i].update.endpoint == e && Credible(o, e, rest[i].now);
        assert arrivals[i + 1] == rest[i];
      }
    }
  }

  lemma {:induction false} ServeExtends(o: Oracle, s: Session, arrivals: seq<Arrival>)
    ensures s.published <= Serve(o, s, arrivals).published
    decreases |arrivals|
  {
    hide Validate;
    if arrivals != [] { ServeExtends(o, Receive(o, s, arrivals[0]), arrivals[1..]); }
  }

  // ---------------------------------------------------------------- replay

  /** The update names its predecessor, keeps the identity and raises the sequence. */
  predicate Linked(base: Endpoint, us: seq<Update>, i: nat)
    requires i < |us|
  {
    && us[i].previousSequence == At(base, us, i).sequence
    && us[i].endpoint.sequence > At(base, us, i).sequence
    && us[i].endpoint.installationId == base.installationId && us[i].endpoint.identityKey == base.identityKey
  }

  predicate Chain(base: Endpoint, us: seq<Update>) { forall i :: 0 <= i < |us| ==> Linked(base, us, i) }

  /** The endpoint in force after the first k updates. */
  function At(base: Endpoint, us: seq<Update>, k: nat): Endpoint
    requires k <= |us|
  {
    if k == 0 then base else us[k - 1].endpoint
  }

  lemma {:induction false} SequencesRise(base: Endpoint, us: seq<Update>, i: nat, j: nat)
    requires Chain(base, us) && i <= j <= |us|
    ensures At(base, us, i).sequence <= At(base, us, j).sequence
    ensures i < j ==> At(base, us, i).sequence < At(base, us, j).sequence
    decreases j
  {
    if i < j {
      assert Linked(base, us, j - 1);
      SequencesRise(base, us, i, j - 1);
    }
  }

  predicate SentAsChain(arrivals: seq<Arrival>, us: seq<Update>) {
    |arrivals| == |us| && forall i :: 0 <= i < |us| ==> arrivals[i].update == us[i]
  }

  function Endpoints(us: seq<Update>): seq<Endpoint> {
    seq(|us|, i requires 0 <= i < |us| => us[i].endpoint)
  }

  /** Where the session stands when the first j updates of the replay are in and it had already applied k. */
  predicate Reached(s: Session, s0: Session, base: Endpoint, us: seq<Update>, k: nat, j: nat)
    requires k <= |us| && j <= |us|
  {
    && s.running && s.peerId == s0.peerId && s.peerKey == s0.peerKey && s.peerId in s.authorized
    && s.endpoint == At(base, us, if j <= k then k else j)
    && s.published == s0.published + (if j <= k then [] else Endpoints(us[k..j]))
  }

  lemma AlreadyApplied(o: Oracle, s: Session, s0: Session, a: Arrival, base: Endpoint, us: seq<Update>, k: nat, j: nat)
    requires Chain(base, us) && j < k <= |us| && a.update == us[j]
    requires s0.peerId == base.installationId && s0.peerKey == base.identityKey
    requires Reached(s, s0, base, us, k, j)
    ensures Receive(o, s, a) == s && Reached(s, s0, base, us, k, j + 1)
  {
    assert Linked(base, us, j);
    SequencesRise(base, us, j + 1, k);
    hide Chain, Linked, ValidateUpdate;
  }

  lemma NewlyApplied(o: Oracle, s: Session, s0: Session, a: Arrival, base: Endpoint, us: seq<Update>, k: nat, j: nat)
    requires Chain(base, us) && k <= j < |us| && a.update == us[j]
    requires s0.peerId == base.installationId && s0.peerKey == base.identityKey
    requires Reached(s, s0, base, us, k, j) && Validate(o, us[j].endpoint, a.now)
    ensures Reached(Receive(o, s, a), s0, base, us, k, j + 1)
  {
    hide Validate;
    assert Linked(base, us, j);
    assert j > 0 ==> Linked(base, us, j - 1);
    hide Chain;
    assert s.endpoint == At(base, us, j);
    assert ValidateUpdate(o, us[j], s.endpoint, a.now);
    assert us[k..k] == [];
    assert us[k..j + 1] == us[k..j] + [us[j]];
    assert Endpoints(us[k..j + 1]) == Endpoints(us[k..j]) + [us[j].endpoint];
  }

  lemma {:induction false} ReplayFrom(
      o: Oracle, s: Session, s0: Session, arrivals: seq<Arrival>, base: Endpoint, us: seq<Update>, k: nat, j: nat)
    requires Chain(base, us) && k <= |us| && j <= |us|
    requires s0.peerId == base.installationId && s0.peerKey == base.identityKey
    requires Reached(s, s0, base, us, k, j) && SentAsChain(arrivals, us)
    requires forall i :: k <= i < |us| ==> Validate(o, us[i].endpoint, arrivals[i].now)
    ensures Reached(Serve(o, s, arrivals[j..]), s0, base, us, k, |us|)
    decreases |us| - j
  {
    hide Validate, Chain, Receive;
    if j < |us| {
      if j < k {
        AlreadyApplied(o, s, s0, arrivals[j], base, us, k, j);
      } else {
        NewlyApplied(o, s, s0, arrivals[j], base, us, k, j);
      }
      assert arrivals[j..][1..] == arrivals[j + 1..];
      ReplayFrom(o, Receive(o, s, arrivals[j]), s0, arrivals, base, us, k, j + 1);
    }
  }

  /**
   A receiver that has applied any prefix of a chain and is sent the whole chain again raises no error, ends at the
   last endpoint, and announces exactly the updates it had not applied, provided those are still valid on arrival.
   */
  lemma ReplayConverges(o: Oracle, s: Session, arrivals: seq<Arrival>, base: Endpoint, us: seq<Update>, k: nat)
    requires Chain(base, us) && k <= |us| && SentAsChain(arrivals, us)
    requires s.running && s.peerId == base.installationId && s.peerKey == base.identityKey && s.peerId in s.authorized
    requires s.endpoint == At(base, us, k)
    requires forall i :: k <= i < |us| ==> Validate(o, us[i].endpoint, arrivals[i].now)
    ensures var s' := Serve(o, s, arrivals);
            && s'.running && s'.endpoint == At(base, us, |us|)
            && s'.published == s.published + Endpoints(us[k..])
  {
    assert us[k..k] == [] && Endpoints([]) == [];
    assert Reached(s, s, base, us, k, 0);
    ReplayFrom(o, s, s, arrivals, base, us, k, 0);
    assert arrivals[0..] == arrivals;
    assert us[k..|us|] == us[k..];
    hide Serve, Validate;
  }

  // ---------------------------------------------------------------- the sending side

  function Sequences(us: seq<Update>): seq<nat> {
    seq(|us|, i requires 0 <= i < |us| => us[i].endpoint.sequence)
  }

  lemma {:induction false} UnsentSuffix(base: Endpoint, us: seq<Update>, j: nat, sent: nat)
    requires Chain(base, us) && j <= |us| && sent <= At(base, us, j).sequence
    ensures UnsentUpdates(Sequences(us)[j..], sent) == Sequences(us)[j..]
    decreases |us| - j
  {
    if j < |us| {
      var all := Sequences(us);
      assert Linked(base, us, j);
      assert all[j..][0] == us[j].endpoint.sequence && all[j..][1..] == all[j + 1..];
      assert At(base, us, j + 1) == us[j].endpoint;
      UnsentSuffix(base, us, j + 1, us[j].endpoint.sequence);
      assert all[j..] == [all[j]] + all[j + 1..];
    }
  }

  /** A new session starts from sequence zero, so the sender transmits the whole chain. */
  lemma ReconnectSendsWholeChain(base: Endpoint, us: seq<Update>)
    requires Chain(base, us)
    ensures UnsentUpdates(Sequences(us), 0) == Sequences(us)
  {
    UnsentSuffix(base, us, 0, 0);
    assert Sequences(us)[0..] == Sequences(us);
  }

  /** Whatever the list, what is sent rises strictly from what was sent before and comes from the list. */
  lemma {:induction false} UnsentRises(updates: seq<nat>, sent: nat)
    ensures Newer(UnsentUpdates(updates, sent), updates, sent)
    decreases |updates|
  {
    if updates != [] {
      var u, tail := updates[0], updates[1..];
      assert updates == [u] + tail;
      UnsentRises(tail, if u <= sent then sent else u);
      if u > sent { NewerCons(u, UnsentUpdates(tail, u), tail, sent); }
    }
  }

  lemma NewerCons(u: nat, rest: seq<nat>, tail: seq<nat>, sent: nat)
    requires Newer(rest, tail, u) && sent < u
    ensures Newer([u] + rest, [u] + tail, sent)
  {
    var r := [u] + rest;
    forall i, j | 0 <= i < j < |r| ensures r[i] < r[j] {
      assert r[j] == rest[j - 1] && rest[j - 1] in rest;
      if i > 0 { assert r[i] == rest[i - 1]; }
    }
  }

  /** The numbers come from the list, lie past the given one and rise strictly. */
  predicate Newer(r: seq<nat>, updates: seq<nat>, sent: nat) {
    && (forall x :: x in r ==> x in updates && sent < x)
    && (forall i, j :: 0 <= i < j < |r| ==> r[i] < r[j])
  }

  /** Of a rising list exactly the updates past the last sent one are sent. */
  lemma {:induction false} UnsentIff(updates: seq<nat>, sent: nat, x: nat)
    requires forall i, j :: 0 <= i < j < |updates| ==> updates[i] < updates[j]
    ensures x in UnsentUpdates(updates, sent) <==> x in updates && sent < x
    decreases |updates|
  {
    if updates != [] {
      var rest := updates[1..];
      UnsentIff(rest, if updates[0] <= sent then sent else updates[0], x);
      assert updates == [updates[0]] + rest;
      if x in rest {
        var i :| 0 <= i < |rest| && rest[i] == x;
        assert updates[0] < updates[i + 1];
      }
    }
  }

  // ---------------------------------------------------------------- the loop itself

  /** The part of the inbound task that serves endpoint updates. */
  class Inbound {
    const oracle: Oracle
    const peerId: Text
    const peerKey: Text
    var running: bool
    var endpoint: Endpoint
    var authorized: map<Text, Endpoint>
    var published: seq<Endpoint>

    ghost function View(): Session
      reads this
    {
      Session(running, peerId, peerKey, endpoint, authorized, published)
    }

    method ReceiveUpdate(update: Update, now: I64)
      requires running
      modifies this
      ensures View() == Receive(oracle, old(View()), Arrival(update, now))
    {
      if update.endpoint.installationId != peerId || update.endpoint.identityKey != peerKey {
        running := false;
        return;
      }
      if update.endpoint.sequence <= endpoint.sequence { return; }
      if !ValidateUpdate(oracle, update, endpoint, now) {
        running := false;
        return;
      }
      endpoint := update.endpoint;
      if peerId !in authorized {
        running := false;
        return;
      }
      authorized := authorized[peerId := endpoint];
      published := published + [endpoint];
    }

    method ServeUpdates(arrivals: seq<Arrival>)
      modifies this
      ensures View() == Serve(oracle, old(View()), arrivals)
    {
      var k := 0;
      while k < |arrivals| && running
        invariant k <= |arrivals|
        invariant Serve(oracle, View(), arrivals[k..]) == Serve(oracle, old(View()), arrivals)
      {
        assert arrivals[k..][1..] == arrivals[k + 1..];
        ReceiveUpdate(arrivals[k].update, arrivals[k].now);
        k := k + 1;
      }
      if !running { StoppedServes(oracle, View(), arrivals[k..]); }
    }
  }

  lemma {:induction false} StoppedServes(o: Oracle, s: Session, arrivals: seq<Arrival>)
    requires !s.running
    ensures Serve(o, s, arrivals) == s
    decreases |arrivals|
  {
    if arrivals != [] { StoppedServes(o, s, arrivals[1..]); }
  }
}
