/** The sliding window on code resolution, over whole runs. */
module BrokerLimiter {
  import opened Foundation
  import opened PairingCode
  import opened Broker
  import opened BrokerLedger
  import opened BrokerRuns

  /** When a connection's resolution frames passed the limiter. */
  function PassTimes(log: seq<Entry>, id: Uuid): seq<int> {
    if log == [] then []
    else
      var e := log[|log| - 1];
      PassTimes(log[..|log| - 1], id) + if e.Attempted? && e.id == id then [e.at] else []
  }

  function Clock(inputs: seq<Input>): int {
    if inputs == [] then 0
    else
      match inputs[|inputs| - 1]
      case Frame(_, _, d) => d.now
      case Tick(now) => now
      case Arrive(_) => Clock(inputs[..|inputs| - 1])
      case Leave(_) => Clock(inputs[..|inputs| - 1])
  }

  /** The wall clock never runs backwards. */
  predicate Timely(inputs: seq<Input>) {
    forall k :: 0 <= k < |inputs| ==> Clock(inputs[..k]) <= Clock(inputs[..k + 1])
  }

  predicate Ordered(p: seq<int>) { forall i, j :: 0 <= i <= j < |p| ==> p[i] <= p[j] }

  predicate Spaced(p: seq<int>, now: int) {
    && Ordered(p)
    && (forall i :: 0 <= i < |p| ==> p[i] <= now)
    && (forall i, j :: 0 <= i && i + MAX_CODE_ATTEMPTS <= j < |p| ==> p[i] + ATTEMPT_WINDOW <= p[j])
  }

  /** The remembered attempts are the latest passes; everything forgotten has left the window. */
  predicate Remembers(attempts: seq<int>, p: seq<int>, now: int) {
    && |attempts| <= |p| && attempts == p[|p| - |attempts|..]
    && forall i :: 0 <= i < |p| - |attempts| ==> p[i] + ATTEMPT_WINDOW <= now
  }

  ghost predicate Limited(s: State, now: int) {
    && (forall id: Uuid :: Spaced(PassTimes(s.log, id), now))
    && (forall id: Uuid :: Joined(id) !in s.log ==> PassTimes(s.log, id) == [])
    && (forall id :: id in s.connections ==> Remembers(s.connections[id].attempts, PassTimes(s.log, id), now))
  }

  // ---------------------------------------------------------------- the window arithmetic

  predicate Old(p: seq<int>, now: int) { forall i :: 0 <= i < |p| ==> p[i] + ATTEMPT_WINDOW <= now }

  lemma {:induction false} AllOld(attempts: seq<int>, now: int)
    requires Old(attempts, now)
    ensures Recent(attempts, now) == []
  {
    if attempts != [] { AllOld(attempts[..|attempts| - 1], now); }
  }

  lemma OldIfLastIs(attempts: seq<int>, now: int)
    requires Ordered(attempts) && attempts != [] && attempts[|attempts| - 1] + ATTEMPT_WINDOW <= now
    ensures Old(attempts, now)
  {
  }

  lemma OrderedInit(attempts: seq<int>)
    requires Ordered(attempts) && attempts != []
    ensures Ordered(attempts[..|attempts| - 1])
  {
  }

  /** On an ordered list, dropping what has left the window drops a prefix. */
  lemma {:induction false} RecentIsSuffix(attempts: seq<int>, now: int)
    requires Ordered(attempts)
    ensures var r := Recent(attempts, now);
            && |r| <= |attempts| && r == attempts[|attempts| - |r|..]
            && Old(attempts[..|attempts| - |r|], now)
  {
    hide Ordered;
    if attempts != [] {
      var init, last := attempts[..|attempts| - 1], attempts[|attempts| - 1];
      OrderedInit(attempts);
      if last + ATTEMPT_WINDOW <= now {
        OldIfLastIs(attempts, now);
        AllOld(attempts, now);
        assert attempts[..|attempts|] == attempts;
      } else {
        RecentIsSuffix(init, now);
        var r := Recent(init, now);
        assert attempts[|init| - |r|..] == init[|init| - |r|..] + [last];
        assert attempts[..|init| - |r|] == init[..|init| - |r|];
      }
    }
  }

  lemma Trimming(attempts: seq<int>, p: seq<int>, now: int, now': int)
    requires Remembers(attempts, p, now) && Spaced(p, now) && now <= now'
    ensures Remembers(Recent(attempts, now'), p, now') && Spaced(p, now')
  {
    RecentIsSuffix(attempts, now');
    var r := Recent(attempts, now');
    assert r == p[|p| - |r|..];
    forall i | 0 <= i < |p| - |r| ensures p[i] + ATTEMPT_WINDOW <= now' {
      if i >= |p| - |attempts| { assert p[i] == attempts[..|attempts| - |r|][i - (|p| - |attempts|)]; }
    }
  }

  lemma Passing(recent: seq<int>, p: seq<int>, now: int)
    requires Remembers(recent, p, now) && Spaced(p, now) && |recent| < MAX_CODE_ATTEMPTS
    ensures Remembers(recent + [now], p + [now], now) && Spaced(p + [now], now)
  {
    var p' := p + [now];
    assert recent + [now] == p'[|p'| - |recent + [now]|..];
    forall i, j | 0 <= i && i + MAX_CODE_ATTEMPTS <= j < |p'| ensures p'[i] + ATTEMPT_WINDOW <= p'[j] {
      if j == |p| { assert i < |p| - |recent|; }
    }
  }

  // ---------------------------------------------------------------- steps that do not resolve

  /** No pass is recorded and no remembered attempt changes; newcomers start with an empty window. */
  ghost predicate Patient(s: State, s': State) {
    && s.log <= s'.log
    && (forall k :: |s.log| <= k < |s'.log| ==> !s'.log[k].Attempted?)
    && (forall c :: c in s'.connections ==>
          if c in s.connections then s'.connections[c].attempts == s.connections[c].attempts
          else s'.connections[c].attempts == [] && Joined(c) !in s.log)
  }

  lemma {:induction false} NoPass(log: seq<Entry>, log': seq<Entry>, id: Uuid)
    requires log <= log' && forall k :: |log| <= k < |log'| ==> !log'[k].Attempted?
    ensures PassTimes(log', id) == PassTimes(log, id)
    decreases |log'|
  {
    if |log'| == |log| {
      assert log' == log;
    } else {
      NoPass(log, log'[..|log'| - 1], id);
    }
  }

  lemma SpacedLater(s: State, s': State, now: int, now': int, id: Uuid)
    requires Limited(s, now) && Patient(s, s') && now <= now'
    ensures Spaced(PassTimes(s'.log, id), now') && (Joined(id) !in s'.log ==> PassTimes(s'.log, id) == [])
  {
    NoPass(s.log, s'.log, id);
    hide PassTimes, Remembers;
    assert Spaced(PassTimes(s.log, id), now);
  }

  lemma StillRemembers(attempts: seq<int>, p: seq<int>, now: int, now': int)
    requires Remembers(attempts, p, now) && now <= now'
    ensures Remembers(attempts, p, now')
  {
  }

  lemma NothingToRemember(now: int)
    ensures Remembers([], [], now)
  {
  }

  lemma RemembersLater(s: State, s': State, now: int, now': int, id: Uuid)
    requires Limited(s, now) && Patient(s, s') && now <= now' && id in s'.connections
    ensures Remembers(s'.connections[id].attempts, PassTimes(s'.log, id), now')
  {
    NoPass(s.log, s'.log, id);
    hide PassTimes, Spaced, Remembers;
    if id in s.connections {
      StillRemembers(s.connections[id].attempts, PassTimes(s.log, id), now, now');
    } else {
      NothingToRemember(now');
    }
  }

  lemma PatientKeeps(s: State, s': State, now: int, now': int)
    requires Limited(s, now) && Patient(s, s') && now <= now'
    ensures Limited(s', now')
  {
    hide PassTimes, Patient, Spaced, Remembers;
    forall id: Uuid
      ensures Spaced(PassTimes(s'.log, id), now') && (Joined(id) !in s'.log ==> PassTimes(s'.log, id) == [])
    {
      SpacedLater(s, s', now, now', id);
    }
    forall id | id in s'.connections ensures Remembers(s'.connections[id].attempts, PassTimes(s'.log, id), now') {
      RemembersLater(s, s', now, now', id);
    }
  }

  lemma FinishPatient(s: State, p: Uuid, notice: Notice)
    requires p in s.bridges
    ensures Patient(s, Finish(s, p, notice))
  {
    hide Degree, Restrict;
  }

  lemma OpenPatient(s: State, id: Uuid, f: ClientFrame, d: Draw)
    requires id in s.connections && f.BeginPairing? && Sha256(f.slotHandle) in s.slots
    requires s.slots[Sha256(f.slotHandle)].owner in s.connections
    ensures Patient(s, Open(s, id, f, d))
  {
  }

  lemma BeginPatient(s: State, id: Uuid, f: ClientFrame, d: Draw)
    requires id in s.connections && f.BeginPairing? && OwnerIndexable(s, f.slotHandle)
    ensures Patient(s, Begin(s, id, f, d))
  {
    hide Open;
    if Sha256(f.slotHandle) in s.slots { OpenPatient(s, id, f, d); }
  }

  lemma ProcessPatient(s: State, id: Uuid, f: ClientFrame, d: Draw)
    requires id in s.connections && !f.ResolvePairingCode?
    requires f.BeginPairing? ==> OwnerIndexable(s, f.slotHandle)
    ensures Patient(s, Process(s, id, f, d))
  {
    hide Patient, Finish, Begin, CreateSlot, CancelSlot, Accept, OwnerIndexable;
    match f {
      case BeginPairing(_, _, _, _, _) => BeginPatient(s, id, f, d);
      case RejectPairing(p, token) => if p in s.bridges { FinishPatient(s, p, Rejected); }
      case PairingCommitted(p, token) => if p in s.bridges { FinishPatient(s, p, Finalized); }
      case FinalizePairing(p, token) => if p in s.bridges { FinishPatient(s, p, Finalized); }
      case CancelPairing(p, token) => if p in s.bridges { FinishPatient(s, p, Cancelled); }
      case CreatePairingSlot(req, key, ttl) => CreatePatient(s, id, req, key, ttl, d);
      case CancelPairingSlot(handle, capability) => CancelPatient(s, id, handle, capability);
      case AcceptPairing(p, token, response) => AcceptPatient(s, id, p, token, response);
      case Ping => SendPatient(s, id, Pong);
    }
    SelfPatient(s);
  }

  lemma SelfPatient(s: State)
    ensures Patient(s, s)
  {
  }

  lemma SendPatient(s: State, id: Uuid, frame: ServerFrame)
    ensures Patient(s, Send(s, id, frame))
  {
  }

  lemma AcceptPatient(s: State, id: Uuid, p: Uuid, token: string, response: Bytes)
    ensures Patient(s, Accept(s, id, p, token, response))
  {
  }

  lemma CreatePatient(s: State, id: Uuid, requestId: Uuid, publicKey: Bytes, ttl: nat, d: Draw)
    requires id in s.connections
    ensures Patient(s, CreateSlot(s, id, requestId, publicKey, ttl, d))
  {
    hide FormatCode;
  }

  lemma CancelPatient(s: State, id: Uuid, handle: string, capability: string)
    ensures Patient(s, CancelSlot(s, id, handle, capability))
  {
  }

  lemma LeavePatient(s: State, id: Uuid)
    ensures Patient(s, Disconnected(s, id))
  {
    hide Degree, Restrict, Touching;
  }

  lemma TickPatient(s: State, now: int)
    ensures Patient(s, Expire(s, now))
  {
    hide Degree, Restrict;
  }

  // ---------------------------------------------------------------- resolving

  /** The limiter's own effect: what is remembered, and whether the frame passes. */
  lemma ResolveShape(s: State, id: Uuid, requestId: Uuid, displayCode: string, now: int)
    requires id in s.connections
    ensures var s' := Resolve(s, id, requestId, displayCode, now);
            var recent := Recent(s.connections[id].attempts, now);
            if |recent| >= MAX_CODE_ATTEMPTS then
              && s'.connections == s.connections[id := s.connections[id].(attempts := recent)]
              && s'.log == s.log + [Sent(id, Error(requestId, "rate_limited"))]
            else
              && s'.connections == s.connections[id := s.connections[id].(attempts := recent + [now])]
              && |s'.log| == |s.log| + 2 && s'.log[..|s.log|] == s.log
              && s'.log[|s.log|] == Attempted(id, now) && !s'.log[|s.log| + 1].Attempted?
  {
    hide Recent, NormalizeCode, Resolves;
  }

  lemma OnePass(log: seq<Entry>, log': seq<Entry>, id: Uuid, now: int, c: Uuid)
    requires |log'| == |log| + 2 && log'[..|log|] == log
    requires log'[|log|] == Attempted(id, now) && !log'[|log| + 1].Attempted?
    ensures PassTimes(log', c) == PassTimes(log, c) + if c == id then [now] else []
  {
    var one := log'[..|log| + 1];
    assert one[..|one| - 1] == log;
    assert log'[..|log'| - 1] == one;
  }

  /** A passing frame: what is remembered for its connection, and the log entry. */
  predicate Passes(s: State, s': State, id: Uuid, recent: seq<int>, now: int) {
    && id in s.connections && |recent| < MAX_CODE_ATTEMPTS
    && s'.connections == s.connections[id := s.connections[id].(attempts := recent + [now])]
    && |s'.log| == |s.log| + 2 && s'.log[..|s.log|] == s.log
    && s'.log[|s.log|] == Attempted(id, now) && !s'.log[|s.log| + 1].Attempted?
  }

  lemma StillSpaced(p: seq<int>, now: int, now': int)
    requires Spaced(p, now) && now <= now'
    ensures Spaced(p, now')
  {
  }

  lemma PassFor(s: State, s': State, id: Uuid, recent: seq<int>, now: int, now': int, c: Uuid)
    requires Limited(s, now) && now <= now' && Passes(s, s', id, recent, now') && Joined(id) in s.log
    requires Remembers(recent + [now'], PassTimes(s.log, id) + [now'], now')
    requires Spaced(PassTimes(s.log, id) + [now'], now')
    ensures Spaced(PassTimes(s'.log, c), now') && (Joined(c) !in s'.log ==> PassTimes(s'.log, c) == [])
    ensures c in s'.connections ==> Remembers(s'.connections[c].attempts, PassTimes(s'.log, c), now')
  {
    OnePass(s.log, s'.log, id, now', c);
    hide PassTimes, Spaced, Remembers;
    assert Joined(c) in s.log ==> Joined(c) in s'.log[..|s.log|];
    if c != id {
      StillSpaced(PassTimes(s.log, c), now, now');
      if c in s.connections { StillRemembers(s.connections[c].attempts, PassTimes(s.log, c), now, now'); }
    }
  }

  lemma PassKeeps(s: State, s': State, id: Uuid, recent: seq<int>, now: int, now': int)
    requires Limited(s, now) && now <= now' && Joined(id) in s.log && Passes(s, s', id, recent, now')
    requires recent == Recent(s.connections[id].attempts, now')
    ensures Limited(s', now')
  {
    var p := PassTimes(s.log, id);
    assert id in s.connections && |recent| < MAX_CODE_ATTEMPTS;
    assert Remembers(s.connections[id].attempts, p, now) && Spaced(p, now);
    Trimming(s.connections[id].attempts, p, now, now');
    Passing(recent, p, now');
    hide PassTimes, Recent, Spaced, Remembers, Passes;
    forall c: Uuid
      ensures Spaced(PassTimes(s'.log, c), now') && (Joined(c) !in s'.log ==> PassTimes(s'.log, c) == [])
      ensures c in s'.connections ==> Remembers(s'.connections[c].attempts, PassTimes(s'.log, c), now')
    {
      PassFor(s, s', id, recent, now, now', c);
    }
  }

  lemma RefusalFor(s: State, s': State, id: Uuid, e: Entry, now: int, now': int, c: Uuid)
    requires Limited(s, now) && now <= now' && id in s.connections && !e.Attempted? && s'.log == s.log + [e]
    requires s'.connections ==
             s.connections[id := s.connections[id].(attempts := Recent(s.connections[id].attempts, now'))]
    ensures Spaced(PassTimes(s'.log, c), now') && (Joined(c) !in s'.log ==> PassTimes(s'.log, c) == [])
    ensures c in s'.connections ==> Remembers(s'.connections[c].attempts, PassTimes(s'.log, c), now')
  {
    NoPass(s.log, s'.log, c);
    hide PassTimes, Recent, Spaced, Remembers;
    assert Joined(c) in s.log ==> Joined(c) in s'.log[..|s.log|];
    StillSpaced(PassTimes(s.log, c), now, now');
    if c == id {
      Trimming(s.connections[c].attempts, PassTimes(s.log, c), now, now');
    } else if c in s.connections {
      StillRemembers(s.connections[c].attempts, PassTimes(s.log, c), now, now');
    }
  }

  lemma RefusalKeeps(s: State, s': State, id: Uuid, e: Entry, now: int, now': int)
    requires Limited(s, now) && now <= now' && id in s.connections && !e.Attempted? && s'.log == s.log + [e]
    requires s'.connections ==
             s.connections[id := s.connections[id].(attempts := Recent(s.connections[id].attempts, now'))]
    ensures Limited(s', now')
  {
    hide PassTimes, Recent, Spaced, Remembers;
    forall c: Uuid
      ensures Spaced(PassTimes(s'.log, c), now') && (Joined(c) !in s'.log ==> PassTimes(s'.log, c) == [])
      ensures c in s'.connections ==> Remembers(s'.connections[c].attempts, PassTimes(s'.log, c), now')
    {
      RefusalFor(s, s', id, e, now, now', c);
    }
  }

  lemma ResolveKeepsLimit(s: State, id: Uuid, requestId: Uuid, displayCode: string, now: int, now': int)
    requires Limited(s, now) && now <= now' && id in s.connections && Joined(id) in s.log
    ensures Limited(Resolve(s, id, requestId, displayCode, now'), now')
  {
    hide Limited, Recent, Resolve;
    ResolveShape(s, id, requestId, displayCode, now');
    var s' := Resolve(s, id, requestId, displayCode, now');
    var recent := Recent(s.connections[id].attempts, now');
    if |recent| >= MAX_CODE_ATTEMPTS {
      RefusalKeeps(s, s', id, Sent(id, Error(requestId, "rate_limited")), now, now');
    } else {
      PassKeeps(s, s', id, recent, now, now');
    }
  }

  lemma StepKeepsLimit(s: State, i: Input, now: int, now': int)
    requires Limited(s, now) && now <= now' && Announced(s) && Allowed(s, i) && !Panics(s, i)
    requires i.Frame? ==> i.draw.now == now'
    ensures Limited(Step(s, i), now')
  {
    hide Limited, FreshDraw, OwnerIndexable, Disconnected, Expire, Resolve;
    match i {
      case Arrive(id) => PatientKeeps(s, Connected(s, id), now, now');
      case Leave(id) => LeavePatient(s, id); PatientKeeps(s, Disconnected(s, id), now, now');
      case Tick(at) => TickPatient(s, at); PatientKeeps(s, Expire(s, at), now, now');
      case Frame(id, f, d) =>
        if id !in s.connections {
          PatientKeeps(s, s, now, now');
        } else if f.ResolvePairingCode? {
          ResolveKeepsLimit(s, id, f.requestId, f.displayCode, now, now');
        } else {
          ProcessPatient(s, id, f, d);
          PatientKeeps(s, Process(s, id, f, d), now, now');
        }
    }
  }

  lemma {:induction false} AlwaysLimited(inputs: seq<Input>)
    requires Admissible(inputs) && Timely(inputs)
    ensures Run(inputs).Some? && Limited(Run(inputs).value, Clock(inputs))
  {
    NeverPanics(inputs);
    hide Limited, Announced, Books, Step, Panics, Allowed;
    if inputs == [] {
      NobodyLimited();
    } else {
      var before, i := inputs[..|inputs| - 1], inputs[|inputs| - 1];
      assert forall k :: 0 <= k <= |before| ==> before[..k] == inputs[..k];
      assert Timely(before);
      assert inputs[..|before| + 1] == inputs;
      AlwaysLimited(before);
      AlwaysAnnounced(before);
      StepKeepsBooksHere(Run(before).value, i, before);
      StepKeepsLimit(Run(before).value, i, Clock(before), Clock(inputs));
    }
  }

  lemma StepKeepsBooksHere(s: State, i: Input, before: seq<Input>)
    requires Admissible(before) && Run(before) == Some(s) && Allowed(s, i)
    ensures !Panics(s, i)
  {
    NeverPanics(before);
    StepKeepsBooks(s, i);
  }

  lemma NobodyLimited()
    ensures Limited(INITIAL, 0)
  {
  }

  // ---------------------------------------------------------------- theorem

  /** How many of the times fall into the window that starts at t. */
  function CountIn(p: seq<int>, t: int): nat {
    if p == [] then 0
    else CountIn(p[..|p| - 1], t) + if t <= p[|p| - 1] < t + ATTEMPT_WINDOW then 1 else 0
  }

  lemma {:induction false} CountBefore(p: seq<int>, t: int)
    requires forall i :: 0 <= i < |p| ==> p[i] < t
    ensures CountIn(p, t) == 0
  {
    if p != [] { CountBefore(p[..|p| - 1], t); }
  }

  lemma {:induction false} CountTail(p: seq<int>, k: nat, t: int)
    requires k <= |p|
    ensures CountIn(p, t) <= CountIn(p[..k], t) + |p| - k
    decreases |p|
  {
    if k == |p| {
      assert p[..k] == p;
    } else {
      assert p[..|p| - 1][..k] == p[..k];
      CountTail(p[..|p| - 1], k, t);
    }
  }

  lemma {:induction false} SpacedWindow(p: seq<int>, now: int, t: int)
    requires Spaced(p, now)
    ensures CountIn(p, t) <= MAX_CODE_ATTEMPTS
  {
    if p != [] {
      var last := p[|p| - 1];
      if t <= last < t + ATTEMPT_WINDOW {
        if |p| > MAX_CODE_ATTEMPTS {
          var k := |p| - MAX_CODE_ATTEMPTS;
          assert p[k - 1] + ATTEMPT_WINDOW <= last;
          CountBefore(p[..k], t);
          CountTail(p, k, t);
        } else {
          assert p[..0] == [];
          CountTail(p, 0, t);
        }
      } else {
        SpacedWindow(p[..|p| - 1], now, t);
      }
    }
  }

  /** Over every run with a clock that does not run backwards, no 60-second window sees more than five passes. */
  lemma AtMostFivePerWindow(inputs: seq<Input>, id: Uuid, t: int)
    requires Admissible(inputs) && Timely(inputs)
    ensures Run(inputs).Some?
    ensures CountIn(PassTimes(Run(inputs).value.log, id), t) <= MAX_CODE_ATTEMPTS
  {
    AlwaysLimited(inputs);
    hide Run, Admissible, Timely, PassTimes;
    SpacedWindow(PassTimes(Run(inputs).value.log, id), Clock(inputs), t);
  }

  // ---------------------------------------------------------------- exactly when a frame passes

  /** How many of the times lie inside the last 60 seconds. */
  function CountInside(p: seq<int>, now: int): nat {
    if p == [] then 0 else CountInside(p[..|p| - 1], now) + if p[|p| - 1] + ATTEMPT_WINDOW > now then 1 else 0
  }

  lemma {:induction false} RecentInside(attempts: seq<int>, now: int)
    ensures forall i :: 0 <= i < |Recent(attempts, now)| ==> Recent(attempts, now)[i] + ATTEMPT_WINDOW > now
    decreases |attempts|
  {
    if attempts != [] { RecentInside(attempts[..|attempts| - 1], now); }
  }

  lemma {:induction false} CountSplit(p: seq<int>, k: nat, now: int)
    requires k <= |p| && (forall i :: 0 <= i < k ==> p[i] + ATTEMPT_WINDOW <= now)
    requires forall i :: k <= i < |p| ==> p[i] + ATTEMPT_WINDOW > now
    ensures CountInside(p, now) == |p| - k
    decreases |p|
  {
    if p != [] { CountSplit(p[..|p| - 1], if k < |p| then k else k - 1, now); }
  }

  /** What the limiter remembers is what the log says of the last 60 seconds. */
  lemma RememberedCount(attempts: seq<int>, p: seq<int>, now: int, now': int)
    requires Remembers(attempts, p, now) && Spaced(p, now) && now <= now'
    ensures |Recent(attempts, now')| == CountInside(p, now')
  {
    Trimming(attempts, p, now, now');
    RecentInside(attempts, now');
    var r := Recent(attempts, now');
    var k := |p| - |r|;
    assert forall i :: k <= i < |p| ==> p[i] == r[i - k];
    CountSplit(p, k, now');
  }

  /**
   Over every run with such a clock, a resolution frame of a connected client passes if and only if fewer than five
   of its frames passed in the last 60 seconds.
   */
  lemma PassesIff(inputs: seq<Input>, id: Uuid, requestId: Uuid, displayCode: string, now: int)
    requires Admissible(inputs) && Timely(inputs) && Run(inputs).Some? && Clock(inputs) <= now
    requires id in Run(inputs).value.connections
    ensures var s := Run(inputs).value;
            var s' := Resolve(s, id, requestId, displayCode, now);
            PassTimes(s'.log, id)
            == PassTimes(s.log, id) + if CountInside(PassTimes(s.log, id), now) < MAX_CODE_ATTEMPTS then [now] else []
  {
    hide Run, Admissible, Timely, Resolve, Recent, Spaced, Remembers, PassTimes;
    AlwaysLimited(inputs);
    var s := Run(inputs).value;
    var s' := Resolve(s, id, requestId, displayCode, now);
    ResolveShape(s, id, requestId, displayCode, now);
    RememberedCount(s.connections[id].attempts, PassTimes(s.log, id), Clock(inputs), now);
    hide CountInside, Limited;
    if |Recent(s.connections[id].attempts, now)| >= MAX_CODE_ATTEMPTS {
      NoPass(s.log, s'.log, id);
    } else {
      OnePass(s.log, s'.log, id, now, id);
    }
  }
}
