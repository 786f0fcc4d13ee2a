/** The probe coordinator: leases, backoff and retained snapshots, over any interleaving of its operations. */
module Probes {
  import opened Foundation

  const U32_MAX: nat := 0xFFFF_FFFF
  const U64_MAX: nat := 0xFFFF_FFFF_FFFF_FFFF
  const MAX_EXPONENT := 4

  datatype Kind = Engine | OnionService | ContactPeer | ContactPresence | ContactFocus | PeerEndpoint | Capability

  datatype Key = Key(kind: Kind, target: Option<string>)

  datatype Status = Unknown | Checking | Online | Offline | Degraded | Stale

  datatype Probe = Probe(
    status: Status, lastCheckedAt: Option<int>, nextCheckAt: int, failures: nat, latency: Option<nat>,
    revision: nat, inFlightUntil: Option<int>)

  /** `published` is the snapshot subscribers see. */
  datatype Entry = Entry(state: Probe, published: Probe)

  type Entries = map<Key, Entry>

  function Next(revision: nat): nat { if revision < U64_MAX then revision + 1 else U64_MAX }

  function Publish(p: Probe): Entry { Entry(p, p) }

  function NewEntry(now: int): Entry { Publish(Probe(Unknown, None, now, 0, None, 0, None)) }

  function Ensure(es: Entries, key: Key, now: int): Entries { if key in es then es else es[key := NewEntry(now)] }

  function RequestNow(es: Entries, key: Key, now: int): Entries {
    var r := Ensure(es, key, now);
    r[key := Publish(r[key].state.(nextCheckAt := now, revision := Next(r[key].state.revision)))]
  }

  // ---------------------------------------------------------------- leases

  predicate Leased(p: Probe, now: int) { p.status.Checking? && p.inFlightUntil.Some? && p.inFlightUntil.value > now }

  predicate Claimable(p: Probe, now: int) { p.nextCheckAt <= now && !Leased(p, now) }

  function Claim(p: Probe, now: int, timeout: nat): Entry {
    Publish(p.(status := Checking, inFlightUntil := Some(now + timeout), revision := Next(p.revision)))
  }

  function DueKeys(es: Entries, now: int): set<Key> { set k | k in es && Claimable(es[k].state, now) }

  function BeginDue(es: Entries, now: int, timeout: nat): Entries {
    map k | k in es :: if Claimable(es[k].state, now) then Claim(es[k].state, now, timeout) else es[k]
  }

  // ---------------------------------------------------------------- results

  function Failures(f: nat, status: Status): nat {
    if status.Online? || status.Degraded? then 0
    else if status.Offline? then (if f < U32_MAX then f + 1 else U32_MAX)
    else f
  }

  function Pow2(n: nat): nat { if n == 0 then 1 else 2 * Pow2(n - 1) }

  function Min(a: nat, b: nat): nat { if a < b then a else b }

  function Delay(base: nat, failures: nat): nat { base * Pow2(Min(failures, MAX_EXPONENT)) }

  function Record(es: Entries, key: Key, now: int, status: Status, latency: Option<nat>, base: nat): Entries {
    if key !in es then es
    else
      var p := es[key].state;
      var f := Failures(p.failures, status);
      es[key := Publish(Probe(status, Some(now), now + Delay(base, f), f, latency, Next(p.revision), None))]
  }

  // ---------------------------------------------------------------- runs

  datatype Call =
    | EnsureProbe(key: Key, now: int)
    | RemoveProbe(key: Key)
    | RequestProbe(key: Key, now: int)
    | BeginProbes(now: int, timeout: nat)
    | RecordResult(key: Key, now: int, status: Status, latency: Option<nat>, base: nat)

  function Step(es: Entries, call: Call): Entries {
    match call
    case EnsureProbe(key, now) => Ensure(es, key, now)
    case RemoveProbe(key) => es - {key}
    case RequestProbe(key, now) => RequestNow(es, key, now)
    case BeginProbes(now, timeout) => BeginDue(es, now, timeout)
    case RecordResult(key, now, status, latency, base) => Record(es, key, now, status, latency, base)
  }

  function Run(calls: seq<Call>): Entries {
    if calls == [] then map[] else Step(Run(calls[..|calls| - 1]), calls[|calls| - 1])
  }

  // ---------------------------------------------------------------- the retained snapshot

  predicate Retained(es: Entries) { forall k :: k in es ==> es[k].published == es[k].state }

  /** What a subscriber sees is always the current state. */
  lemma {:induction false} SnapshotIsState(calls: seq<Call>)
    ensures Retained(Run(calls))
  {
    if calls != [] {
      SnapshotIsState(calls[..|calls| - 1]);
      hide Delay, Failures;
    }
  }

  // ---------------------------------------------------------------- lease separation

  /** The key is handed out by the i-th call. */
  predicate HandedOut(calls: seq<Call>, i: nat, key: Key)
    requires i < |calls|
  {
    calls[i].BeginProbes? && key in DueKeys(Run(calls[..i]), calls[i].now)
  }

  /** A call that ends a key's lease. */
  predicate Ends(call: Call, key: Key) {
    (call.RecordResult? && call.key == key) || (call.RemoveProbe? && call.key == key)
  }

  predicate HeldAtLeastUntil(es: Entries, key: Key, t: int) {
    && key in es && es[key].state.status.Checking?
    && es[key].state.inFlightUntil.Some? && es[key].state.inFlightUntil.value >= t
  }

  lemma LeaseSurvives(es: Entries, call: Call, key: Key, t: int)
    requires HeldAtLeastUntil(es, key, t) && !Ends(call, key)
    ensures HeldAtLeastUntil(Step(es, call), key, t)
  {
    hide Delay, Failures;
  }

  lemma {:induction false} LeaseHolds(calls: seq<Call>, i: nat, key: Key)
    requires i < |calls| && HandedOut(calls, i, key)
    requires forall k :: i < k < |calls| ==> !Ends(calls[k], key)
    ensures HeldAtLeastUntil(Run(calls), key, calls[i].now + calls[i].timeout)
    decreases |calls|
  {
    var before, last := calls[..|calls| - 1], calls[|calls| - 1];
    if i < |calls| - 1 {
      assert before[..i] == calls[..i] && before[i] == calls[i];
      LeaseHolds(before, i, key);
      LeaseSurvives(Run(before), last, key, calls[i].now + calls[i].timeout);
    }
  }

  /**
   Two hand-outs of one key with no result and no removal between them lie at least the first lease's timeout
   apart, whatever else happens between them.
   */
  lemma LeasesAreSeparated(calls: seq<Call>, i: nat, j: nat, key: Key)
    requires i < j < |calls| && HandedOut(calls, i, key) && HandedOut(calls, j, key)
    requires forall k :: i < k < j ==> !Ends(calls[k], key)
    ensures calls[j].now >= calls[i].now + calls[i].timeout
  {
    assert calls[..j][..i] == calls[..i];
    LeaseHolds(calls[..j], i, key);
    hide Run;
  }

  /** When the last lease given to the key since call i runs out. */
  function LeaseEnd(calls: seq<Call>, i: nat, key: Key): int
    requires i < |calls| && calls[i].BeginProbes?
    decreases |calls|
  {
    var n := |calls| - 1;
    if n == i || HandedOut(calls, n, key) then CallTime(calls[n]) else LeaseEnd(calls[..n], i, key)
  }

  function CallTime(call: Call): int { if call.BeginProbes? then call.now + call.timeout else 0 }

  /** When the key was last requested since call i. */
  function LastRequest(calls: seq<Call>, i: nat, key: Key): Option<int>
    decreases |calls|
  {
    if |calls| <= i + 1 then None
    else
      var call := calls[|calls| - 1];
      if call.RequestProbe? && call.key == key then Some(call.now) else LastRequest(calls[..|calls| - 1], i, key)
  }

  /** How a key under lease stands: when its lease ends and from when on it is due. */
  predicate Stands(es: Entries, key: Key, end: int, request: Option<int>, handed: int) {
    && key in es && es[key].state.status.Checking? && es[key].state.inFlightUntil == Some(end)
    && (if request.Some? then es[key].state.nextCheckAt == request.value else es[key].state.nextCheckAt <= handed)
  }

  lemma StandsStep(es: Entries, call: Call, key: Key, end: int, request: Option<int>, handed: int)
    requires Stands(es, key, end, request, handed) && !Ends(call, key)
    ensures var claimed := call.BeginProbes? && key in DueKeys(es, call.now);
            Stands(Step(es, call), key, if claimed then CallTime(call) else end,
                   if call.RequestProbe? && call.key == key then Some(call.now) else request, handed)
  {
    hide Delay, Failures;
  }

  lemma {:induction false} LeaseStands(calls: seq<Call>, i: nat, key: Key)
    requires i < |calls| && HandedOut(calls, i, key)
    requires forall k :: i < k < |calls| ==> !Ends(calls[k], key)
    ensures Stands(Run(calls), key, LeaseEnd(calls, i, key), LastRequest(calls, i, key), calls[i].now)
    decreases |calls|
  {
    var n := |calls| - 1;
    if i < n {
      assert calls[..n][..i] == calls[..i] && calls[..n][i] == calls[i];
      LeaseStands(calls[..n], i, key);
      hide Step, Stands, DueKeys;
      StandsStep(Run(calls[..n]), calls[n], key, LeaseEnd(calls[..n], i, key), LastRequest(calls[..n], i, key),
                 calls[i].now);
    }
  }

  /**
   A key that was handed out and neither reported on nor removed since is handed out again at a call if and only if
   the call comes at or after the end of its last lease and at or after its last request, whatever else lies between.
   */
  lemma HandedOutAgainIff(calls: seq<Call>, i: nat, j: nat, key: Key)
    requires i < j < |calls| && calls[j].BeginProbes? && HandedOut(calls, i, key)
    requires forall k :: i < k < j ==> !Ends(calls[k], key)
    ensures var request := LastRequest(calls[..j], i, key);
            HandedOut(calls, j, key) <==>
            calls[j].now >= LeaseEnd(calls[..j], i, key) && (request.Some? ==> calls[j].now >= request.value)
  {
    var before := calls[..j];
    assert before[..i] == calls[..i] && before[i] == calls[i];
    LeaseStands(before, i, key);
    LeaseHolds(before, i, key);
    hide Run, LeaseEnd, LastRequest;
  }

  // ---------------------------------------------------------------- backoff

  /** Offline results since the probe was created or last found Online or Degraded; nothing if there is no probe. */
  function OfflineStreak(calls: seq<Call>, key: Key): Option<nat> {
    if calls == [] then None
    else
      var streak := OfflineStreak(calls[..|calls| - 1], key);
      match calls[|calls| - 1]
      case EnsureProbe(k, _) => if k == key && streak.None? then Some(0) else streak
      case RequestProbe(k, _) => if k == key && streak.None? then Some(0) else streak
      case RemoveProbe(k) => if k == key then None else streak
      case BeginProbes(_, _) => streak
      case RecordResult(k, _, status, _, _) =>
        if k != key || streak.None? then streak
        else if status.Online? || status.Degraded? then Some(0)
        else if status.Offline? then Some(streak.value + 1)
        else streak
  }

  /** The failure counter is the streak, up to the width of the counter. */
  lemma {:induction false} FailuresCountTheStreak(calls: seq<Call>, key: Key)
    ensures key in Run(calls) <==> OfflineStreak(calls, key).Some?
    ensures key in Run(calls) ==> Run(calls)[key].state.failures == Min(OfflineStreak(calls, key).value, U32_MAX)
  {
    if calls != [] {
      FailuresCountTheStreak(calls[..|calls| - 1], key);
      hide Delay;
    }
  }

  /** A recorded result schedules the next check after base times two to the power of the streak, at most four. */
  lemma BackoffIsExponential(calls: seq<Call>, key: Key, now: int, status: Status, latency: Option<nat>, base: nat)
    requires key in Run(calls)
    ensures var more := calls + [RecordResult(key, now, status, latency, base)];
            && key in Run(more) && OfflineStreak(more, key).Some?
            && Run(more)[key].state.nextCheckAt == now + base * Pow2(Min(OfflineStreak(more, key).value, MAX_EXPONENT))
            && Run(more)[key].state.inFlightUntil == None
  {
    var more := calls + [RecordResult(key, now, status, latency, base)];
    assert more[..|more| - 1] == calls;
    FailuresCountTheStreak(more, key);
    hide Pow2;
  }

  // ---------------------------------------------------------------- a probe is its history

  /** The last result recorded for the key since it exists. */
  function LastResult(calls: seq<Call>, key: Key): Option<Call> {
    if calls == [] then None
    else
      var before, call := calls[..|calls| - 1], calls[|calls| - 1];
      if call == RemoveProbe(key) then None
      else if call.RecordResult? && call.key == key && OfflineStreak(before, key).Some? then Some(call)
      else LastResult(before, key)
  }

  /** When the lease runs out under which the key is being checked, if it was handed out since its last result. */
  function Lease(calls: seq<Call>, key: Key): Option<int> {
    if calls == [] then None
    else
      var n := |calls| - 1;
      if Ends(calls[n], key) then None
      else if HandedOut(calls, n, key) then Some(CallTime(calls[n]))
      else Lease(calls[..n], key)
  }

  /** From when on the key is due: since its creation, its last request, or its last result and the delay after it. */
  function DueFrom(calls: seq<Call>, key: Key): int {
    if calls == [] then 0
    else
      var before := calls[..|calls| - 1];
      match calls[|calls| - 1]
      case EnsureProbe(k, now) => if k == key && OfflineStreak(before, key).None? then now else DueFrom(before, key)
      case RequestProbe(k, now) => if k == key then now else DueFrom(before, key)
      case RecordResult(k, now, _, _, base) =>
        if k == key && OfflineStreak(calls, key).Some?
        then now + base * Pow2(Min(OfflineStreak(calls, key).value, MAX_EXPONENT)) else DueFrom(before, key)
      case RemoveProbe(_) => DueFrom(before, key)
      case BeginProbes(_, _) => DueFrom(before, key)
  }

  /** How often the probe was requested, handed out or reported on since it exists. */
  function Touches(calls: seq<Call>, key: Key): nat {
    if calls == [] then 0
    else
      var n := |calls| - 1;
      if calls[n] == RemoveProbe(key) then 0
      else Touches(calls[..n], key) + if Touched(calls, n, key) then 1 else 0
  }

  predicate Touched(calls: seq<Call>, n: nat, key: Key)
    requires n < |calls|
  {
    || HandedOut(calls, n, key)
    || (calls[n].RequestProbe? && calls[n].key == key)
    || (calls[n].RecordResult? && calls[n].key == key && OfflineStreak(calls[..n], key).Some?)
  }

  /** The state of a probe, read off the calls. */
  predicate IsHistory(p: Probe, calls: seq<Call>, key: Key) {
    var result, lease := LastResult(calls, key), Lease(calls, key);
    && p.status == (if lease.Some? then Checking
                    else if result.Some? && result.value.RecordResult? then result.value.status
                    else Unknown)
    && p.lastCheckedAt == (if result.Some? && result.value.RecordResult? then Some(result.value.now) else None)
    && p.latency == (if result.Some? && result.value.RecordResult? then result.value.latency else None)
    && p.inFlightUntil == lease && p.nextCheckAt == DueFrom(calls, key)
    && p.revision == Min(Touches(calls, key), U64_MAX)
  }

  /**
   After every run a probe is its history. While it is not handed out its status is that of its last result, and
   always its latency and check time are; it is due from the time its creation, last request or last result set; its
   lease is that of its last hand-out since; and its revision counts what happened to it.
   */
  lemma {:induction false} ProbeIsItsHistory(calls: seq<Call>, key: Key)
    requires key in Run(calls)
    ensures IsHistory(Run(calls)[key].state, calls, key)
  {
    if calls != [] {
      var before := calls[..|calls| - 1];
      FailuresCountTheStreak(calls, key);
      FailuresCountTheStreak(before, key);
      if key in Run(before) { ProbeIsItsHistory(before, key); } else { NoHistory(before, key); }
      assert calls[..|calls| - 1] == before;
      hide Pow2, OfflineStreak;
    }
  }

  /** A call hands a key out if and only if it is due by its history and not under a lease that still runs. */
  lemma HandedOutIff(calls: seq<Call>, j: nat, key: Key)
    requires j < |calls| && calls[j].BeginProbes? && OfflineStreak(calls[..j], key).Some?
    ensures HandedOut(calls, j, key) <==>
            && calls[j].now >= DueFrom(calls[..j], key)
            && (Lease(calls[..j], key).Some? ==> calls[j].now >= Lease(calls[..j], key).value)
  {
    FailuresCountTheStreak(calls[..j], key);
    ProbeIsItsHistory(calls[..j], key);
    hide Run, OfflineStreak, Lease, DueFrom, LastResult, Touches;
  }

  /** Without a probe there is nothing to read off. */
  lemma {:induction false} NoHistory(calls: seq<Call>, key: Key)
    requires key !in Run(calls)
    ensures LastResult(calls, key).None? && Lease(calls, key).None? && Touches(calls, key) == 0
  {
    if calls != [] {
      var before, call := calls[..|calls| - 1], calls[|calls| - 1];
      FailuresCountTheStreak(before, key);
      if key !in Run(before) { NoHistory(before, key); }
      hide OfflineStreak, Delay, Failures;
    }
  }

  // ---------------------------------------------------------------- the coordinator in place

  class ProbeCoordinator {
    var entries: Entries

    constructor ()
      ensures entries == map[]
    {
      entries := map[];
    }

    method EnsureEntry(key: Key, now: int)
      modifies this`entries
      ensures entries == Step(old(entries), EnsureProbe(key, now))
    {
      if key !in entries { entries := entries[key := NewEntry(now)]; }
    }

    method Remove(key: Key)
      modifies this`entries
      ensures entries == Step(old(entries), RemoveProbe(key))
    {
      entries := entries - {key};
    }

    /** The snapshot subscribers see becomes the state. */
    method PublishEntry(key: Key)
      requires key in entries
      modifies this`entries
      ensures entries == old(entries)[key := Publish(old(entries)[key].state)]
    {
      entries := entries[key := entries[key].(published := entries[key].state)];
    }

    method SetState(key: Key, p: Probe)
      requires key in entries
      modifies this`entries
      ensures entries == old(entries)[key := old(entries)[key].(state := p)]
    {
      entries := entries[key := entries[key].(state := p)];
    }

    method Request(key: Key, now: int)
      modifies this`entries
      ensures entries == Step(old(entries), RequestProbe(key, now))
    {
      EnsureEntry(key, now);
      var p := entries[key].state;
      p := p.(nextCheckAt := now);
      p := p.(revision := if p.revision < U64_MAX then p.revision + 1 else U64_MAX);
      SetState(key, p);
      PublishEntry(key);
    }

    /** Claims one entry if it is due and not under lease. */
    method ClaimIfDue(key: Key, now: int, timeout: nat) returns (claimed: bool)
      requires key in entries
      modifies this`entries
      ensures claimed == Claimable(old(entries)[key].state, now)
      ensures entries
              == if claimed then old(entries)[key := Claim(old(entries)[key].state, now, timeout)] else old(entries)
    {
      var p := entries[key].state;
      var active := p.status == Checking && p.inFlightUntil.Some? && p.inFlightUntil.value > now;
      if p.nextCheckAt > now || active { return false; }
      p := p.(status := Checking, inFlightUntil := Some(now + timeout));
      p := p.(revision := if p.revision < U64_MAX then p.revision + 1 else U64_MAX);
      SetState(key, p);
      PublishEntry(key);
      return true;
    }

    /** Visits the entries in no particular order and claims those that are due, each once. */
    method BeginDueWithTimeout(now: int, timeout: nat) returns (claimed: seq<Key>)
      modifies this`entries
      ensures entries == Step(old(entries), BeginProbes(now, timeout))
      ensures forall k :: k in claimed <==> k in DueKeys(old(entries), now)
      ensures forall i, j :: 0 <= i < j < |claimed| ==> claimed[i] != claimed[j]
    {
      claimed := [];
      var todo := entries.Keys;
      ghost var es := entries;
      hide Claim, Claimable;
      while todo != {}
        invariant todo <= es.Keys == entries.Keys
        invariant forall k :: k in es ==> entries[k] == if k in todo then es[k] else BeginDue(es, now, timeout)[k]
        invariant forall k :: k in claimed <==> k in es && k !in todo && Claimable(es[k].state, now)
        invariant forall i, j :: 0 <= i < j < |claimed| ==> claimed[i] != claimed[j]
        decreases |todo|
      {
        var key :| key in todo;
        var taken := ClaimIfDue(key, now, timeout);
        if taken { claimed := claimed + [key]; }
        todo := todo - {key};
      }
      assert entries == BeginDue(es, now, timeout);
    }

    method RecordOutcome(key: Key, now: int, status: Status, latency: Option<nat>, base: nat)
      modifies this`entries
      ensures entries == Step(old(entries), RecordResult(key, now, status, latency, base))
    {
      if key !in entries { return; }
      var p := entries[key].state;
      p := p.(status := status, lastCheckedAt := Some(now), latency := latency, inFlightUntil := None);
      if status.Online? || status.Degraded? {
        p := p.(failures := 0);
      } else if status.Offline? {
        p := p.(failures := if p.failures < U32_MAX then p.failures + 1 else U32_MAX);
      }
      var exponent := if p.failures < MAX_EXPONENT then p.failures else MAX_EXPONENT;
      p := p.(nextCheckAt := now + base * Pow2(exponent));
      p := p.(revision := if p.revision < U64_MAX then p.revision + 1 else U64_MAX);
      SetState(key, p);
      PublishEntry(key);
    }
  }
}
