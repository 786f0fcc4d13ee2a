/** The scheduler worker and the engine actor: a watched plan one way, stamped timers the other way. */
module Scheduler {
  import opened Foundation

  const U64_MAX: nat := 0xFFFF_FFFF_FFFF_FFFF

  datatype Kind = RelayPoll | PeerProbeRound | RetryDue

  datatype Plan = Plan(generation: nat, relayPollAt: Option<int>, peerProbeAt: Option<int>, retryAt: Option<int>)

  // ---------------------------------------------------------------- plans

  function Earliest(a: Option<int>, b: Option<int>): Option<int> {
    match (a, b)
    case (Some(x), Some(y)) => if y < x then b else a
    case (Some(_), None) => a
    case (None, _) => b
  }

  function NextDeadline(plan: Plan): Option<int> {
    Earliest(Earliest(plan.relayPollAt, plan.peerProbeAt), plan.retryAt)
  }

  function DeadlineOf(plan: Plan, kind: Kind): Option<int> {
    match kind
    case RelayPoll => plan.relayPollAt
    case PeerProbeRound => plan.peerProbeAt
    case RetryDue => plan.retryAt
  }

  predicate Due(plan: Plan, kind: Kind, now: int) {
    DeadlineOf(plan, kind).Some? && DeadlineOf(plan, kind).value <= now
  }

  function DueKinds(plan: Plan, now: int): seq<Kind> {
    (if Due(plan, RelayPoll, now) then [RelayPoll] else []) +
    (if Due(plan, PeerProbeRound, now) then [PeerProbeRound] else []) +
    (if Due(plan, RetryDue, now) then [RetryDue] else [])
  }

  /** The next deadline is a lower bound that some kind attains. */
  lemma NextDeadlineIsMinimum(plan: Plan)
    ensures NextDeadline(plan).None? <==> forall k: Kind :: DeadlineOf(plan, k).None?
    ensures NextDeadline(plan).Some? ==>
              && (forall k: Kind :: DeadlineOf(plan, k).Some? ==> NextDeadline(plan).value <= DeadlineOf(plan, k).value)
              && (exists k: Kind :: DeadlineOf(plan, k) == NextDeadline(plan))
  {
    assert DeadlineOf(plan, RelayPoll) == plan.relayPollAt;
    assert DeadlineOf(plan, PeerProbeRound) == plan.peerProbeAt;
    assert DeadlineOf(plan, RetryDue) == plan.retryAt;
  }

  /** Waking at the next deadline always finds something to fire: each due kind once and nothing else. */
  lemma WakingFires(plan: Plan, now: int)
    ensures DueKinds(plan, now) != [] <==> NextDeadline(plan).Some? && NextDeadline(plan).value <= now
    ensures forall k: Kind :: k in DueKinds(plan, now) <==> Due(plan, k, now)
    ensures forall i, j :: 0 <= i < j < |DueKinds(plan, now)| ==> DueKinds(plan, now)[i] != DueKinds(plan, now)[j]
  {
    NextDeadlineIsMinimum(plan);
    forall k: Kind ensures k in DueKinds(plan, now) <==> Due(plan, k, now) {
      match k { case RelayPoll => case PeerProbeRound => case RetryDue => }
    }
    if NextDeadline(plan).Some? && NextDeadline(plan).value <= now {
      var k: Kind :| DeadlineOf(plan, k) == NextDeadline(plan);
      assert k in DueKinds(plan, now);
    }
  }

  // ---------------------------------------------------------------- the two tasks

  datatype Message = Timer(kind: Kind, generation: nat) | Other

  datatype Worker =
    | Reading
    | Sleeping(plan: Plan)
    | Firing(plan: Plan, todo: seq<Kind>)
    | Checking(generation: nat)
    | Blocked(generation: nat)
    | Done

  datatype Phase = Idle | Bumping | Stopped

  datatype Event = Fired(generation: nat) | Acted(kind: Kind, generation: nat) | Stale(kind: Kind, generation: nat)

  /**
   `published` and `version` are the watch channel, `seen` the version the worker has observed. `derived` counts
   the actor's queued follow-up inputs, none of which is a timer.
   */
  datatype State = State(
    worker: Worker, seen: nat,
    published: Plan, version: nat,
    inbox: seq<Message>,
    phase: Phase, generation: nat, derived: nat, relayPollAt: int, peerProbeAt: int,
    clock: int,
    log: seq<Event>)

  /** The first plan carries generation one. */
  function Initial(now: int, relayPollAt: int, peerProbeAt: int, retryAt: Option<int>): State {
    State(Reading, 0, Plan(1, Some(relayPollAt), Some(peerProbeAt), retryAt), 0, [], Idle, 1, 0,
          relayPollAt, peerProbeAt, now, [])
  }

  datatype Label =
    | Read                                           // worker: borrow the plan and mark it seen
    | PlanChanged                                    // worker: the watch fires before the deadline
    | Wake                                           // worker: the deadline passes
    | SendTimer                                      // worker: one due timer into the inbox
    | AllSent                                        // worker: go and wait for a new generation
    | Check                                          // worker: compare generations
    | Notified                                       // worker: the watch fires while waiting
    | Quit                                           // worker: shutdown or closed channel
    | Post                                           // anyone else: another input into the inbox
    | Take(planChanged: bool, derived: nat, next: int) // actor: process one input
    | Publish(retryAt: Option<int>)                  // actor: bump the generation and replace the plan
    | Stop                                           // actor: stop
    | Elapse(now: int)                               // time passes

  function Bump(generation: nat): nat { if generation < U64_MAX then generation + 1 else U64_MAX }

  predicate Enabled(s: State, l: Label) {
    match l
    case Read => s.worker.Reading?
    case PlanChanged => s.worker.Sleeping? && s.version != s.seen
    case Wake => s.worker.Sleeping? && NextDeadline(s.worker.plan).Some? && NextDeadline(s.worker.plan).value <= s.clock
    case SendTimer => s.worker.Firing? && s.worker.todo != []
    case AllSent => s.worker.Firing? && s.worker.todo == []
    case Check => s.worker.Checking?
    case Notified => s.worker.Blocked? && s.version != s.seen
    case Quit => s.phase.Stopped? && !s.worker.Done?
    case Post => true
    case Take(_, _, _) => s.phase.Idle? && (s.derived > 0 || s.inbox != [])
    case Publish(_) => s.phase.Bumping?
    case Stop => !s.phase.Stopped?
    case Elapse(now) => s.clock <= now
  }

  /** Acting on a timer moves that kind's deadline and always asks for a new plan. */
  function Act(s: State, kind: Kind, derived: nat, next: int): State {
    s.(phase := Bumping, derived := s.derived + derived, log := s.log + [Acted(kind, s.generation)],
       relayPollAt := if kind.RelayPoll? then next else s.relayPollAt,
       peerProbeAt := if kind.PeerProbeRound? then next else s.peerProbeAt)
  }

  function HandleOther(s: State, planChanged: bool, derived: nat): State {
    s.(phase := if planChanged then Bumping else Idle, derived := s.derived + derived)
  }

  function TakeInput(s: State, planChanged: bool, derived: nat, next: int): State
    requires s.derived > 0 || s.inbox != []
  {
    if s.derived > 0 then HandleOther(s.(derived := s.derived - 1), planChanged, derived)
    else
      var r := s.(inbox := s.inbox[1..]);
      match s.inbox[0]
      case Other => HandleOther(r, planChanged, derived)
      case Timer(kind, generation) =>
        if generation != s.generation then r.(log := s.log + [Stale(kind, generation)])
        else Act(r, kind, derived, next)
  }

  function Apply(s: State, l: Label): State
    requires Enabled(s, l)
  {
    match l
    case Read => s.(worker := Sleeping(s.published), seen := s.version)
    case PlanChanged => s.(worker := Reading, seen := s.version)
    case Wake =>
      s.(worker := Firing(s.worker.plan, DueKinds(s.worker.plan, s.clock)),
         log := s.log + [Fired(s.worker.plan.generation)])
    case SendTimer =>
      s.(worker := Firing(s.worker.plan, s.worker.todo[1..]),
         inbox := s.inbox + [Timer(s.worker.todo[0], s.worker.plan.generation)])
    case AllSent => s.(worker := Checking(s.worker.plan.generation))
    case Check =>
      s.(worker := if s.published.generation != s.worker.generation then Reading else Blocked(s.worker.generation))
    case Notified => s.(worker := Checking(s.worker.generation), seen := s.version)
    case Quit => s.(worker := Done)
    case Post => s.(inbox := s.inbox + [Other])
    case Take(planChanged, derived, next) => TakeInput(s, planChanged, derived, next)
    case Publish(retryAt) =>
      var generation := Bump(s.generation);
      s.(phase := Idle, generation := generation, version := s.version + 1,
         published := Plan(generation, Some(s.relayPollAt), Some(s.peerProbeAt), retryAt))
    case Stop => s.(phase := Stopped)
    case Elapse(now) => s.(clock := now)
  }

  predicate Possible(s: State, labels: seq<Label>)
    decreases |labels|
  {
    labels == [] || (Enabled(s, labels[0]) && Possible(Apply(s, labels[0]), labels[1..]))
  }

  function Run(s: State, labels: seq<Label>): State
    requires Possible(s, labels)
    decreases |labels|
  {
    if labels == [] then s else Run(Apply(s, labels[0]), labels[1..])
  }
}

/** Safety of the scheduler protocol in every interleaving. */
module SchedulerRuns {
  import opened Foundation
  import opened Scheduler

  function FiredCount(log: seq<Event>, g: nat): nat {
    if log == [] then 0 else FiredCount(log[..|log| - 1], g) + if log[|log| - 1] == Fired(g) then 1 else 0
  }

  function ActedCount(log: seq<Event>, g: nat): nat {
    if log == [] then 0
    else
      var e := log[|log| - 1];
      ActedCount(log[..|log| - 1], g) + if e.Acted? && e.generation == g then 1 else 0
  }

  /** The generation from which a kind was last acted on. */
  function LastActed(log: seq<Event>, kind: Kind): nat {
    if log == [] then 0
    else
      var e := log[|log| - 1];
      if e.Acted? && e.kind == kind then e.generation else LastActed(log[..|log| - 1], kind)
  }

  /** The generation whose timers the worker is about to send, is sending or has sent. */
  function FiredBy(w: Worker): Option<nat> {
    match w
    case Firing(plan, _) => Some(plan.generation)
    case Checking(g) => Some(g)
    case Blocked(g) => Some(g)
    case Reading => None
    case Sleeping(_) => None
    case Done => None
  }

  predicate Stamped(inbox: seq<Message>, g: nat) { exists m :: m in inbox && m.Timer? && m.generation == g }

  // ---------------------------------------------------------------- the invariant

  /** The actor and the watch agree; the generation counts publications until it saturates. */
  predicate Published(s: State) {
    && s.generation == s.published.generation <= U64_MAX
    && s.generation == (if s.version < U64_MAX then 1 + s.version else U64_MAX)
    && s.seen <= s.version
    && (s.phase.Idle?
        ==> s.published.relayPollAt == Some(s.relayPollAt) && s.published.peerProbeAt == Some(s.peerProbeAt))
  }

  /** A generation fires at most once, and never before it is published. */
  ghost predicate FiresOnce(s: State) {
    && (forall g: nat :: FiredCount(s.log, g) <= 1)
    && (forall g: nat :: FiredCount(s.log, g) > 0 ==> g <= s.generation)
    && (match s.worker
        case Reading => forall g: nat :: FiredCount(s.log, g) > 0 ==> g < s.generation
        case Sleeping(plan) => plan.generation <= s.generation &&
          forall g: nat :: FiredCount(s.log, g) > 0 ==> g < plan.generation
        case Firing(plan, _) => plan.generation <= s.generation &&
          forall g: nat :: FiredCount(s.log, g) > 0 ==> g <= plan.generation
        case Checking(g0) => g0 <= s.generation && forall g: nat :: FiredCount(s.log, g) > 0 ==> g <= g0
        case Blocked(g0) => g0 <= s.generation && forall g: nat :: FiredCount(s.log, g) > 0 ==> g <= g0
        case Done => true)
  }

  /** A generation is acted on at most once, and only the current one can still be acted on. */
  ghost predicate ActsOnce(s: State) {
    && (forall g: nat :: ActedCount(s.log, g) <= 1)
    && (forall g: nat :: g > s.generation ==> ActedCount(s.log, g) == 0)
    && (s.phase.Idle? ==> ActedCount(s.log, s.generation) == 0)
  }

  /** A worker that has fired the current generation has a timer of it in the inbox, unless a new plan is on its way. */
  predicate WakeUpPending(s: State) {
    && (s.phase.Idle? && FiredBy(s.worker) == Some(s.generation)
        ==> Stamped(s.inbox, s.generation) || (s.worker.Firing? && s.worker.todo != []))
    && (s.worker.Blocked? && s.seen == s.version ==> s.published.generation == s.worker.generation)
    && (s.worker.Sleeping? && s.seen == s.version ==> s.worker.plan == s.published)
  }

  /** When a periodic kind is next wanted, as the actor knows it. */
  function At(s: State, kind: Kind): int { if kind.RelayPoll? then s.relayPollAt else s.peerProbeAt }

  /** A plan is out of date about a periodic kind only if that kind was acted on since. */
  predicate Carries(s: State, plan: Plan, kind: Kind) {
    DeadlineOf(plan, kind) == Some(At(s, kind)) || LastActed(s.log, kind) >= plan.generation
  }

  /** A periodic timer is in flight because its deadline passed, or that kind was acted on since. */
  predicate Wanted(s: State, kind: Kind, generation: nat) {
    At(s, kind) <= s.clock || LastActed(s.log, kind) >= generation
  }

  /** Nothing carries a generation from the future. */
  predicate Dated(s: State) {
    && (forall m :: m in s.inbox && m.Timer? ==> m.generation <= s.generation)
    && (s.worker.Sleeping? || s.worker.Firing? ==> s.worker.plan.generation <= s.generation)
  }

  predicate PlansPeriodic(s: State, kind: Kind) {
    Carries(s, s.published, kind) && (s.worker.Sleeping? ==> Carries(s, s.worker.plan, kind))
  }

  predicate TimersPeriodic(s: State, kind: Kind) {
    && (s.worker.Firing? && kind in s.worker.todo ==> Wanted(s, kind, s.worker.plan.generation))
    && (forall m :: m in s.inbox && m.Timer? && m.kind == kind ==> Wanted(s, kind, m.generation))
  }

  predicate Periodic(s: State, kind: Kind) { PlansPeriodic(s, kind) && TimersPeriodic(s, kind) }

  ghost predicate Inv(s: State) {
    && Published(s) && FiresOnce(s) && ActsOnce(s) && WakeUpPending(s)
    && Dated(s) && Periodic(s, RelayPoll) && Periodic(s, PeerProbeRound)
  }

  // ---------------------------------------------------------------- counting

  lemma CountNext(log: seq<Event>, e: Event, g: nat)
    ensures FiredCount(log + [e], g) == FiredCount(log, g) + if e == Fired(g) then 1 else 0
    ensures ActedCount(log + [e], g) == ActedCount(log, g) + if e.Acted? && e.generation == g then 1 else 0
  {
    assert (log + [e])[..|log + [e]| - 1] == log;
  }

  lemma LastActedNext(log: seq<Event>, e: Event, kind: Kind)
    ensures LastActed(log + [e], kind) == if e.Acted? && e.kind == kind then e.generation else LastActed(log, kind)
  {
    assert (log + [e])[..|log + [e]| - 1] == log;
  }

  // ---------------------------------------------------------------- each clause survives each step

  /** A step that does not publish on a saturated generation. */
  predicate Fresh(s: State, l: Label) { Enabled(s, l) && (l.Publish? ==> s.version + 1 < U64_MAX) }

  lemma KeepsPublished(s: State, l: Label)
    requires Published(s) && Enabled(s, l)
    ensures Published(Apply(s, l))
  {
    hide DueKinds;
  }

  lemma KeepsFiresOnce(s: State, l: Label)
    requires Published(s) && FiresOnce(s) && Fresh(s, l)
    ensures FiresOnce(Apply(s, l))
  {
    hide FiredCount, DueKinds, NextDeadline;
    var s' := Apply(s, l);
    if s'.log != s.log {
      var e := s'.log[|s.log|];
      assert s'.log == s.log + [e];
      forall g: nat ensures FiredCount(s'.log, g) == FiredCount(s.log, g) + if e == Fired(g) then 1 else 0 {
        CountNext(s.log, e, g);
      }
    }
  }

  lemma KeepsActsOnce(s: State, l: Label)
    requires Published(s) && ActsOnce(s) && Fresh(s, l)
    ensures ActsOnce(Apply(s, l))
  {
    hide ActedCount, DueKinds, NextDeadline;
    var s' := Apply(s, l);
    if s'.log != s.log {
      var e := s'.log[|s.log|];
      assert s'.log == s.log + [e];
      forall g: nat
        ensures ActedCount(s'.log, g) == ActedCount(s.log, g) + if e.Acted? && e.generation == g then 1 else 0
      {
        CountNext(s.log, e, g);
      }
    }
  }

  lemma StillStamped(inbox: seq<Message>, g: nat)
    requires inbox != [] && Stamped(inbox, g) && !(inbox[0].Timer? && inbox[0].generation == g)
    ensures Stamped(inbox[1..], g)
  {
    var m :| m in inbox && m.Timer? && m.generation == g;
    assert inbox == [inbox[0]] + inbox[1..];
    assert m in inbox[1..];
  }

  lemma StampedGrows(inbox: seq<Message>, m: Message, g: nat)
    requires Stamped(inbox, g) || (m.Timer? && m.generation == g)
    ensures Stamped(inbox + [m], g)
  {
    assert m in inbox + [m];
    if Stamped(inbox, g) {
      var x :| x in inbox && x.Timer? && x.generation == g;
      assert x in inbox + [m];
    }
  }

  lemma KeepsWakeUpPending(s: State, l: Label)
    requires Published(s) && FiresOnce(s) && WakeUpPending(s) && Fresh(s, l)
    ensures WakeUpPending(Apply(s, l))
  {
    hide FiredCount, Stamped, DueKinds, NextDeadline;
    match l {
      case Wake => WakingFires(s.worker.plan, s.clock);
      case SendTimer =>
        StampedGrows(s.inbox, Timer(s.worker.todo[0], s.worker.plan.generation), s.worker.plan.generation);
      case Post => if Stamped(s.inbox, s.generation) { StampedGrows(s.inbox, Other, s.generation); }
      case Take(planChanged, derived, next) =>
        if s.derived == 0 && Stamped(s.inbox, s.generation)
           && !(s.inbox[0].Timer? && s.inbox[0].generation == s.generation) {
          StillStamped(s.inbox, s.generation);
        }
      case Read =>
      case PlanChanged =>
      case AllSent =>
      case Check =>
      case Notified =>
      case Quit =>
      case Publish(_) =>
      case Stop =>
      case Elapse(_) =>
    }
  }

  lemma KeepsDated(s: State, l: Label)
    requires Published(s) && Dated(s) && Enabled(s, l)
    ensures Dated(Apply(s, l))
  {
    hide DueKinds, NextDeadline;
  }

  /** A step's effect on when a kind was last acted on. */
  lemma LastActedAfter(s: State, l: Label, kind: Kind)
    requires Enabled(s, l) && !kind.RetryDue?
    ensures var s' := Apply(s, l);
            || (At(s', kind) == At(s, kind) && LastActed(s'.log, kind) == LastActed(s.log, kind))
            || LastActed(s'.log, kind) == s.generation
  {
    hide LastActed, NextDeadline, DueKinds;
    var s' := Apply(s, l);
    if s'.log != s.log {
      var e := s'.log[|s.log|];
      assert s'.log == s.log + [e];
      LastActedNext(s.log, e, kind);
    }
  }

  lemma KeepsPlansPeriodic(s: State, l: Label, kind: Kind)
    requires Published(s) && Dated(s) && PlansPeriodic(s, kind) && Enabled(s, l) && !kind.RetryDue?
    ensures PlansPeriodic(Apply(s, l), kind)
  {
    hide LastActed, NextDeadline, DueKinds;
    LastActedAfter(s, l, kind);
  }

  lemma KeepsTimersPeriodic(s: State, l: Label, kind: Kind)
    requires Dated(s) && Periodic(s, kind) && Enabled(s, l) && !kind.RetryDue?
    ensures TimersPeriodic(Apply(s, l), kind)
  {
    hide LastActed, NextDeadline, DueKinds;
    LastActedAfter(s, l, kind);
    if l.Wake? { WakingFires(s.worker.plan, s.clock); }
  }

  lemma Keeps(s: State, l: Label)
    requires Inv(s) && Fresh(s, l)
    ensures Inv(Apply(s, l))
  {
    KeepsPublished(s, l);
    KeepsFiresOnce(s, l);
    KeepsActsOnce(s, l);
    KeepsWakeUpPending(s, l);
    KeepsDated(s, l);
    KeepsPlansPeriodic(s, l, RelayPoll);
    KeepsPlansPeriodic(s, l, PeerProbeRound);
    KeepsTimersPeriodic(s, l, RelayPoll);
    KeepsTimersPeriodic(s, l, PeerProbeRound);
    hide Published, FiresOnce, ActsOnce, WakeUpPending, Dated, PlansPeriodic, TimersPeriodic, Apply;
  }

  lemma StartsSound(now: int, relayPollAt: int, peerProbeAt: int, retryAt: Option<int>)
    ensures Inv(Initial(now, relayPollAt, peerProbeAt, retryAt))
  {
  }

  /** Publications are counted. */
  lemma {:induction false} VersionsGrow(s: State, labels: seq<Label>)
    requires Possible(s, labels)
    ensures s.version <= Run(s, labels).version
    decreases |labels|
  {
    hide DueKinds, NextDeadline;
    if labels != [] { VersionsGrow(Apply(s, labels[0]), labels[1..]); }
  }

  lemma {:induction false} RunKeeps(s: State, labels: seq<Label>)
    requires Inv(s) && Possible(s, labels) && Run(s, labels).version < U64_MAX
    ensures Inv(Run(s, labels))
    decreases |labels|
  {
    if labels != [] {
      var s' := Apply(s, labels[0]);
      VersionsGrow(s', labels[1..]);
      assert labels[0].Publish? ==> s'.version == s.version + 1;
      hide Inv, Apply;
      Keeps(s, labels[0]);
      RunKeeps(s', labels[1..]);
    }
  }

  ghost predicate Reachable(s: State) {
    exists now, relayPollAt, peerProbeAt, retryAt, labels ::
      var start := Initial(now, relayPollAt, peerProbeAt, retryAt);
      Possible(start, labels) && Run(start, labels) == s
  }

  lemma ReachableSound(s: State)
    requires Reachable(s) && s.version < U64_MAX
    ensures Inv(s)
  {
    var now, relayPollAt, peerProbeAt, retryAt, labels :|
      var start := Initial(now, relayPollAt, peerProbeAt, retryAt);
      Possible(start, labels) && Run(start, labels) == s;
    StartsSound(now, relayPollAt, peerProbeAt, retryAt);
    RunKeeps(Initial(now, relayPollAt, peerProbeAt, retryAt), labels);
  }

  // ---------------------------------------------------------------- theorems

  /**
   No wake-up is lost: a worker that waits on the actor's generation has a timer of that generation in the inbox
   unless the actor is already about to publish, a worker whose generation is past is always notified, and a worker
   that sleeps and has nothing new to see sleeps on the current plan.
   */
  lemma NoLostWakeUp(s: State)
    requires Reachable(s) && s.version < U64_MAX && !s.phase.Stopped?
    ensures s.worker.Blocked? || s.worker.Checking? ==>
              && (s.worker.generation == s.generation ==> s.phase.Bumping? || Stamped(s.inbox, s.generation))
              && (s.worker.generation != s.generation ==> Enabled(s, Check) || Enabled(s, Notified))
    ensures s.worker.Sleeping? ==> s.worker.plan == s.published || Enabled(s, PlanChanged)
  {
    ReachableSound(s);
  }

  /** Every generation is fired at most once, and at most one of its timers is acted on. */
  lemma OncePerGeneration(s: State, g: nat)
    requires Reachable(s) && s.version < U64_MAX
    ensures FiredCount(s.log, g) <= 1 && ActedCount(s.log, g) <= 1
  {
    ReachableSound(s);
  }

  /** A timer of the current generation that reaches the actor is acted on and a new plan follows. */
  lemma CurrentTimerActs(s: State, planChanged: bool, derived: nat, next: int)
    requires Reachable(s) && s.version < U64_MAX
    requires s.phase.Idle? && s.derived == 0 && s.inbox != [] && s.inbox[0].Timer?
    requires s.inbox[0].generation == s.generation
    ensures var s' := TakeInput(s, planChanged, derived, next);
            s'.phase.Bumping? && ActedCount(s.log, s.generation) == 0 && ActedCount(s'.log, s.generation) == 1
  {
    ReachableSound(s);
    CountNext(s.log, Acted(s.inbox[0].kind, s.generation), s.generation);
  }

  /** The actor goes on to publish exactly after an input that changes the plan or a timer of its own generation. */
  lemma PublishesAfter(s: State, planChanged: bool, derived: nat, next: int)
    requires Enabled(s, Take(planChanged, derived, next))
    ensures var s' := Apply(s, Take(planChanged, derived, next));
            var timer := s.derived == 0 && s.inbox[0].Timer?;
            && ((forall retryAt :: Enabled(s', Publish(retryAt))) <==>
                if timer then s.inbox[0].generation == s.generation else planChanged)
            && (!s'.phase.Bumping? ==> s'.phase.Idle?)
            && s'.inbox == (if s.derived > 0 then s.inbox else s.inbox[1..])
  {
    var s' := Apply(s, Take(planChanged, derived, next));
    assert Enabled(s', Publish(None)) <==> s'.phase.Bumping?;
  }

  /** Dropping a stale periodic timer loses nothing: its kind was acted on since, or the current plan has it due. */
  lemma StaleLosesNothing(s: State)
    requires Reachable(s) && s.version < U64_MAX
    requires s.phase.Idle? && s.inbox != [] && s.inbox[0].Timer? && s.inbox[0].generation != s.generation
    requires !s.inbox[0].kind.RetryDue?
    ensures var kind := s.inbox[0].kind;
            LastActed(s.log, kind) >= s.inbox[0].generation || Due(s.published, kind, s.clock)
  {
    ReachableSound(s);
    var m := s.inbox[0];
    assert m in s.inbox;
    assert Periodic(s, m.kind);
  }

  // ---------------------------------------------------------------- what is published

  lemma {:induction false} RunThen(s: State, labels: seq<Label>, l: Label)
    requires Possible(s, labels) && Enabled(Run(s, labels), l)
    ensures Possible(s, labels + [l]) && Run(s, labels + [l]) == Apply(Run(s, labels), l)
    decreases |labels|
  {
    hide Apply, Enabled;
    if labels == [] {
      assert [l][1..] == [] && labels + [l] == [l];
      assert Possible(Apply(s, l), []);
    } else {
      assert (labels + [l])[1..] == labels[1..] + [l];
      RunThen(Apply(s, labels[0]), labels[1..], l);
    }
  }

  lemma {:induction false} LastLabel(s: State, labels: seq<Label>)
    requires Possible(s, labels) && labels != []
    ensures var before, l := labels[..|labels| - 1], labels[|labels| - 1];
            && Possible(s, before) && Enabled(Run(s, before), l) && Run(s, labels) == Apply(Run(s, before), l)
    decreases |labels|
  {
    hide Apply, Enabled;
    if |labels| == 1 {
      assert labels[..0] == [] && labels[1..] == [];
      assert Run(Apply(s, labels[0]), []) == Apply(s, labels[0]);
    } else {
      LastLabel(Apply(s, labels[0]), labels[1..]);
      assert labels[1..][..|labels[1..]| - 1] == labels[..|labels| - 1][1..];
    }
  }

  /** The actor is about to act on a timer of this kind. */
  predicate ActsOn(s: State, kind: Kind) {
    s.derived == 0 && s.inbox != [] && s.inbox[0] == Timer(kind, s.generation)
  }

  /** When a periodic kind is wanted next: as set when it was last acted on, or as at the start. */
  function WantedAt(start: State, labels: seq<Label>, kind: Kind): int
    requires Possible(start, labels)
  {
    if labels == [] then At(start, kind)
    else
      LastLabel(start, labels);
      var before, l := labels[..|labels| - 1], labels[|labels| - 1];
      if l.Take? && ActsOn(Run(start, before), kind) then l.next else WantedAt(start, before, kind)
  }

  /** The retry deadline of the last publication, or of the first plan. */
  function RetryWanted(retryAt: Option<int>, labels: seq<Label>): Option<int> {
    if labels == [] then retryAt
    else
      var l := labels[|labels| - 1];
      if l.Publish? then l.retryAt else RetryWanted(retryAt, labels[..|labels| - 1])
  }

  lemma {:induction false} DeadlinesFollow(start: State, labels: seq<Label>)
    requires Possible(start, labels) && Published(start)
    ensures var s := Run(start, labels);
            && Published(s) && s.published.retryAt == RetryWanted(start.published.retryAt, labels)
            && s.relayPollAt == WantedAt(start, labels, RelayPoll)
            && s.peerProbeAt == WantedAt(start, labels, PeerProbeRound)
  {
    if labels != [] {
      LastLabel(start, labels);
      var before, l := labels[..|labels| - 1], labels[|labels| - 1];
      DeadlinesFollow(start, before);
      hide Run, Possible, DueKinds, NextDeadline;
      KeepsPublished(Run(start, before), l);
      StepDeadlines(Run(start, before), l);
    }
  }

  lemma StepDeadlines(s: State, l: Label)
    requires Enabled(s, l)
    ensures var s' := Apply(s, l);
            && s'.published.retryAt == (if l.Publish? then l.retryAt else s.published.retryAt)
            && s'.relayPollAt == (if l.Take? && ActsOn(s, RelayPoll) then l.next else s.relayPollAt)
            && s'.peerProbeAt == (if l.Take? && ActsOn(s, PeerProbeRound) then l.next else s.peerProbeAt)
  {
    hide DueKinds, NextDeadline;
  }

  /**
   In every interleaving, saturated or not, the published plan carries the retry deadline it was last published with;
   and while the actor is idle it carries for each periodic kind the deadline set when that kind was last acted on.
   */
  lemma PlanIsUpToDate(now: int, relayPollAt: int, peerProbeAt: int, retryAt: Option<int>, labels: seq<Label>)
    requires Possible(Initial(now, relayPollAt, peerProbeAt, retryAt), labels)
    ensures var start := Initial(now, relayPollAt, peerProbeAt, retryAt);
            var s := Run(start, labels);
            && s.published.generation == s.generation && s.published.retryAt == RetryWanted(retryAt, labels)
            && (s.phase.Idle? ==>
                  && s.published.relayPollAt == Some(WantedAt(start, labels, RelayPoll))
                  && s.published.peerProbeAt == Some(WantedAt(start, labels, PeerProbeRound)))
  {
    DeadlinesFollow(Initial(now, relayPollAt, peerProbeAt, retryAt), labels);
    hide Run, Possible, WantedAt, RetryWanted;
  }

  /** A sleeping worker whose plan has a kind due can wake, and has that kind on its list. */
  lemma DueKindIsFired(s: State, kind: Kind)
    requires s.worker.Sleeping? && Due(s.worker.plan, kind, s.clock)
    ensures Enabled(s, Wake) && kind in Apply(s, Wake).worker.todo
  {
    WakingFires(s.worker.plan, s.clock);
    NextDeadlineIsMinimum(s.worker.plan);
    hide DueKinds, NextDeadline;
  }

  function Timers(todo: seq<Kind>, generation: nat): seq<Message> {
    seq(|todo|, i requires 0 <= i < |todo| => Timer(todo[i], generation))
  }

  function Sends(n: nat): seq<Label> { if n == 0 then [] else [SendTimer] + Sends(n - 1) }

  /** A firing worker can send its whole list, and then every kind on it is in the inbox with its generation. */
  lemma {:induction false} AllTimersAreSent(s: State)
    requires s.worker.Firing?
    ensures Possible(s, Sends(|s.worker.todo|))
    ensures var s' := Run(s, Sends(|s.worker.todo|));
            && s'.worker == Firing(s.worker.plan, [])
            && s'.inbox == s.inbox + Timers(s.worker.todo, s.worker.plan.generation)
    decreases |s.worker.todo|
  {
    hide DueKinds, NextDeadline;
    var todo, g := s.worker.todo, s.worker.plan.generation;
    if todo == [] {
      assert s.inbox + Timers(todo, g) == s.inbox;
    } else {
      var s' := Apply(s, SendTimer);
      AllTimersAreSent(s');
      assert Sends(|todo|)[0] == SendTimer && Sends(|todo|)[1..] == Sends(|todo[1..]|);
      assert Timers(todo, g) == [Timer(todo[0], g)] + Timers(todo[1..], g);
    }
  }

  /**
   No retry is forgotten: after every run a worker that sleeps on the published plan can wake from the time on that
   was last published for a retry, and then has the retry on its list.
   */
  lemma RetryIsFired(now: int, relayPollAt: int, peerProbeAt: int, retryAt: Option<int>, labels: seq<Label>)
    requires Possible(Initial(now, relayPollAt, peerProbeAt, retryAt), labels)
    requires var s := Run(Initial(now, relayPollAt, peerProbeAt, retryAt), labels);
             && s.worker == Sleeping(s.published)
             && RetryWanted(retryAt, labels).Some? && RetryWanted(retryAt, labels).value <= s.clock
    ensures var s := Run(Initial(now, relayPollAt, peerProbeAt, retryAt), labels);
            Enabled(s, Wake) && RetryDue in Apply(s, Wake).worker.todo
  {
    PlanIsUpToDate(now, relayPollAt, peerProbeAt, retryAt, labels);
    hide Possible, RetryWanted, DueKinds, NextDeadline;
    var s := Run(Initial(now, relayPollAt, peerProbeAt, retryAt), labels);
    hide Run;
    DueKindIsFired(s, RetryDue);
  }

  // ---------------------------------------------------------------- the bound is exact

  lemma ReachableStep(s: State, l: Label)
    requires Reachable(s) && Enabled(s, l)
    ensures Reachable(Apply(s, l))
  {
    var now, relayPollAt, peerProbeAt, retryAt, labels :|
      var start := Initial(now, relayPollAt, peerProbeAt, retryAt);
      Possible(start, labels) && Run(start, labels) == s;
    RunThen(Initial(now, relayPollAt, peerProbeAt, retryAt), labels, l);
  }

  /** After n plan changes, before the worker has looked at any of them. */
  function Unwatched(n: nat): State
    requires n < U64_MAX
  {
    Initial(0, 0, 1, None).(version := n, generation := 1 + n, published := Plan(1 + n, Some(0), Some(1), None))
  }

  lemma {:induction false} UnwatchedReachable(n: nat)
    requires n < U64_MAX
    ensures Reachable(Unwatched(n))
    decreases n
  {
    if n == 0 {
      var start := Initial(0, 0, 1, None);
      assert Possible(start, []) && Run(start, []) == Unwatched(0);
    } else {
      UnwatchedReachable(n - 1);
      hide Reachable;
      var s0 := Unwatched(n - 1);
      ReachableStep(s0, Post);
      var s1 := Apply(s0, Post);
      ReachableStep(s1, Take(true, 0, 0));
      var s2 := Apply(s1, Take(true, 0, 0));
      ReachableStep(s2, Publish(None));
      assert Apply(s2, Publish(None)) == Unwatched(n);
    }
  }

  /**
   The generation saturates instead of wrapping. One publication past that point the protocol loses a wake-up: the
   worker has seen everything, waits on the actor's own generation, and the inbox is empty.
   */
  lemma WakeUpLostAtSaturation() returns (s: State)
    ensures Reachable(s) && s.version == U64_MAX
    ensures s.phase.Idle? && s.worker == Blocked(s.generation) && s.seen == s.version && s.inbox == []
  {
    UnwatchedReachable(U64_MAX - 1);
    hide Reachable;
    s := Unwatched(U64_MAX - 1);
    ReachableStep(s, Read);
    s := Apply(s, Read);
    ReachableStep(s, Wake);
    s := Apply(s, Wake);
    assert s.worker.todo == [RelayPoll];
    ReachableStep(s, SendTimer);
    s := Apply(s, SendTimer);
    ReachableStep(s, AllSent);
    s := Apply(s, AllSent);
    assert s.inbox == [Timer(RelayPoll, U64_MAX)] && s.worker == Checking(U64_MAX);
    s := LosesIt(s);
  }

  lemma LosesIt(s: State) returns (s': State)
    requires Reachable(s) && s.version == U64_MAX - 1 && s.seen == s.version && s.generation == U64_MAX
    requires s.phase.Idle? && s.derived == 0
    requires s.inbox == [Timer(RelayPoll, U64_MAX)] && s.worker == Checking(U64_MAX)
    ensures Reachable(s') && s'.version == U64_MAX
    ensures s'.phase.Idle? && s'.worker == Blocked(s'.generation) && s'.seen == s'.version && s'.inbox == []
  {
    hide Reachable;
    var take := Take(false, 0, 1);
    ReachableStep(s, take);
    s' := Apply(s, take);
    ReachableStep(s', Publish(None));
    s' := Apply(s', Publish(None));
    assert s'.published.generation == U64_MAX;
    ReachableStep(s', Check);
    s' := Apply(s', Check);
    ReachableStep(s', Notified);
    s' := Apply(s', Notified);
    ReachableStep(s', Check);
    s' := Apply(s', Check);
  }
}
