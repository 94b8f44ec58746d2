/**
 Dispatching alerts (internal/controller/monitorpod_controller.go:619-774) and the whole-status write of
 the reconciler (lines 167-175), over an API server that stores every version of a MonitorPod's status
 and refuses a write made from any version but the latest.

 A System is one MonitorPod with any number of dispatches and reconciles in flight; a sequence of actions
 is an interleaving of all their steps. Reads may be stale: they return any version. The senders, the
 rate limiter's other users and the clock are nondeterministic.
 */
module Dispatch {
  import opened Wrappers
  import opened Counting
  import opened RateLimiter
  import opened FanOut
  import opened Runs

  /**
   The part of a MonitorPod's spec that dispatching depends on. `limit` applies only if positive; `period`
   is the one in effect.
   */
  datatype Spec = Spec(namespace: string, name: string, limit: int, period: int, recordAlerts: bool)

  /** `rest` stands for the fields that only the reconciler writes. */
  datatype Status = Status(sentCount: int, lastTriggered: Option<int>, rest: nat)

  datatype Outcome = Suppressed | NoTarget | Undelivered | Counted | Uncounted

  datatype Phase =
    | Gate
    | Resolving
    | Notifying(fan: Fan)
    | Recording
    | Reading(attempt: nat)
    | Stamping(attempt: nat, seen: nat)
    | Writing(attempt: nat, seen: nat, now: int)
    | Finished(outcome: Outcome)

  /** `delivered` is the channel's final length; the rest counts record attempts and update loops begun. */
  datatype Dispatcher = Dispatcher(rule: string, phase: Phase, delivered: nat, records: nat, updates: nat)

  datatype System = System(
    clock: int,
    calls: seq<Call>,              // all calls of the shared limiter
    history: seq<Status>,          // every version of the stored status
    dispatchers: seq<Dispatcher>,
    reconciles: seq<Option<nat>>   // the version read by a reconcile that has not written yet
  )

  /** retry.DefaultRetry makes this many attempts. */
  const ATTEMPTS := 5

  datatype Action =
    | Wait(dt: nat)
    | ForeignCall(key: string, limit: int, period: int, delay: nat)
    | Begin(rule: string)
    | PassGate(i: nat, delay: nat)
    | Resolve(i: nat, targets: nat)          // no targets, or an error, is zero
    | FanMove(i: nat, step: FanAction)
    | Conclude(i: nat)
    | Record(i: nat)
    | ReadStatus(i: nat, seen: nat, ok: bool)
    | Stamp(i: nat)
    | WriteStatus(i: nat, ok: bool)          // !ok: refused for a reason other than a conflict
    | ReconcileRead(seen: nat)
    | ReconcileWrite(j: nat, rest: nat)
    | EditSpec                               // a new version with the same status

  function KeyPrefix(spec: Spec): string { spec.namespace + "/" + spec.name + "/" }

  /** A key of this MonitorPod's. */
  predicate OwnKey(spec: Spec, key: string) { KeyPrefix(spec) <= key }

  function KeyOf(spec: Spec, rule: string): string { RateKey(spec.namespace, spec.name, rule) }

  function Latest(s: System): nat
    requires s.history != []
  {
    |s.history| - 1
  }

  function With(s: System, i: nat, d: Dispatcher): System
    requires i < |s.dispatchers|
  {
    s.(dispatchers := s.dispatchers[i := d])
  }

  /** The limiter is asked. */
  function Gated(spec: Spec, s: System, i: nat, delay: nat): System
    requires i < |s.dispatchers|
  {
    var d := s.dispatchers[i];
    var c := Call(KeyOf(spec, d.rule), spec.limit, spec.period, s.clock, s.clock + delay);
    var allowed := Permits(Lookup(Replay(s.calls), c.key), c);
    With(s, i, d.(phase := if allowed then Resolving else Finished(Suppressed)))
      .(calls := s.calls + [c], clock := s.clock + delay)
  }

  /** A Get that fails ends the update loop. */
  function AfterRead(attempt: nat, seen: nat, ok: bool): Phase {
    if ok then Stamping(attempt, seen) else Finished(Uncounted)
  }

  /** A conflict asks for another attempt while there is one left; another error ends the loop. */
  function AfterRefusal(attempt: nat, ok: bool): Phase {
    if ok && attempt < ATTEMPTS then Reading(attempt + 1) else Finished(Uncounted)
  }

  /** An update that no other write came before: the alert is counted. */
  function Incremented(s: System, i: nat, now: int): System
    requires i < |s.dispatchers| && s.history != []
  {
    var read := s.history[Latest(s)];
    With(s, i, s.dispatchers[i].(phase := Finished(Counted)))
      .(history := s.history + [read.(sentCount := read.sentCount + 1, lastTriggered := Some(now))])
  }

  /** One step of the i-th dispatch, given that its phase fits the action. */
  function DispatchStep(spec: Spec, s: System, i: nat, a: Action): System
    requires i < |s.dispatchers| && s.history != []
  {
    var d := s.dispatchers[i];
    match (d.phase, a)
    case (Gate, PassGate(_, delay)) => if spec.limit > 0 then Gated(spec, s, i, delay) else With(s, i, d.(phase := Resolving))
    case (Resolving, Resolve(_, targets)) =>
      With(s, i, d.(phase := if targets == 0 then Finished(NoTarget) else Notifying(Initial(targets))))
    case (Notifying(fan), FanMove(_, step)) =>
      With(s, i, d.(phase := Notifying(FanStep(fan, step))))
    case (Notifying(fan), Conclude(_)) =>
      if !fan.closed then s
      else With(s, i, d.(phase := if fan.sent > 0 then Recording else Finished(Undelivered), delivered := fan.sent))
    case (Recording, Record(_)) =>
      With(s, i, d.(phase := Reading(1), updates := d.updates + 1,
                    records := if spec.recordAlerts then d.records + 1 else d.records))
    case (Reading(attempt), ReadStatus(_, seen, ok)) =>
      if ok && seen >= |s.history| then s else With(s, i, d.(phase := AfterRead(attempt, seen, ok)))
    case (Stamping(attempt, seen), Stamp(_)) =>
      With(s, i, d.(phase := Writing(attempt, seen, s.clock)))
    case (Writing(attempt, seen, now), WriteStatus(_, ok)) =>
      if ok && seen == Latest(s) then Incremented(s, i, now)
      else With(s, i, d.(phase := AfterRefusal(attempt, ok)))
    case _ => s
  }

  function Step(spec: Spec, s: System, a: Action): (r: System)
    ensures s.history != [] ==> r.history != []
  {
    if s.history == [] then s else
    match a
    case Wait(dt) => s.(clock := s.clock + dt)
    case ForeignCall(key, limit, period, delay) =>
      if OwnKey(spec, key) then s
      else s.(calls := s.calls + [Call(key, limit, period, s.clock, s.clock + delay)], clock := s.clock + delay)
    case Begin(rule) => s.(dispatchers := s.dispatchers + [Dispatcher(rule, Gate, 0, 0, 0)])
    case ReconcileRead(seen) =>
      if seen < |s.history| then s.(reconciles := s.reconciles + [Some(seen)]) else s
    case ReconcileWrite(j, rest) =>
      if j >= |s.reconciles| || s.reconciles[j].None? then s
      else
        var seen, done := s.reconciles[j].value, s.(reconciles := s.reconciles[j := None]);
        if seen != Latest(s) || s.history[seen].rest == rest then done
        else done.(history := s.history + [s.history[seen].(rest := rest)])
    case EditSpec => s.(history := s.history + [s.history[Latest(s)]])
    case _ => if a.i < |s.dispatchers| then DispatchStep(spec, s, a.i, a) else s
  }

  function StepOf(spec: Spec): (System, Action) -> System {
    (s: System, a: Action) => Step(spec, s, a)
  }

  function Exec(spec: Spec, s: System, actions: seq<Action>): (r: System)
    requires s.history != []
    ensures r.history != []
  {
    StatusStays(spec, s, actions);
    Run(StepOf(spec), s, actions)
  }

  lemma {:induction false} StatusStays(spec: Spec, s: System, actions: seq<Action>)
    requires s.history != []
    ensures Run(StepOf(spec), s, actions).history != []
  {
    if actions != [] {
      StatusStays(spec, s, actions[..|actions| - 1]);
    }
  }

  /** At process start nothing is in flight and the limiter is new. */
  function Start(now: int, stored: Status): System {
    System(now, [], [stored], [], [])
  }

  // ----- the invariant -----

  predicate Earlier(a: Option<int>, b: Option<int>) {
    a.Some? ==> b.Some? && a.value <= b.value
  }

  predicate IsCounted(d: Dispatcher) { d.phase == Finished(Counted) }

  predicate IsUncounted(d: Dispatcher) { d.phase == Finished(Uncounted) }

  predicate HasDelivered(d: Dispatcher) { d.delivered > 0 }

  predicate Passed(d: Dispatcher) { d.phase != Gate && d.phase != Finished(Suppressed) }

  function PassedFor(rule: string): Dispatcher -> bool {
    (d: Dispatcher) => d.rule == rule && Passed(d)
  }

  function CountedFor(rule: string): Dispatcher -> bool {
    (d: Dispatcher) => d.rule == rule && IsCounted(d)
  }

  /** The record attempt and the update loop were begun once each, for an alert that got through. */
  predicate Followed(spec: Spec, d: Dispatcher) {
    d.delivered > 0 && d.updates == 1 && d.records == if spec.recordAlerts then 1 else 0
  }

  predicate NothingFollowed(d: Dispatcher) {
    d.delivered == 0 && d.updates == 0 && d.records == 0
  }

  ghost predicate DispatcherOk(spec: Spec, clock: int, history: seq<Status>, d: Dispatcher) {
    match d.phase
    case Gate => NothingFollowed(d)
    case Resolving => NothingFollowed(d)
    case Notifying(fan) => FanInv(fan) && |fan.senders| > 0 && NothingFollowed(d)
    case Recording => d.delivered > 0 && d.updates == 0 && d.records == 0
    case Reading(attempt) => 1 <= attempt <= ATTEMPTS && Followed(spec, d)
    case Stamping(attempt, seen) => 1 <= attempt <= ATTEMPTS && seen < |history| && Followed(spec, d)
    case Writing(attempt, seen, now) =>
      && 1 <= attempt <= ATTEMPTS && seen < |history| && Followed(spec, d)
      && now <= clock && Earlier(history[seen].lastTriggered, Some(now))
    case Finished(outcome) =>
      if outcome == Counted || outcome == Uncounted then Followed(spec, d) else NothingFollowed(d)
  }

  ghost predicate HistoryOk(s: System) {
    && s.history != []
    && (forall i :: 0 <= i < |s.history| ==> Earlier(s.history[i].lastTriggered, Some(s.clock)))
    && (forall i, j {:trigger Earlier(s.history[i].lastTriggered, s.history[j].lastTriggered)} ::
          0 <= i <= j < |s.history| ==> Earlier(s.history[i].lastTriggered, s.history[j].lastTriggered))
    && s.history[Latest(s)].sentCount == s.history[0].sentCount + CountIf(s.dispatchers, IsCounted)
  }

  /** A reconcile in flight has read a version that exists. */
  ghost predicate ReconcilesOk(reconciles: seq<Option<nat>>, versions: nat) {
    forall j :: 0 <= j < |reconciles| && reconciles[j].Some? ==> reconciles[j].value < versions
  }

  ghost predicate DispatchersOk(spec: Spec, clock: int, history: seq<Status>, ds: seq<Dispatcher>) {
    forall i {:trigger DispatcherOk(spec, clock, history, ds[i])} :: 0 <= i < |ds| ==>
      DispatcherOk(spec, clock, history, ds[i])
  }

  /** The limiter's history, as far as this MonitorPod's keys are concerned. */
  ghost predicate CallsOk(spec: Spec, t0: int, clock: int, calls: seq<Call>) {
    && t0 <= clock
    && Clocked(calls)
    && (forall i :: 0 <= i < |calls| ==> t0 <= calls[i].stampedAt <= clock)
    && (forall i :: 0 <= i < |calls| && OwnKey(spec, calls[i].key) ==>
          calls[i].limit == spec.limit && calls[i].period == spec.period)
  }

  /** The dispatches of a rule that got past the gate are the allowed calls on its key. */
  ghost predicate GateOk(spec: Spec, t0: int, clock: int, calls: seq<Call>, ds: seq<Dispatcher>, rule: string) {
    spec.limit > 0 ==> CountIf(ds, PassedFor(rule)) == AllowedIn(calls, KeyOf(spec, rule), t0, clock)
  }

  ghost predicate GatesOk(spec: Spec, t0: int, clock: int, calls: seq<Call>, ds: seq<Dispatcher>) {
    forall rule {:trigger GateOk(spec, t0, clock, calls, ds, rule)} :: GateOk(spec, t0, clock, calls, ds, rule)
  }

  ghost predicate Inv(spec: Spec, t0: int, s: System) {
    && HistoryOk(s)
    && CallsOk(spec, t0, s.clock, s.calls)
    && DispatchersOk(spec, s.clock, s.history, s.dispatchers)
    && ReconcilesOk(s.reconciles, |s.history|)
    && GatesOk(spec, t0, s.clock, s.calls, s.dispatchers)
  }

  // ----- every action keeps it -----

  lemma {:induction false} LaterClockCountsSame(calls: seq<Call>, key: string, lo: int, hi: int, later: int)
    requires hi <= later
    requires forall i :: 0 <= i < |calls| ==> calls[i].stampedAt <= hi
    ensures AllowedIn(calls, key, lo, later) == AllowedIn(calls, key, lo, hi)
  {
    if calls != [] {
      LaterClockCountsSame(calls[..|calls| - 1], key, lo, hi, later);
    }
  }

  /** A call appended at the end of the limiter's history. */
  lemma CallCounts(calls: seq<Call>, c: Call, key: string, lo: int, hi: int)
    requires lo <= c.stampedAt
    requires hi <= c.stampedAt
    requires forall i :: 0 <= i < |calls| ==> calls[i].stampedAt <= hi
    ensures AllowedIn(calls + [c], key, lo, c.stampedAt) ==
            AllowedIn(calls, key, lo, hi) +
            if c.key == key && Permits(Lookup(Replay(calls), c.key), c) then 1 else 0
  {
    assert (calls + [c])[..|calls|] == calls;
    LaterClockCountsSame(calls, key, lo, hi, c.stampedAt);
  }

  lemma KeysOfRules(spec: Spec, r1: string, r2: string)
    ensures KeyOf(spec, r1) == KeyPrefix(spec) + r1
    ensures OwnKey(spec, KeyOf(spec, r1))
    ensures KeyOf(spec, r1) == KeyOf(spec, r2) <==> r1 == r2
  {
    var p := KeyPrefix(spec);
    assert KeyOf(spec, r1) == p + r1 && KeyOf(spec, r2) == p + r2;
    assert r1 == (p + r1)[|p|..] && r2 == (p + r2)[|p|..];
  }

  /** What was right about a dispatch stays right as time passes and versions are added. */
  lemma LaterIsOk(spec: Spec, clock: int, clock': int, history: seq<Status>, history': seq<Status>, ds: seq<Dispatcher>)
    requires DispatchersOk(spec, clock, history, ds)
    requires clock <= clock' && history <= history'
    ensures DispatchersOk(spec, clock', history', ds)
  {
    forall i | 0 <= i < |ds| ensures DispatcherOk(spec, clock', history', ds[i]) {
      assert DispatcherOk(spec, clock, history, ds[i]);
    }
  }

  lemma LaterHistoryOk(s: System, clock: int)
    requires HistoryOk(s) && s.clock <= clock
    ensures HistoryOk(s.(clock := clock))
  {
    var s' := s.(clock := clock);
    forall i, j | 0 <= i <= j < |s'.history| ensures Earlier(s'.history[i].lastTriggered, s'.history[j].lastTriggered) {
      assert Earlier(s.history[i].lastTriggered, s.history[j].lastTriggered);
    }
  }

  /** Replacing a dispatcher on the same side of the count. */
  lemma MoveKeepsHistoryOk(s: System, i: nat, d: Dispatcher)
    requires HistoryOk(s) && i < |s.dispatchers| && IsCounted(d) == IsCounted(s.dispatchers[i])
    ensures HistoryOk(With(s, i, d))
  {
    CountUpdate(s.dispatchers, i, d, IsCounted);
  }

  lemma MoveKeepsDispatchers(spec: Spec, clock: int, history: seq<Status>, ds: seq<Dispatcher>, i: nat, d: Dispatcher)
    requires DispatchersOk(spec, clock, history, ds) && i < |ds| && DispatcherOk(spec, clock, history, d)
    ensures DispatchersOk(spec, clock, history, ds[i := d])
  {
    var ds' := ds[i := d];
    forall k | 0 <= k < |ds'| ensures DispatcherOk(spec, clock, history, ds'[k]) {
      assert DispatcherOk(spec, clock, history, ds[k]);
    }
  }

  /** Replacing a dispatcher on the same side of the gate. */
  lemma MoveKeepsGates(spec: Spec, t0: int, clock: int, calls: seq<Call>, ds: seq<Dispatcher>, i: nat, d: Dispatcher)
    requires GatesOk(spec, t0, clock, calls, ds) && i < |ds|
    requires d.rule == ds[i].rule && Passed(d) == Passed(ds[i])
    ensures GatesOk(spec, t0, clock, calls, ds[i := d])
  {
    var ds' := ds[i := d];
    forall rule ensures GateOk(spec, t0, clock, calls, ds', rule) {
      CountUpdate(ds, i, d, PassedFor(rule));
      assert GateOk(spec, t0, clock, calls, ds, rule);
    }
  }

  /** Replacing a dispatcher by one at the same side of the gate, and of the count. */
  lemma QuietMoveKeepsInv(spec: Spec, t0: int, s: System, i: nat, d: Dispatcher)
    requires Inv(spec, t0, s) && i < |s.dispatchers|
    requires d.rule == s.dispatchers[i].rule
    requires Passed(d) == Passed(s.dispatchers[i]) && IsCounted(d) == IsCounted(s.dispatchers[i])
    requires DispatcherOk(spec, s.clock, s.history, d)
    ensures Inv(spec, t0, With(s, i, d))
  {
    MoveKeepsHistoryOk(s, i, d);
    MoveKeepsDispatchers(spec, s.clock, s.history, s.dispatchers, i, d);
    MoveKeepsGates(spec, t0, s.clock, s.calls, s.dispatchers, i, d);
  }

  lemma CallKeepsCallsOk(spec: Spec, t0: int, clock: int, calls: seq<Call>, c: Call)
    requires CallsOk(spec, t0, clock, calls)
    requires c.checkedAt == clock <= c.stampedAt
    requires OwnKey(spec, c.key) ==> c.limit == spec.limit && c.period == spec.period
    ensures CallsOk(spec, t0, c.stampedAt, calls + [c])
  {
  }

  /** The limiter's decision at the gate keeps the two counts of the gate together. */
  lemma PassingKeepsGates(
    spec: Spec, t0: int, clock: int, calls: seq<Call>, ds: seq<Dispatcher>, i: nat, d: Dispatcher, c: Call)
    requires GatesOk(spec, t0, clock, calls, ds) && CallsOk(spec, t0, clock, calls) && i < |ds|
    requires ds[i].phase == Gate && d.rule == ds[i].rule
    requires c.key == KeyOf(spec, d.rule) && clock <= c.stampedAt
    requires Passed(d) <==> Permits(Lookup(Replay(calls), c.key), c)
    ensures GatesOk(spec, t0, c.stampedAt, calls + [c], ds[i := d])
  {
    var calls', ds' := calls + [c], ds[i := d];
    forall rule ensures GateOk(spec, t0, c.stampedAt, calls', ds', rule) {
      assert GateOk(spec, t0, clock, calls, ds, rule);
      CountUpdate(ds, i, d, PassedFor(rule));
      CallCounts(calls, c, KeyOf(spec, rule), t0, clock);
      KeysOfRules(spec, d.rule, rule);
    }
  }

  lemma GateKeepsInv(spec: Spec, t0: int, s: System, i: nat, delay: nat)
    requires Inv(spec, t0, s) && i < |s.dispatchers| && s.dispatchers[i].phase == Gate && spec.limit > 0
    ensures Inv(spec, t0, Gated(spec, s, i, delay))
  {
    var s', d := Gated(spec, s, i, delay), s.dispatchers[i];
    var c, d' := s'.calls[|s.calls|], s'.dispatchers[i];
    assert HistoryOk(s') by {
      MoveKeepsHistoryOk(s, i, d');
      LaterHistoryOk(With(s, i, d'), s'.clock);
    }
    assert CallsOk(spec, t0, s'.clock, s'.calls) by {
      KeysOfRules(spec, d.rule, d.rule);
      CallKeepsCallsOk(spec, t0, s.clock, s.calls, c);
    }
    assert DispatchersOk(spec, s'.clock, s.history, s'.dispatchers) by {
      assert DispatcherOk(spec, s.clock, s.history, d);
      LaterIsOk(spec, s.clock, s'.clock, s.history, s.history, s.dispatchers);
      MoveKeepsDispatchers(spec, s'.clock, s.history, s.dispatchers, i, d');
    }
    PassingKeepsGates(spec, t0, s.clock, s.calls, s.dispatchers, i, d', c);
  }

  /** Appending a version that the dispatchers in flight do not yet know of. */
  lemma NewVersionKeepsInv(spec: Spec, t0: int, s: System, status: Status)
    requires Inv(spec, t0, s)
    requires status.sentCount == s.history[Latest(s)].sentCount
    requires status.lastTriggered == s.history[Latest(s)].lastTriggered
    ensures Inv(spec, t0, s.(history := s.history + [status]))
  {
    LaterIsOk(spec, s.clock, s.clock, s.history, s.history + [status], s.dispatchers);
  }

  /** Versions stay in trigger-time order when one stamped no earlier than the latest is added. */
  lemma CountKeepsHistory(s: System, i: nat, d: Dispatcher, now: int)
    requires HistoryOk(s) && i < |s.dispatchers| && !IsCounted(s.dispatchers[i]) && IsCounted(d)
    requires now <= s.clock && Earlier(s.history[Latest(s)].lastTriggered, Some(now))
    ensures var read := s.history[Latest(s)];
            HistoryOk(With(s, i, d).(history :=
              s.history + [read.(sentCount := read.sentCount + 1, lastTriggered := Some(now))]))
  {
    var read := s.history[Latest(s)];
    var history := s.history + [read.(sentCount := read.sentCount + 1, lastTriggered := Some(now))];
    CountUpdate(s.dispatchers, i, d, IsCounted);
    forall j, k | 0 <= j <= k < |history| ensures Earlier(history[j].lastTriggered, history[k].lastTriggered) {
      if k < |s.history| {
        assert Earlier(s.history[j].lastTriggered, s.history[k].lastTriggered);
      } else if j < |s.history| {
        assert Earlier(s.history[j].lastTriggered, s.history[Latest(s)].lastTriggered);
      }
    }
  }

  lemma CountKeepsInv(spec: Spec, t0: int, s: System, i: nat)
    requires Inv(spec, t0, s) && i < |s.dispatchers|
    requires s.dispatchers[i].phase.Writing? && s.dispatchers[i].phase.seen == Latest(s)
    ensures Inv(spec, t0, Incremented(s, i, s.dispatchers[i].phase.now))
  {
    var d, read := s.dispatchers[i], s.history[Latest(s)];
    var d' := d.(phase := Finished(Counted));
    var history := s.history + [read.(sentCount := read.sentCount + 1, lastTriggered := Some(d.phase.now))];
    assert DispatcherOk(spec, s.clock, s.history, d);
    CountKeepsHistory(s, i, d', d.phase.now);
    MoveKeepsGates(spec, t0, s.clock, s.calls, s.dispatchers, i, d');
    LaterIsOk(spec, s.clock, s.clock, s.history, history, s.dispatchers);
    MoveKeepsDispatchers(spec, s.clock, history, s.dispatchers, i, d');
  }

  /** A step that leaves a dispatch on its sides of gate and count, and in order. */
  ghost predicate QuietlyMoved(spec: Spec, s: System, i: nat, s': System)
    requires i < |s.dispatchers|
  {
    && |s'.dispatchers| == |s.dispatchers|
    && var d, d' := s.dispatchers[i], s'.dispatchers[i];
       && s' == With(s, i, d')
       && d'.rule == d.rule && Passed(d') == Passed(d) && IsCounted(d') == IsCounted(d)
       && DispatcherOk(spec, s.clock, s.history, d')
  }

  lemma NotifyStepIsQuiet(spec: Spec, s: System, i: nat, a: Action)
    requires s.history != [] && i < |s.dispatchers| && DispatcherOk(spec, s.clock, s.history, s.dispatchers[i])
    requires s.dispatchers[i].phase.Resolving? || s.dispatchers[i].phase.Notifying?
    ensures DispatchStep(spec, s, i, a) == s || QuietlyMoved(spec, s, i, DispatchStep(spec, s, i, a))
  {
    match (s.dispatchers[i].phase, a)
    case (Resolving, Resolve(_, targets)) => InitialFanInv(targets);
    case (Notifying(fan), FanMove(_, step)) => FanStepKeepsInv(fan, step);
    case _ =>
  }

  lemma UpdateStepIsQuiet(spec: Spec, s: System, i: nat, a: Action)
    requires HistoryOk(s) && i < |s.dispatchers| && DispatcherOk(spec, s.clock, s.history, s.dispatchers[i])
    requires var phase := s.dispatchers[i].phase; phase.Recording? || phase.Reading? || phase.Stamping? || phase.Finished?
    ensures DispatchStep(spec, s, i, a) == s || QuietlyMoved(spec, s, i, DispatchStep(spec, s, i, a))
  {
  }

  lemma RefusedWriteIsQuiet(spec: Spec, s: System, i: nat, a: Action)
    requires s.history != [] && i < |s.dispatchers| && DispatcherOk(spec, s.clock, s.history, s.dispatchers[i])
    requires s.dispatchers[i].phase.Writing? && (a.WriteStatus? && a.ok ==> s.dispatchers[i].phase.seen != Latest(s))
    ensures DispatchStep(spec, s, i, a) == s || QuietlyMoved(spec, s, i, DispatchStep(spec, s, i, a))
  {
  }

  /** The steps of a dispatch behind the gate, short of a counted write. */
  lemma QuietStepKeepsInv(spec: Spec, t0: int, s: System, i: nat, a: Action)
    requires Inv(spec, t0, s) && i < |s.dispatchers| && s.dispatchers[i].phase != Gate
    requires a.WriteStatus? && s.dispatchers[i].phase.Writing? && a.ok ==> s.dispatchers[i].phase.seen != Latest(s)
    ensures Inv(spec, t0, DispatchStep(spec, s, i, a))
  {
    var phase := s.dispatchers[i].phase;
    assert DispatcherOk(spec, s.clock, s.history, s.dispatchers[i]);
    if phase.Resolving? || phase.Notifying? {
      NotifyStepIsQuiet(spec, s, i, a);
    } else if phase.Writing? {
      RefusedWriteIsQuiet(spec, s, i, a);
    } else {
      UpdateStepIsQuiet(spec, s, i, a);
    }
    if DispatchStep(spec, s, i, a) != s {
      QuietMoveKeepsInv(spec, t0, s, i, DispatchStep(spec, s, i, a).dispatchers[i]);
    }
  }

  lemma UnlimitedGateKeepsInv(spec: Spec, t0: int, s: System, i: nat)
    requires Inv(spec, t0, s) && i < |s.dispatchers| && s.dispatchers[i].phase == Gate && spec.limit <= 0
    ensures Inv(spec, t0, With(s, i, s.dispatchers[i].(phase := Resolving)))
  {
    var d := s.dispatchers[i].(phase := Resolving);
    assert DispatcherOk(spec, s.clock, s.history, s.dispatchers[i]);
    MoveKeepsHistoryOk(s, i, d);
    MoveKeepsDispatchers(spec, s.clock, s.history, s.dispatchers, i, d);
  }

  lemma DispatchStepKeepsInv(spec: Spec, t0: int, s: System, i: nat, a: Action)
    requires Inv(spec, t0, s) && i < |s.dispatchers|
    requires a.PassGate? || a.WriteStatus? ==> a.i == i
    ensures Inv(spec, t0, DispatchStep(spec, s, i, a))
  {
    var d := s.dispatchers[i];
    if d.phase == Gate {
      if a.PassGate? && spec.limit > 0 {
        assert a == PassGate(i, a.delay);
        GateKeepsInv(spec, t0, s, i, a.delay);
      } else if a.PassGate? {
        UnlimitedGateKeepsInv(spec, t0, s, i);
      }
    } else if a.WriteStatus? && d.phase.Writing? && a.ok && d.phase.seen == Latest(s) {
      assert a == WriteStatus(i, true);
      CountKeepsInv(spec, t0, s, i);
    } else {
      QuietStepKeepsInv(spec, t0, s, i, a);
    }
  }

  /** Time passes, and calls on other keys of the shared limiter come in. */
  lemma ClockKeepsInv(spec: Spec, t0: int, s: System, clock: int, calls: seq<Call>)
    requires Inv(spec, t0, s) && s.clock <= clock && CallsOk(spec, t0, clock, calls)
    requires forall rule :: AllowedIn(calls, KeyOf(spec, rule), t0, clock) ==
                            AllowedIn(s.calls, KeyOf(spec, rule), t0, s.clock)
    ensures Inv(spec, t0, s.(clock := clock, calls := calls))
  {
    forall rule ensures GateOk(spec, t0, clock, calls, s.dispatchers, rule) {
      assert GateOk(spec, t0, s.clock, s.calls, s.dispatchers, rule);
    }
    LaterHistoryOk(s, clock);
    LaterIsOk(spec, s.clock, clock, s.history, s.history, s.dispatchers);
  }

  lemma ForeignCallCountsNothing(spec: Spec, t0: int, clock: int, calls: seq<Call>, c: Call, rule: string)
    requires CallsOk(spec, t0, clock, calls) && clock <= c.stampedAt && !OwnKey(spec, c.key)
    ensures AllowedIn(calls + [c], KeyOf(spec, rule), t0, c.stampedAt) == AllowedIn(calls, KeyOf(spec, rule), t0, clock)
  {
    KeysOfRules(spec, rule, rule);
    CallCounts(calls, c, KeyOf(spec, rule), t0, clock);
  }

  lemma ForeignCallKeepsInv(spec: Spec, t0: int, s: System, a: Action)
    requires Inv(spec, t0, s) && a.ForeignCall?
    ensures Inv(spec, t0, Step(spec, s, a))
  {
    if !OwnKey(spec, a.key) {
      var c := Call(a.key, a.limit, a.period, s.clock, s.clock + a.delay);
      CallKeepsCallsOk(spec, t0, s.clock, s.calls, c);
      forall rule ensures AllowedIn(s.calls + [c], KeyOf(spec, rule), t0, c.stampedAt) ==
                          AllowedIn(s.calls, KeyOf(spec, rule), t0, s.clock)
      {
        ForeignCallCountsNothing(spec, t0, s.clock, s.calls, c, rule);
      }
      ClockKeepsInv(spec, t0, s, c.stampedAt, s.calls + [c]);
    }
  }

  lemma WaitKeepsInv(spec: Spec, t0: int, s: System, dt: nat)
    requires Inv(spec, t0, s)
    ensures Inv(spec, t0, s.(clock := s.clock + dt))
  {
    forall rule ensures AllowedIn(s.calls, KeyOf(spec, rule), t0, s.clock + dt) ==
                        AllowedIn(s.calls, KeyOf(spec, rule), t0, s.clock)
    {
      LaterClockCountsSame(s.calls, KeyOf(spec, rule), t0, s.clock, s.clock + dt);
    }
    ClockKeepsInv(spec, t0, s, s.clock + dt, s.calls);
  }

  lemma BeginKeepsInv(spec: Spec, t0: int, s: System, rule: string)
    requires Inv(spec, t0, s)
    ensures Inv(spec, t0, Step(spec, s, Begin(rule)))
  {
    var d := Dispatcher(rule, Gate, 0, 0, 0);
    var ds := s.dispatchers + [d];
    CountAppend(s.dispatchers, d, IsCounted);
    forall r ensures GateOk(spec, t0, s.clock, s.calls, ds, r) {
      CountAppend(s.dispatchers, d, PassedFor(r));
      assert GateOk(spec, t0, s.clock, s.calls, s.dispatchers, r);
    }
    forall i | 0 <= i < |ds| ensures DispatcherOk(spec, s.clock, s.history, ds[i]) {
      assert i < |s.dispatchers| ==> DispatcherOk(spec, s.clock, s.history, s.dispatchers[i]);
    }
  }

  lemma ReconcileKeepsInv(spec: Spec, t0: int, s: System, a: Action)
    requires Inv(spec, t0, s) && (a.ReconcileRead? || a.ReconcileWrite?)
    ensures Inv(spec, t0, Step(spec, s, a))
  {
    match a
    case ReconcileRead(seen) =>
    case ReconcileWrite(j, rest) =>
      if j < |s.reconciles| && s.reconciles[j].Some? {
        var seen, done := s.reconciles[j].value, s.(reconciles := s.reconciles[j := None]);
        assert Inv(spec, t0, done);
        if seen == Latest(s) {
          NewVersionKeepsInv(spec, t0, done, s.history[seen].(rest := rest));
        }
      }
  }

  lemma StepKeepsInv(spec: Spec, t0: int, s: System, a: Action)
    requires Inv(spec, t0, s)
    ensures Inv(spec, t0, Step(spec, s, a))
  {
    match a
    case Wait(dt) => WaitKeepsInv(spec, t0, s, dt);
    case ForeignCall(_, _, _, _) => ForeignCallKeepsInv(spec, t0, s, a);
    case Begin(rule) => BeginKeepsInv(spec, t0, s, rule);
    case ReconcileRead(_) => ReconcileKeepsInv(spec, t0, s, a);
    case ReconcileWrite(_, _) => ReconcileKeepsInv(spec, t0, s, a);
    case EditSpec => NewVersionKeepsInv(spec, t0, s, s.history[Latest(s)]);
    case _ =>
      if a.i < |s.dispatchers| {
        assert Step(spec, s, a) == DispatchStep(spec, s, a.i, a);
        DispatchStepKeepsInv(spec, t0, s, a.i, a);
      }
  }

  lemma {:induction false} ExecKeepsInv(spec: Spec, now: int, stored: Status, actions: seq<Action>)
    requires Earlier(stored.lastTriggered, Some(now))
    ensures Inv(spec, now, Exec(spec, Start(now, stored), actions))
  {
    if actions == [] {
      forall rule ensures GateOk(spec, now, now, [], [], rule) {
      }
    } else {
      ExecKeepsInv(spec, now, stored, actions[..|actions| - 1]);
      StepKeepsInv(spec, now, Exec(spec, Start(now, stored), actions[..|actions| - 1]), actions[|actions| - 1]);
    }
  }

  lemma {:induction false} HistoryOnlyGrows(spec: Spec, s: System, actions: seq<Action>)
    requires s.history != []
    ensures s.history <= Exec(spec, s, actions).history
  {
    if actions != [] {
      HistoryOnlyGrows(spec, s, actions[..|actions| - 1]);
    }
  }

  // ----- main results -----

  /**
   No lost counts. In every interleaving of dispatches, reconciles and edits, with stale reads, the
   stored count is the initial one plus the increment writes that succeeded, and the stored trigger
   time never goes back from one version to a later one.
   */
  lemma NoLostCounts(spec: Spec, now: int, stored: Status, actions: seq<Action>)
    requires Earlier(stored.lastTriggered, Some(now))
    ensures var s := Exec(spec, Start(now, stored), actions);
            && s.history[Latest(s)].sentCount == stored.sentCount + CountIf(s.dispatchers, IsCounted)
            && forall i, j :: 0 <= i <= j < |s.history| ==>
                 Earlier(s.history[i].lastTriggered, s.history[j].lastTriggered)
  {
    ExecKeepsInv(spec, now, stored, actions);
    HistoryOnlyGrows(spec, Start(now, stored), actions);
  }

  /**
   The end-to-end rate: however many pods stream and however often monitors restart, the alerts of one
   rule counted in a stretch of `elapsed` since the process started stay within the rate limit.
   */
  lemma EndToEndRate(spec: Spec, now: int, stored: Status, actions: seq<Action>, rule: string)
    requires Earlier(stored.lastTriggered, Some(now))
    requires spec.limit >= 1 && spec.period >= 1
    ensures var s := Exec(spec, Start(now, stored), actions);
            && now <= s.clock
            && CountIf(s.dispatchers, CountedFor(rule)) <= spec.limit * ((s.clock - now) / spec.period + 1)
  {
    ExecKeepsInv(spec, now, stored, actions);
    InvBoundsCounted(spec, now, Exec(spec, Start(now, stored), actions), rule);
  }

  lemma InvBoundsCounted(spec: Spec, t0: int, s: System, rule: string)
    requires Inv(spec, t0, s) && spec.limit >= 1 && spec.period >= 1
    ensures t0 <= s.clock
    ensures CountIf(s.dispatchers, CountedFor(rule)) <= spec.limit * ((s.clock - t0) / spec.period + 1)
  {
    GateBoundsPassed(spec, t0, s, rule);
    CountMonotone(s.dispatchers, CountedFor(rule), PassedFor(rule));
    RunBudgetClosedForm(spec.limit, spec.period, s.clock - t0);
  }

  lemma GateBoundsPassed(spec: Spec, t0: int, s: System, rule: string)
    requires CallsOk(spec, t0, s.clock, s.calls) && GateOk(spec, t0, s.clock, s.calls, s.dispatchers, rule)
    requires spec.limit >= 1 && spec.period >= 1
    ensures CountIf(s.dispatchers, PassedFor(rule)) <= RunBudget(spec.limit, spec.period, s.clock - t0)
  {
    KeysOfRules(spec, rule, rule);
    RunStaysInBudget(s.calls, KeyOf(spec, rule), spec.limit, spec.period, t0, s.clock - t0);
  }

  /**
   Recording and counting follow delivery: in a finished dispatch the update loop was begun exactly
   once if some channel succeeded and never otherwise, and so the record, where records are wanted.
   */
  lemma FollowUpIffDelivered(spec: Spec, now: int, stored: Status, actions: seq<Action>, i: nat)
    requires Earlier(stored.lastTriggered, Some(now))
    requires i < |Exec(spec, Start(now, stored), actions).dispatchers|
    requires Exec(spec, Start(now, stored), actions).dispatchers[i].phase.Finished?
    ensures var d := Exec(spec, Start(now, stored), actions).dispatchers[i];
            && d.updates == (if d.delivered > 0 then 1 else 0)
            && d.records == (if d.delivered > 0 && spec.recordAlerts then 1 else 0)
            && (d.delivered > 0 <==> d.phase.outcome == Counted || d.phase.outcome == Uncounted)
  {
    ExecKeepsInv(spec, now, stored, actions);
    var s := Exec(spec, Start(now, stored), actions);
    assert DispatcherOk(spec, s.clock, s.history, s.dispatchers[i]);
  }

  /**
   A dispatch concludes nothing before the channel is closed, and then what it acts on is the number of
   senders that succeeded, all of them being done.
   */
  lemma ConclusionCountsSuccesses(spec: Spec, t0: int, s: System, i: nat)
    requires Inv(spec, t0, s) && i < |s.dispatchers| && s.dispatchers[i].phase.Notifying?
    ensures var fan, s' := s.dispatchers[i].phase.fan, Step(spec, s, Conclude(i));
            if fan.closed then
              && (forall k :: 0 <= k < |fan.senders| ==> fan.senders[k].Done?)
              && s'.dispatchers[i].delivered == CountIf(fan.senders, SucceededFinally)
              && s'.dispatchers[i].phase ==
                 (if s'.dispatchers[i].delivered > 0 then Recording else Finished(Undelivered))
            else s' == s
  {
    assert DispatcherOk(spec, s.clock, s.history, s.dispatchers[i]);
    if s.dispatchers[i].phase.fan.closed {
      ClosedMeansAllDone(s.dispatchers[i].phase.fan);
    }
  }

  // ----- who is suppressed -----

  lemma CallsOnlyGrow(spec: Spec, s: System, a: Action)
    ensures s.calls <= Step(spec, s, a).calls
  {
  }

  /** Without a positive limit no call on an own key is made, and no dispatch suppressed. */
  ghost predicate Unlimited(spec: Spec, s: System) {
    && (forall k :: 0 <= k < |s.dispatchers| ==> s.dispatchers[k].phase != Finished(Suppressed))
    && (forall k :: 0 <= k < |s.calls| ==> !(spec.namespace + "/" + spec.name + "/" <= s.calls[k].key))
  }

  lemma StepStaysUnlimited(spec: Spec, s: System, a: Action)
    requires spec.limit <= 0 && Unlimited(spec, s)
    ensures Unlimited(spec, Step(spec, s, a))
  {
  }

  /** A MonitorPod without a rate limit never asks the limiter, and none of its alerts is suppressed. */
  lemma {:induction false} UnlimitedIsNeverSuppressed(spec: Spec, now: int, stored: Status, actions: seq<Action>)
    requires spec.limit <= 0
    ensures var s := Exec(spec, Start(now, stored), actions);
            && (forall k :: 0 <= k < |s.dispatchers| ==> s.dispatchers[k].phase != Finished(Suppressed))
            && (forall k :: 0 <= k < |s.calls| ==> !(spec.namespace + "/" + spec.name + "/" <= s.calls[k].key))
  {
    if actions != [] {
      var before := actions[..|actions| - 1];
      UnlimitedIsNeverSuppressed(spec, now, stored, before);
      StepStaysUnlimited(spec, Exec(spec, Start(now, stored), before), actions[|actions| - 1]);
    }
  }

  /** The index, among the limiter's calls, of the one that an action makes for the i-th dispatch. */
  function CallBy(spec: Spec, s: System, i: nat, a: Action): Option<nat> {
    if a.PassGate? && a.i == i && i < |s.dispatchers| && |Step(spec, s, a).calls| > |s.calls| then Some(|s.calls|)
    else None
  }

  /** The call that the i-th dispatch made in a run, if it has made it. */
  function CallOf(spec: Spec, s: System, actions: seq<Action>, i: nat): Option<nat>
    requires s.history != []
  {
    if actions == [] then None
    else
      var n := |actions| - 1;
      var earlier := CallOf(spec, s, actions[..n], i);
      if earlier.Some? then earlier else CallBy(spec, Exec(spec, s, actions[..n]), i, actions[n])
  }

  /** The dispatch is past the gate exactly if it has made its call, and over at once exactly if that was denied. */
  ghost predicate CallDecides(spec: Spec, s: System, i: nat, call: Option<nat>) {
    if i >= |s.dispatchers| then call.None?
    else
      var d := s.dispatchers[i];
      && (call.None? <==> d.phase == Gate)
      && (call.Some? ==>
            && call.value < |s.calls|
            && s.calls[call.value].key == spec.namespace + "/" + spec.name + "/" + d.rule
            && s.calls[call.value].limit == spec.limit && s.calls[call.value].period == spec.period
            && (d.phase == Finished(Suppressed) <==> !Allowed(s.calls, call.value)))
  }

  lemma LaterCallsChangeNothing(calls: seq<Call>, more: seq<Call>, k: nat)
    requires k < |calls| && calls <= more
    ensures Allowed(more, k) == Allowed(calls, k)
  {
    assert more[..k] == calls[..k];
  }

  /** Behind the gate a dispatch stays behind it, suppressed or not. */
  lemma BehindTheGate(spec: Spec, s: System, i: nat, a: Action)
    requires s.history != [] && i < |s.dispatchers| && s.dispatchers[i].phase != Gate && Belongs(a, i)
    ensures var s' := DispatchStep(spec, s, i, a);
            && |s'.dispatchers| == |s.dispatchers| && s'.dispatchers[i].rule == s.dispatchers[i].rule
            && s'.dispatchers[i].phase != Gate && s'.calls == s.calls
            && (s'.dispatchers[i].phase == Finished(Suppressed) <==> s.dispatchers[i].phase == Finished(Suppressed))
  {
  }

  lemma GateDecides(spec: Spec, s: System, i: nat, delay: nat)
    requires i < |s.dispatchers| && spec.limit > 0
    ensures CallDecides(spec, Gated(spec, s, i, delay), i, Some(|s.calls|))
  {
    assert (s.calls + [Gated(spec, s, i, delay).calls[|s.calls|]])[..|s.calls|] == s.calls;
  }

  lemma StepDecides(spec: Spec, s: System, i: nat, a: Action, call: Option<nat>)
    requires s.history != [] && spec.limit > 0 && CallDecides(spec, s, i, call)
    ensures CallDecides(spec, Step(spec, s, a), i, if call.Some? then call else CallBy(spec, s, i, a))
  {
    var s' := Step(spec, s, a);
    CallsOnlyGrow(spec, s, a);
    if call.Some? {
      LaterCallsChangeNothing(s.calls, s'.calls, call.value);
    }
    if !Belongs(a, i) {
      OthersLeaveDispatch(spec, s, i, a);
    } else if i < |s.dispatchers| {
      assert s' == DispatchStep(spec, s, i, a);
      if s.dispatchers[i].phase != Gate {
        BehindTheGate(spec, s, i, a);
      } else if a.PassGate? {
        GateDecides(spec, s, i, a.delay);
      }
    }
  }

  lemma {:induction false} RunDecides(spec: Spec, now: int, stored: Status, actions: seq<Action>, i: nat)
    requires spec.limit > 0
    ensures CallDecides(spec, Exec(spec, Start(now, stored), actions), i, CallOf(spec, Start(now, stored), actions, i))
  {
    if actions != [] {
      var before := actions[..|actions| - 1];
      RunDecides(spec, now, stored, before, i);
      StepDecides(spec, Exec(spec, Start(now, stored), before), i, actions[|actions| - 1],
                  CallOf(spec, Start(now, stored), before, i));
    }
  }

  /**
   With a positive limit every dispatch asks the limiter once, for its rule's key and at the spec's limit and
   period, and is suppressed exactly if that call is denied.
   */
  lemma SuppressedIffDenied(spec: Spec, now: int, stored: Status, actions: seq<Action>, i: nat)
    requires spec.limit > 0 && i < |Exec(spec, Start(now, stored), actions).dispatchers|
    ensures var s, call := Exec(spec, Start(now, stored), actions), CallOf(spec, Start(now, stored), actions, i);
            var d := s.dispatchers[i];
            && (call.None? <==> d.phase == Gate)
            && (call.Some? ==>
                  && call.value < |s.calls|
                  && s.calls[call.value].key == spec.namespace + "/" + spec.name + "/" + d.rule
                  && s.calls[call.value].limit == spec.limit && s.calls[call.value].period == spec.period
                  && (d.phase == Finished(Suppressed) <==> !Allowed(s.calls, call.value)))
  {
    RunDecides(spec, now, stored, actions, i);
  }

  // ----- who is notified -----

  /** What may become of a dispatch that found so many targets. */
  predicate TargetsFit(d: Dispatcher, targets: nat) {
    match d.phase
    case Gate => false
    case Resolving => false
    case Notifying(fan) => targets > 0 && |fan.senders| == targets && d.delivered == 0
    case Finished(outcome) =>
      && outcome != Suppressed && (outcome == NoTarget <==> targets == 0)
      && d.delivered <= targets
    case _ => targets > 0 && d.delivered <= targets
  }

  lemma StepFitsTargets(spec: Spec, t0: int, s: System, i: nat, a: Action, targets: nat)
    requires Inv(spec, t0, s) && i < |s.dispatchers| && Belongs(a, i) && TargetsFit(s.dispatchers[i], targets)
    ensures TargetsFit(DispatchStep(spec, s, i, a).dispatchers[i], targets)
  {
    assert DispatcherOk(spec, s.clock, s.history, s.dispatchers[i]);
    match (s.dispatchers[i].phase, a)
    case (Notifying(fan), FanMove(_, step)) => FanStepKeepsInv(fan, step);
    case (Notifying(fan), Conclude(_)) => CountAll(fan.senders, Succeeded);
    case _ =>
  }

  lemma {:induction false} RunFitsTargets(spec: Spec, t0: int, s: System, rest: seq<Action>, i: nat, targets: nat)
    requires Inv(spec, t0, s) && i < |s.dispatchers| && TargetsFit(s.dispatchers[i], targets)
    ensures var r := Exec(spec, s, rest); i < |r.dispatchers| && TargetsFit(r.dispatchers[i], targets)
  {
    if rest != [] {
      var before, a := rest[..|rest| - 1], rest[|rest| - 1];
      RunFitsTargets(spec, t0, s, before, i, targets);
      InvStays(spec, t0, s, before);
      var m := Exec(spec, s, before);
      if Belongs(a, i) {
        assert Step(spec, m, a) == DispatchStep(spec, m, i, a);
        StepFitsTargets(spec, t0, m, i, a, targets);
      } else {
        OthersLeaveDispatch(spec, m, i, a);
      }
    }
  }

  /**
   Every target is notified: a dispatch past the gate that finds n targets ends there exactly if n is 0, and
   otherwise has one sender for each, and as many deliveries at most.
   */
  lemma TargetsAreNotified(
    spec: Spec, now: int, stored: Status, before: seq<Action>, i: nat, targets: nat, rest: seq<Action>)
    requires Earlier(stored.lastTriggered, Some(now))
    requires i < |Exec(spec, Start(now, stored), before).dispatchers|
    requires Exec(spec, Start(now, stored), before).dispatchers[i].phase == Resolving
    ensures var r := Exec(spec, Start(now, stored), before + [Resolve(i, targets)] + rest);
            && i < |r.dispatchers|
            && (r.dispatchers[i].phase == Finished(NoTarget) <==> targets == 0)
            && (r.dispatchers[i].phase.Notifying? ==> |r.dispatchers[i].phase.fan.senders| == targets)
            && r.dispatchers[i].delivered <= targets
  {
    var start, resolve := Start(now, stored), Resolve(i, targets);
    var s := Exec(spec, start, before);
    ExecKeepsInv(spec, now, stored, before);
    assert DispatcherOk(spec, s.clock, s.history, s.dispatchers[i]);
    RunGrows(StepOf(spec), start, before, resolve);
    ExecKeepsInv(spec, now, stored, before + [resolve]);
    RunFitsTargets(spec, now, Step(spec, s, resolve), rest, i, targets);
    ExecConcat(spec, start, before + [resolve], rest);
  }

  // ----- what is written -----

  lemma {:induction false} OthersLeaveItWaiting(spec: Spec, s: System, mid: seq<Action>, i: nat)
    requires s.history != [] && i < |s.dispatchers|
    requires forall k :: 0 <= k < |mid| ==> !Belongs(mid[k], i)
    ensures var r := Exec(spec, s, mid); i < |r.dispatchers| && r.dispatchers[i] == s.dispatchers[i]
  {
    if mid != [] {
      OthersLeaveItWaiting(spec, s, mid[..|mid| - 1], i);
      OthersLeaveDispatch(spec, Exec(spec, s, mid[..|mid| - 1]), i, mid[|mid| - 1]);
    }
  }

  lemma WriteOutcome(spec: Spec, m: System, i: nat)
    requires m.history != [] && i < |m.dispatchers| && m.dispatchers[i].phase.Writing?
    ensures var phase, r, latest := m.dispatchers[i].phase, Step(spec, m, WriteStatus(i, true)), m.history[Latest(m)];
            && i < |r.dispatchers|
            && (IsCounted(r.dispatchers[i]) <==> phase.seen == Latest(m))
            && r.history == (if phase.seen == Latest(m)
                             then m.history + [Status(latest.sentCount + 1, Some(phase.now), latest.rest)]
                             else m.history)
  {
  }

  lemma StampReadsClock(spec: Spec, s: System, i: nat)
    requires s.history != [] && i < |s.dispatchers| && s.dispatchers[i].phase.Stamping?
    ensures var r := Exec(spec, s, [Stamp(i)]);
            && i < |r.dispatchers| && r.dispatchers[i].phase.Writing?
            && r.dispatchers[i].phase.seen == s.dispatchers[i].phase.seen && r.dispatchers[i].phase.now == s.clock
  {
    RunOne(StepOf(spec), s, Stamp(i));
  }

  /**
   What a count writes: the latest status with one alert more, its trigger time the clock as the attempt
   read it, and nothing else changed.
   */
  lemma CountWrites(spec: Spec, s: System, i: nat, mid: seq<Action>)
    requires s.history != [] && i < |s.dispatchers| && s.dispatchers[i].phase.Stamping?
    requires forall k :: 0 <= k < |mid| ==> !Belongs(mid[k], i)
    ensures var m := Exec(spec, s, [Stamp(i)] + mid);
            var r, latest := Exec(spec, s, [Stamp(i)] + mid + [WriteStatus(i, true)]), m.history[Latest(m)];
            && i < |r.dispatchers|
            && (IsCounted(r.dispatchers[i]) <==> s.dispatchers[i].phase.seen == Latest(m))
            && r.history == (if IsCounted(r.dispatchers[i])
                             then m.history + [Status(latest.sentCount + 1, Some(s.clock), latest.rest)]
                             else m.history)
  {
    var s1 := Exec(spec, s, [Stamp(i)]);
    StampReadsClock(spec, s, i);
    OthersLeaveItWaiting(spec, s1, mid, i);
    ExecConcat(spec, s, [Stamp(i)], mid);
    WriteOutcome(spec, Exec(spec, s1, mid), i);
    RunGrows(StepOf(spec), s, [Stamp(i)] + mid, WriteStatus(i, true));
  }

  /** A reconcile's write goes in exactly if the version it read is still the latest, and changes only its own fields. */
  lemma ReconcileWrites(spec: Spec, s: System, j: nat, rest: nat)
    requires s.history != [] && j < |s.reconciles| && s.reconciles[j].Some?
    ensures var latest := s.history[Latest(s)];
            Step(spec, s, ReconcileWrite(j, rest)).history ==
            if s.reconciles[j].value == Latest(s) && latest.rest != rest
            then s.history + [Status(latest.sentCount, latest.lastTriggered, rest)] else s.history
  {
  }

  // ----- which alerts are counted -----

  /**
   What one attempt of an update loop met: whether its Get succeeded, the version it wrote from, the
   latest version when its update arrived, and whether the update failed other than by a conflict.
   */
  datatype Try = Try(got: bool, seen: nat, latest: nat, broken: bool)

  /** The attempt ends the loop without a count. */
  predicate Fails(t: Try) { !t.got || t.broken }

  /** No other write came in between. */
  predicate Wins(t: Try) { !Fails(t) && t.seen == t.latest }

  predicate Overtaken(t: Try) { !Fails(t) && t.seen != t.latest }

  /** Some attempt wins before any has failed. */
  predicate SomeTryWins(tries: seq<Try>) {
    exists k :: 0 <= k < |tries| && Wins(tries[k]) && forall j :: 0 <= j < k ==> !Fails(tries[j])
  }

  /** The first attempt that is not overtaken decides. */
  lemma FirstToEndDecides(tries: seq<Try>, k: nat)
    requires k <= |tries| && forall j :: 0 <= j < k ==> Overtaken(tries[j])
    ensures k < |tries| && Wins(tries[k]) ==> SomeTryWins(tries)
    ensures k < |tries| && Fails(tries[k]) ==> !SomeTryWins(tries)
    ensures k == |tries| ==> !SomeTryWins(tries)
  {
  }

  /** The dispatch an action belongs to. */
  predicate Belongs(a: Action, i: nat) {
    match a
    case PassGate(j, _) => j == i
    case Resolve(j, _) => j == i
    case FanMove(j, _) => j == i
    case Conclude(j) => j == i
    case Record(j) => j == i
    case ReadStatus(j, _, _) => j == i
    case Stamp(j) => j == i
    case WriteStatus(j, _) => j == i
    case _ => false
  }

  /** The attempt, if any, that an action ends in a given phase. */
  function TryIn(phase: Phase, a: Action, latest: nat): seq<Try> {
    match (phase, a)
    case (Reading(_), ReadStatus(_, _, ok)) => if ok then [] else [Try(false, 0, 0, false)]
    case (Writing(_, seen, _), WriteStatus(_, ok)) => [Try(true, seen, latest, !ok)]
    case _ => []
  }

  /** The attempt of the i-th dispatch, if any, that an action ends. */
  function TryOf(s: System, i: nat, a: Action): seq<Try>
    requires s.history != []
  {
    if i < |s.dispatchers| && Belongs(a, i) then TryIn(s.dispatchers[i].phase, a, Latest(s)) else []
  }

  /** All attempts of the i-th dispatch in a run. */
  function Tries(spec: Spec, s: System, actions: seq<Action>, i: nat): seq<Try>
    requires s.history != []
  {
    if actions == [] then []
    else
      var n := |actions| - 1;
      Tries(spec, s, actions[..n], i) + TryOf(Exec(spec, s, actions[..n]), i, actions[n])
  }

  predicate AllOvertaken(tries: seq<Try>) {
    forall j :: 0 <= j < |tries| ==> Overtaken(tries[j])
  }

  /** How the attempts made so far show in the phase. */
  predicate TriesFit(phase: Phase, tries: seq<Try>) {
    match phase
    case Reading(attempt) => |tries| + 1 == attempt <= ATTEMPTS && AllOvertaken(tries)
    case Stamping(attempt, _) => |tries| + 1 == attempt <= ATTEMPTS && AllOvertaken(tries)
    case Writing(attempt, _, _) => |tries| + 1 == attempt <= ATTEMPTS && AllOvertaken(tries)
    case Finished(Counted) =>
      1 <= |tries| <= ATTEMPTS && AllOvertaken(tries[..|tries| - 1]) && Wins(tries[|tries| - 1])
    case Finished(Uncounted) =>
      && 1 <= |tries| <= ATTEMPTS && AllOvertaken(tries[..|tries| - 1])
      && (Fails(tries[|tries| - 1]) || (Overtaken(tries[|tries| - 1]) && |tries| == ATTEMPTS))
    case _ => tries == []
  }

  predicate TriesOk(s: System, i: nat, tries: seq<Try>) {
    if i < |s.dispatchers| then TriesFit(s.dispatchers[i].phase, tries) else tries == []
  }

  lemma OthersLeaveDispatch(spec: Spec, s: System, i: nat, a: Action)
    requires s.history != [] && !Belongs(a, i)
    ensures var s' := Step(spec, s, a);
            if i < |s.dispatchers| then i < |s'.dispatchers| && s'.dispatchers[i] == s.dispatchers[i]
            else i < |s'.dispatchers| ==> s'.dispatchers[i].phase == Gate
  {
  }

  /** Before the update loop there are no attempts. */
  lemma OutsideLoopFits(spec: Spec, s: System, i: nat, a: Action)
    requires s.history != [] && i < |s.dispatchers| && Belongs(a, i)
    requires var phase := s.dispatchers[i].phase; !phase.Reading? && !phase.Stamping? && !phase.Writing? && !phase.Finished?
    ensures TriesFit(DispatchStep(spec, s, i, a).dispatchers[i].phase, [])
  {
  }

  /** What an action makes of a phase of the update loop. */
  function InLoop(phase: Phase, a: Action, versions: nat, now: int): Phase {
    match (phase, a)
    case (Reading(attempt), ReadStatus(_, seen, ok)) =>
      if ok && seen >= versions then phase else AfterRead(attempt, seen, ok)
    case (Stamping(attempt, seen), Stamp(_)) => Writing(attempt, seen, now)
    case (Writing(attempt, seen, _), WriteStatus(_, ok)) =>
      if ok && seen + 1 == versions then Finished(Counted) else AfterRefusal(attempt, ok)
    case _ => phase
  }

  lemma ReadingStep(spec: Spec, s: System, i: nat, a: Action)
    requires s.history != [] && i < |s.dispatchers| && Belongs(a, i)
    requires s.dispatchers[i].phase.Reading? || s.dispatchers[i].phase.Stamping?
    ensures DispatchStep(spec, s, i, a).dispatchers[i].phase ==
            InLoop(s.dispatchers[i].phase, a, |s.history|, s.clock)
  {
  }

  lemma WritingStep(spec: Spec, s: System, i: nat, a: Action)
    requires s.history != [] && i < |s.dispatchers| && Belongs(a, i) && s.dispatchers[i].phase.Writing?
    ensures DispatchStep(spec, s, i, a).dispatchers[i].phase ==
            InLoop(s.dispatchers[i].phase, a, |s.history|, s.clock)
  {
  }

  /** One more attempt after overtaken ones. */
  lemma OneMoreTry(tries: seq<Try>, t: Try)
    requires AllOvertaken(tries) && |tries| < ATTEMPTS
    ensures Overtaken(t) ==> AllOvertaken(tries + [t])
    ensures Wins(t) ==> TriesFit(Finished(Counted), tries + [t])
    ensures Fails(t) || (Overtaken(t) && |tries| + 1 == ATTEMPTS) ==> TriesFit(Finished(Uncounted), tries + [t])
  {
    var more := tries + [t];
    assert more[..|tries|] == tries && more[|more| - 1] == t;
  }

  lemma LoopFitsTries(phase: Phase, a: Action, versions: nat, now: int, tries: seq<Try>)
    requires versions > 0 && TriesFit(phase, tries) && (phase.Reading? || phase.Stamping? || phase.Writing?)
    ensures TriesFit(InLoop(phase, a, versions, now), tries + TryIn(phase, a, versions - 1))
  {
    var more := TryIn(phase, a, versions - 1);
    if more == [] {
      assert tries + [] == tries;
    } else {
      OneMoreTry(tries, more[0]);
      assert more == [more[0]];
    }
  }

  lemma LoopStepFitsTries(spec: Spec, s: System, i: nat, a: Action, tries: seq<Try>)
    requires s.history != [] && i < |s.dispatchers| && Belongs(a, i) && TriesFit(s.dispatchers[i].phase, tries)
    requires var phase := s.dispatchers[i].phase; phase.Reading? || phase.Stamping? || phase.Writing?
    ensures TriesFit(DispatchStep(spec, s, i, a).dispatchers[i].phase, tries + TryOf(s, i, a))
  {
    if s.dispatchers[i].phase.Writing? {
      WritingStep(spec, s, i, a);
    } else {
      ReadingStep(spec, s, i, a);
    }
    assert TryOf(s, i, a) == TryIn(s.dispatchers[i].phase, a, |s.history| - 1);
    LoopFitsTries(s.dispatchers[i].phase, a, |s.history|, s.clock, tries);
  }

  lemma StepFitsTries(spec: Spec, s: System, i: nat, a: Action, tries: seq<Try>)
    requires s.history != [] && TriesOk(s, i, tries)
    ensures TriesOk(Step(spec, s, a), i, tries + TryOf(s, i, a))
  {
    assert tries + [] == tries;
    if i < |s.dispatchers| && Belongs(a, i) {
      var phase := s.dispatchers[i].phase;
      assert Step(spec, s, a) == DispatchStep(spec, s, i, a);
      if phase.Reading? || phase.Stamping? || phase.Writing? {
        LoopStepFitsTries(spec, s, i, a, tries);
      } else if !phase.Finished? {
        OutsideLoopFits(spec, s, i, a);
      }
    } else if !Belongs(a, i) {
      OthersLeaveDispatch(spec, s, i, a);
    }
  }

  lemma {:induction false} RunFitsTries(spec: Spec, s: System, actions: seq<Action>, i: nat)
    requires s.history != [] && TriesOk(s, i, [])
    ensures TriesOk(Exec(spec, s, actions), i, Tries(spec, s, actions, i))
  {
    if actions != [] {
      var before := actions[..|actions| - 1];
      RunFitsTries(spec, s, before, i);
      StepFitsTries(spec, Exec(spec, s, before), i, actions[|actions| - 1], Tries(spec, s, before, i));
    }
  }

  lemma FittingTriesDecide(outcome: Outcome, tries: seq<Try>)
    requires TriesFit(Finished(outcome), tries)
    ensures outcome == Counted <==> SomeTryWins(tries)
    ensures outcome == Counted || outcome == Uncounted <==> tries != []
    ensures |tries| <= ATTEMPTS
    ensures outcome == Uncounted && (forall t :: t in tries ==> !Fails(t)) ==> |tries| == ATTEMPTS && AllOvertaken(tries)
  {
    if tries != [] {
      var last := |tries| - 1;
      assert forall j :: 0 <= j < last ==> tries[..last][j] == tries[j];
      FirstToEndDecides(tries, last);
      if Overtaken(tries[last]) {
        FirstToEndDecides(tries, |tries|);
      }
      assert tries[last] in tries;
    }
  }

  /**
   One alert: it is counted exactly if one of its attempts was not overtaken by another write, no earlier
   one having met a failing Get or another error than a conflict. It makes no more than five, and gives
   up without an error only when five were overtaken.
   */
  lemma CountedIffSomeTryWins(spec: Spec, now: int, stored: Status, actions: seq<Action>, i: nat)
    requires Earlier(stored.lastTriggered, Some(now))
    requires i < |Exec(spec, Start(now, stored), actions).dispatchers|
    requires Exec(spec, Start(now, stored), actions).dispatchers[i].phase.Finished?
    ensures var d, tries := Exec(spec, Start(now, stored), actions).dispatchers[i], Tries(spec, Start(now, stored), actions, i);
            && (IsCounted(d) <==> SomeTryWins(tries))
            && (HasDelivered(d) <==> tries != [])
            && |tries| <= 5
            && (IsUncounted(d) && (forall t :: t in tries ==> !Fails(t)) ==> |tries| == 5 && AllOvertaken(tries))
  {
    RunFitsTries(spec, Start(now, stored), actions, i);
    FollowUpIffDelivered(spec, now, stored, actions, i);
    FittingTriesDecide(Exec(spec, Start(now, stored), actions).dispatchers[i].phase.outcome,
                       Tries(spec, Start(now, stored), actions, i));
  }

  /**
   What the count means for the alerts that got through: once every dispatch is over, the count has
   grown by their number exactly if each had an attempt that won before any had failed.
   */
  lemma CountsEveryAlertIff(spec: Spec, now: int, stored: Status, actions: seq<Action>)
    requires Earlier(stored.lastTriggered, Some(now))
    requires forall d :: d in Exec(spec, Start(now, stored), actions).dispatchers ==> d.phase.Finished?
    ensures var s := Exec(spec, Start(now, stored), actions);
            && (s.history[Latest(s)].sentCount == stored.sentCount + CountIf(s.dispatchers, HasDelivered) <==>
                forall i :: 0 <= i < |s.dispatchers| && HasDelivered(s.dispatchers[i]) ==>
                              SomeTryWins(Tries(spec, Start(now, stored), actions, i)))
            && s.history[Latest(s)].sentCount <= stored.sentCount + CountIf(s.dispatchers, HasDelivered)
  {
    var s := Exec(spec, Start(now, stored), actions);
    DeliveredIsCountedOrNot(spec, now, stored, actions);
    NoLostCounts(spec, now, stored, actions);
    CountAll(s.dispatchers, IsUncounted);
    forall i | 0 <= i < |s.dispatchers|
      ensures IsUncounted(s.dispatchers[i]) <==>
              HasDelivered(s.dispatchers[i]) && !SomeTryWins(Tries(spec, Start(now, stored), actions, i))
    {
      assert s.dispatchers[i] in s.dispatchers;
      CountedIffSomeTryWins(spec, now, stored, actions, i);
      FollowUpIffDelivered(spec, now, stored, actions, i);
    }
  }

  lemma DeliveredIsCountedOrNot(spec: Spec, now: int, stored: Status, actions: seq<Action>)
    requires Earlier(stored.lastTriggered, Some(now))
    requires forall d :: d in Exec(spec, Start(now, stored), actions).dispatchers ==> d.phase.Finished?
    ensures var s := Exec(spec, Start(now, stored), actions);
            CountIf(s.dispatchers, HasDelivered) == CountIf(s.dispatchers, IsCounted) + CountIf(s.dispatchers, IsUncounted)
  {
    var s := Exec(spec, Start(now, stored), actions);
    ExecKeepsInv(spec, now, stored, actions);
    assert forall i :: 0 <= i < |s.dispatchers| ==> s.dispatchers[i] in s.dispatchers;
    assert forall i :: 0 <= i < |s.dispatchers| ==> DispatcherOk(spec, s.clock, s.history, s.dispatchers[i]);
    CountDisjoint(s.dispatchers, IsCounted, IsUncounted, HasDelivered);
  }

  // ----- an alert that was sent and never counted -----

  /** One attempt that loses the race against an edit made after its read. */
  function LostAttempt(s: System, i: nat): seq<Action>
    requires s.history != []
  {
    [ReadStatus(i, Latest(s), true), Stamp(i), EditSpec, WriteStatus(i, true)]
  }

  lemma FourSteps(spec: Spec, s: System, a: Action, b: Action, c: Action, d: Action)
    requires s.history != []
    ensures Exec(spec, s, [a, b, c, d]) == Step(spec, Step(spec, Step(spec, Step(spec, s, a), b), c), d)
  {
    var step := StepOf(spec);
    RunOne(step, s, a);
    RunGrows(step, s, [a], b);
    RunGrows(step, s, [a, b], c);
    RunGrows(step, s, [a, b, c], d);
    assert [a] + [b] == [a, b] && [a, b] + [c] == [a, b, c] && [a, b, c] + [d] == [a, b, c, d];
  }

  lemma LostAttemptLosesRace(spec: Spec, s: System, i: nat)
    requires s.history != [] && i < |s.dispatchers| && s.dispatchers[i].phase.Reading?
    ensures var s', attempt := Exec(spec, s, LostAttempt(s, i)), s.dispatchers[i].phase.attempt;
            && |s'.dispatchers| == |s.dispatchers|
            && s'.dispatchers[i].phase == (if attempt < ATTEMPTS then Reading(attempt + 1) else Finished(Uncounted))
            && s'.history[Latest(s')] == s.history[Latest(s)]
  {
    FourSteps(spec, s, ReadStatus(i, Latest(s), true), Stamp(i), EditSpec, WriteStatus(i, true));
    var d, n, k := s.dispatchers[i], Latest(s), s.dispatchers[i].phase.attempt;
    var s1, s2 := With(s, i, d.(phase := Stamping(k, n))), With(s, i, d.(phase := Writing(k, n, s.clock)));
    assert Step(spec, s, ReadStatus(i, n, true)) == s1;
    assert Step(spec, s1, Stamp(i)) == s2;
    assert Step(spec, s2, EditSpec) == s2.(history := s.history + [s.history[n]]);
  }

  lemma ExecConcat(spec: Spec, s: System, a: seq<Action>, b: seq<Action>)
    requires s.history != []
    ensures Exec(spec, s, a + b) == Exec(spec, Exec(spec, s, a), b)
  {
    RunConcat(StepOf(spec), s, a, b);
  }

  /** Edits can outrun all the attempts: the alert is out, and the count stays what it was. */
  lemma {:induction false} EditsOutrunAttempts(spec: Spec, s: System, i: nat) returns (actions: seq<Action>)
    requires s.history != [] && i < |s.dispatchers|
    requires s.dispatchers[i].phase.Reading? && s.dispatchers[i].phase.attempt <= ATTEMPTS
    ensures var s' := Exec(spec, s, actions);
            && i < |s'.dispatchers| && s'.dispatchers[i].phase == Finished(Uncounted)
            && s'.history[Latest(s')].sentCount == s.history[Latest(s)].sentCount
    decreases ATTEMPTS - s.dispatchers[i].phase.attempt
  {
    LostAttemptLosesRace(spec, s, i);
    actions := LostAttempt(s, i);
    if s.dispatchers[i].phase.attempt < ATTEMPTS {
      var more := EditsOutrunAttempts(spec, Exec(spec, s, actions), i);
      ExecConcat(spec, s, actions, more);
      actions := actions + more;
    }
  }

  lemma {:induction false} InvStays(spec: Spec, t0: int, s: System, actions: seq<Action>)
    requires Inv(spec, t0, s)
    ensures Inv(spec, t0, Exec(spec, s, actions))
  {
    if actions != [] {
      InvStays(spec, t0, s, actions[..|actions| - 1]);
      StepKeepsInv(spec, t0, Exec(spec, s, actions[..|actions| - 1]), actions[|actions| - 1]);
    }
  }

  /** Long enough for the limiter to forget a burst. */
  function Pause(spec: Spec): nat {
    if spec.period < 0 then 0 else spec.period + 1
  }

  /** After a pause the limiter allows a call, whatever went before. */
  lemma LimiterForgets(spec: Spec, t0: int, clock: int, calls: seq<Call>, c: Call)
    requires CallsOk(spec, t0, clock, calls)
    requires c.period == spec.period && c.checkedAt == clock + Pause(spec)
    ensures Permits(Lookup(Replay(calls), c.key), c)
  {
    EntryIsLastAllowed(calls, c.key);
  }

  lemma GateOpens(spec: Spec, t0: int, s: System, i: nat)
    requires s.history != [] && CallsOk(spec, t0, s.clock, s.calls)
    requires i < |s.dispatchers| && s.dispatchers[i].phase == Gate
    ensures var r := Exec(spec, s, [Wait(Pause(spec)), PassGate(i, 0), Resolve(i, 1), Wait(0)]);
            && r.history == s.history && |r.dispatchers| == |s.dispatchers|
            && r.dispatchers[i].phase == Notifying(Initial(1))
  {
    FourSteps(spec, s, Wait(Pause(spec)), PassGate(i, 0), Resolve(i, 1), Wait(0));
    var s1 := s.(clock := s.clock + Pause(spec));
    var c := Call(KeyOf(spec, s.dispatchers[i].rule), spec.limit, spec.period, s1.clock, s1.clock);
    LimiterForgets(spec, t0, s.clock, s.calls, c);
    var s2 := Step(spec, s1, PassGate(i, 0));
    assert s2.history == s.history && |s2.dispatchers| == |s.dispatchers| && s2.dispatchers[i].phase == Resolving;
  }

  /** A single sender that succeeds. */
  lemma OneSenderSucceeds()
    ensures FanStep(FanStep(FanStep(FanStep(Initial(1), Launch), Deliver(0)), Finish(0)), Close) ==
            Fan([Done(true)], 1, 0, 1, true, false)
  {
    assert Initial(1).senders == [Unborn];
  }

  lemma FanMoves(spec: Spec, s: System, i: nat, fan: Fan, a: FanAction)
    requires s.history != [] && i < |s.dispatchers| && s.dispatchers[i].phase == Notifying(fan)
    ensures var r := Step(spec, s, FanMove(i, a));
            r.history == s.history && |r.dispatchers| == |s.dispatchers| &&
            r.dispatchers[i].phase == Notifying(FanStep(fan, a))
  {
  }

  lemma OneAlertIsNotified(spec: Spec, s: System, i: nat)
    requires s.history != [] && i < |s.dispatchers| && s.dispatchers[i].phase == Notifying(Initial(1))
    ensures var r := Exec(spec, s, [FanMove(i, Launch), FanMove(i, Deliver(0)), FanMove(i, Finish(0)), FanMove(i, Close)]);
            && r.history == s.history && |r.dispatchers| == |s.dispatchers|
            && r.dispatchers[i].phase == Notifying(Fan([Done(true)], 1, 0, 1, true, false))
  {
    FourSteps(spec, s, FanMove(i, Launch), FanMove(i, Deliver(0)), FanMove(i, Finish(0)), FanMove(i, Close));
    OneSenderSucceeds();
    var f1 := FanStep(Initial(1), Launch);
    var f2 := FanStep(f1, Deliver(0));
    var s1 := Step(spec, s, FanMove(i, Launch));
    var s2 := Step(spec, s1, FanMove(i, Deliver(0)));
    var s3 := Step(spec, s2, FanMove(i, Finish(0)));
    FanMoves(spec, s, i, Initial(1), Launch);
    FanMoves(spec, s1, i, f1, Deliver(0));
    FanMoves(spec, s2, i, f2, Finish(0));
    FanMoves(spec, s3, i, FanStep(f2, Finish(0)), Close);
  }

  lemma SuccessIsFollowedUp(spec: Spec, s: System, i: nat)
    requires s.history != [] && i < |s.dispatchers|
    requires s.dispatchers[i].phase == Notifying(Fan([Done(true)], 1, 0, 1, true, false))
    ensures var r := Exec(spec, s, [Conclude(i), Record(i), Wait(0), Wait(0)]);
            && r.history == s.history && |r.dispatchers| == |s.dispatchers|
            && r.dispatchers[i].phase == Reading(1)
  {
    FourSteps(spec, s, Conclude(i), Record(i), Wait(0), Wait(0));
  }

  /** Steps of the i-th dispatch and the passing of time. */
  predicate OwnSteps(actions: seq<Action>, i: nat) {
    forall k :: 0 <= k < |actions| ==> actions[k].Wait? || Belongs(actions[k], i)
  }

  /** From any state, an alert at the gate can get through to one target and come to be counted. */
  lemma AlertGetsThrough(spec: Spec, t0: int, s: System, i: nat) returns (actions: seq<Action>)
    requires s.history != [] && CallsOk(spec, t0, s.clock, s.calls)
    requires i < |s.dispatchers| && s.dispatchers[i].phase == Gate
    ensures OwnSteps(actions, i)
    ensures var r := Exec(spec, s, actions);
            && r.history == s.history && |r.dispatchers| == |s.dispatchers|
            && r.dispatchers[i].phase == Reading(1)
  {
    var a := [Wait(Pause(spec)), PassGate(i, 0), Resolve(i, 1), Wait(0)];
    var b := [FanMove(i, Launch), FanMove(i, Deliver(0)), FanMove(i, Finish(0)), FanMove(i, Close)];
    var c := [Conclude(i), Record(i), Wait(0), Wait(0)];
    GateOpens(spec, t0, s, i);
    OneAlertIsNotified(spec, Exec(spec, s, a), i);
    ExecConcat(spec, s, a, b);
    SuccessIsFollowedUp(spec, Exec(spec, s, a + b), i);
    ExecConcat(spec, s, a + b, c);
    actions := a + b + c;
  }

  /** An undisturbed attempt counts the alert. */
  lemma FreshAttemptCounts(spec: Spec, s: System, i: nat)
    requires s.history != [] && i < |s.dispatchers| && s.dispatchers[i].phase == Reading(1)
    ensures var r := Exec(spec, s, [ReadStatus(i, Latest(s), true), Stamp(i), WriteStatus(i, true), Wait(0)]);
            && |r.history| == |s.history| + 1 && |r.dispatchers| == |s.dispatchers|
            && r.history[Latest(r)].sentCount == s.history[Latest(s)].sentCount + 1
            && r.dispatchers[i].phase == Finished(Counted)
  {
    FourSteps(spec, s, ReadStatus(i, Latest(s), true), Stamp(i), WriteStatus(i, true), Wait(0));
    var d, n := s.dispatchers[i], Latest(s);
    var s1, s2 := With(s, i, d.(phase := Stamping(1, n))), With(s, i, d.(phase := Writing(1, n, s.clock)));
    assert Step(spec, s, ReadStatus(i, n, true)) == s1;
    assert Step(spec, s1, Stamp(i)) == s2;
  }

  /** Whatever the spec, some run sends an alert that is never counted. */
  lemma SentAlertMayGoUncounted(spec: Spec, now: int, stored: Status, rule: string) returns (actions: seq<Action>)
    ensures var s := Exec(spec, Start(now, stored), actions);
            && |s.dispatchers| > 0 && s.dispatchers[0].phase == Finished(Uncounted)
            && s.history[Latest(s)].sentCount == stored.sentCount
  {
    var begin := [Begin(rule)];
    var s := Exec(spec, Start(now, stored), begin);
    RunOne(StepOf(spec), Start(now, stored), Begin(rule));
    assert s.dispatchers == [Dispatcher(rule, Gate, 0, 0, 0)];
    var first := AlertGetsThrough(spec, now, s, 0);
    ExecConcat(spec, Start(now, stored), begin, first);
    var rest := EditsOutrunAttempts(spec, Exec(spec, s, first), 0);
    ExecConcat(spec, Start(now, stored), begin + first, rest);
    actions := begin + first + rest;
  }

  // ----- the retry loop (lines 756-767) -----

  /**
   One attempt: whether its Get succeeds, the version it returns, the writes by others that land before
   its own (true for one that counts an alert), whether its update fails other than by a conflict, and
   its clock reading.
   */
  datatype Attempt = Attempt(got: bool, seen: nat, others: seq<bool>, broken: bool, now: int)

  predicate Counts(other: bool) { other }

  /** How many versions the others have added before the k-th attempt, and how many alerts they counted. */
  function WrittenBefore(attempts: seq<Attempt>, k: nat): nat
    requires k <= |attempts|
  {
    if k == 0 then 0 else WrittenBefore(attempts, k - 1) + |attempts[k - 1].others|
  }

  function CountedByOthers(attempts: seq<Attempt>, k: nat): nat
    requires k <= |attempts|
  {
    if k == 0 then 0
    else CountedByOthers(attempts, k - 1) + if attempts[k - 1].got then CountIf(attempts[k - 1].others, Counts) else 0
  }

  /** A version as read, given how many there are: the newest stands for any number beyond. */
  function Clamped(seen: nat, versions: nat): nat
    requires versions > 0
  {
    if seen < versions then seen else versions - 1
  }

  /** What an attempt meets that begins at the given number of versions. */
  function Met(a: Attempt, versions: nat): Try
    requires versions > 0
  {
    Try(a.got, Clamped(a.seen, versions), versions + |a.others| - 1, a.broken)
  }

  /** An attempt wins if it reads the latest version and nobody writes before it does, and nothing fails. */
  lemma AttemptWinsIff(a: Attempt, versions: nat)
    requires versions > 0
    ensures Wins(Met(a, versions)) <==> a.got && !a.broken && a.others == [] && a.seen + 1 >= versions
    ensures Overtaken(Met(a, versions)) <==> a.got && !a.broken && (a.others != [] || a.seen + 1 < versions)
  {
  }

  /** What the attempts of a loop begun at the given number of versions meet, if all are made. */
  function TriesOf(versions: nat, attempts: seq<Attempt>): (r: seq<Try>)
    requires versions > 0
    ensures |r| == |attempts|
  {
    seq(|attempts|, k requires 0 <= k < |attempts| => Met(attempts[k], versions + WrittenBefore(attempts, k)))
  }

  class StatusStore {
    var history: seq<Status>

    constructor (stored: Status)
      ensures history == [stored]
    {
      history := [stored];
    }

    /** Writes by reconcilers and spec edits, and counts by other dispatches. */
    method OthersWrite(others: seq<bool>)
      requires history != []
      modifies this
      ensures |history| == |old(history)| + |others| && old(history) <= history
      ensures history[|history| - 1].sentCount == old(history[|history| - 1]).sentCount + CountIf(others, Counts)
    {
      for i := 0 to |others|
        invariant |history| == |old(history)| + i && old(history) <= history
        invariant history[|history| - 1].sentCount == old(history[|history| - 1]).sentCount + CountIf(others[..i], Counts)
      {
        var latest := history[|history| - 1];
        assert others[..i + 1][..i] == others[..i];
        history := history + [if others[i] then latest.(sentCount := latest.sentCount + 1) else latest];
      }
      assert others[..|others|] == others;
    }

    /** One attempt, up to its end: counted, or over without a count, or to be made again. */
    method MakeAttempt(a: Attempt) returns (counted: bool, over: bool)
      requires history != []
      modifies this
      ensures old(history) <= history
      ensures var t := Met(a, |old(history)|); counted == Wins(t) && over == !Overtaken(t)
      ensures counted <==> a.got && !a.broken && a.others == [] && a.seen + 1 >= |old(history)|
      ensures over <==> counted || !a.got || a.broken
      ensures over || |history| == |old(history)| + |a.others|
      ensures history[|history| - 1].sentCount ==
              old(history[|history| - 1]).sentCount +
              (if a.got then CountIf(a.others, Counts) else 0) + (if counted then 1 else 0)
      ensures counted ==> history[|history| - 1].lastTriggered == Some(a.now)
    {
      if !a.got {
        return false, true;
      }
      var seen := Clamped(a.seen, |history|);
      var latest := history[seen];
      latest := latest.(sentCount := latest.sentCount + 1, lastTriggered := Some(a.now));
      OthersWrite(a.others);
      if a.broken {
        return false, true;
      }
      if seen == |history| - 1 {
        assert a.others == [];
        history := history + [latest];
        return true, true;
      }
      return false, false;
    }

    /**
     The alert is counted exactly if some attempt is not overtaken and none before it failed, and then
     once: the rest of the growth is the others'. The loop makes no attempt beyond the one that ends it.
     */
    method CountAlert(attempts: seq<Attempt>) returns (counted: bool, made: nat)
      requires |attempts| == 5 && history != []
      modifies this
      ensures history != [] && old(history) <= history
      ensures counted <==> SomeTryWins(TriesOf(|old(history)|, attempts))
      ensures 1 <= made <= 5
      ensures forall j :: 0 <= j < made - 1 ==> Overtaken(TriesOf(|old(history)|, attempts)[j])
      ensures made == 5 || !Overtaken(TriesOf(|old(history)|, attempts)[made - 1])
      ensures history[|history| - 1].sentCount ==
              old(history[|history| - 1]).sentCount + CountedByOthers(attempts, made) + if counted then 1 else 0
      ensures counted ==> history[|history| - 1].lastTriggered == Some(attempts[made - 1].now)
    {
      ghost var start, tries := history, TriesOf(|history|, attempts);
      made := 0;
      counted := false;
      var over := false;
      while made < ATTEMPTS && !over
        invariant 0 <= made <= ATTEMPTS && (over ==> made > 0) && (counted ==> over)
        invariant start <= history
        invariant !over ==> |history| == |start| + WrittenBefore(attempts, made)
        invariant history[|history| - 1].sentCount ==
                  start[|start| - 1].sentCount + CountedByOthers(attempts, made) + if counted then 1 else 0
        invariant forall j :: 0 <= j < (if over then made - 1 else made) ==> Overtaken(tries[j])
        invariant over ==> !Overtaken(tries[made - 1]) && counted == Wins(tries[made - 1])
        invariant counted ==> history[|history| - 1].lastTriggered == Some(attempts[made - 1].now)
        decreases ATTEMPTS - made
      {
        ghost var before := history;
        assert tries[made] == Met(attempts[made], |before|);
        counted, over := MakeAttempt(attempts[made]);
        assert start <= history by {
          PrefixIsTransitive(start, before, history);
        }
        made := made + 1;
      }
      FirstToEndDecides(tries, if over then made - 1 else ATTEMPTS);
    }
  }

  lemma PrefixIsTransitive<T>(a: seq<T>, b: seq<T>, c: seq<T>)
    requires a <= b <= c
    ensures a <= c
  {
  }
}
