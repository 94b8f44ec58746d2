/**
 What an alert does to the monitor it comes from. Counting it is a write to the MonitorPod; the
 reconciler watches MonitorPods without a filter (internal/controller/monitorpod_controller.go:1080-1087)
 and restarts the monitor in every pass that lists its pods (line 203); and a stream reads its pod's log
 from the start (line 305).

 An Operator is one MonitorPod's dispatches and status, the monitors and streams of the process, and
 between them the watch on the MonitorPod and the request it leads to. Streams are in single-line mode
 with one rule.
 */
module Feedback {
  import opened Wrappers
  import opened Counting
  import opened Runs
  import D = Dispatch
  import M = MonitorLifecycle
  import R = RateLimiter

  /** `log` is what a pod has logged. */
  datatype Setup = Setup(spec: D.Spec, rule: string, matches: string -> bool, log: string -> seq<string>)

  /**
   `positions`: how many lines each stream has read; `drained`: which have read a line since they were
   cancelled, which a read under way allows once (LogStream.CancelledStreamStops). `delivered`: how many versions of the MonitorPod the
   watch has delivered. `pending`: a request is queued.
   */
  datatype Operator = Operator(
    system: D.System,
    world: M.World,
    positions: map<M.Ctx, nat>,
    drained: set<M.Ctx>,
    delivered: nat,
    pending: bool
  )

  datatype Action =
    | Alerting(alert: D.Action)
    | Monitoring(monitor: M.Action)
    | Read(s: M.Ctx)            // a stream reads a line, and dispatches it if it matches
    | Deliver                   // the watch delivers a version, and a request is queued
    | Reconcile(listed: bool)   // the request's pass; when the pods cannot be listed it is queued again

  function MonitorKey(spec: D.Spec): string {
    spec.namespace + "/" + spec.name
  }

  /** Two MonitorPods share a monitor only if they are the same, namespaces and names having no slash. */
  lemma MonitorKeyIsInjective(a: D.Spec, b: D.Spec)
    requires '/' !in a.namespace && '/' !in b.namespace
    ensures MonitorKey(a) == MonitorKey(b) <==> a.namespace == b.namespace && a.name == b.name
  {
    if MonitorKey(a) == MonitorKey(b) {
      R.FirstSlashSplits(a.namespace, b.namespace, a.name, b.name);
    }
  }

  predicate IsMonitors(w: M.World, s: M.Ctx, key: string) {
    s in w.streams && w.streams[s].loop in w.loops && w.loops[w.streams[s].loop].key == key
  }

  function Position(o: Operator, s: M.Ctx): nat {
    if s in o.positions then o.positions[s] else 0
  }

  /** An empty buffer is never flushed, so an empty line is no event. */
  predicate Matching(setup: Setup, line: string) {
    line != "" && setup.matches(line)
  }

  /** The stream is the monitor's, its log goes on, and it is live or has just been cancelled. */
  predicate MayRead(setup: Setup, o: Operator, s: M.Ctx) {
    && IsMonitors(o.world, s, MonitorKey(setup.spec))
    && Position(o, s) < |setup.log(o.world.streams[s].pod)|
    && (M.Cancelled(o.world.contexts, s) ==> s !in o.drained)
  }

  function Step(setup: Setup, o: Operator, a: Action): Operator {
    match a
    case Alerting(a) => o.(system := D.Step(setup.spec, o.system, a))
    case Monitoring(a) => o.(world := M.Step(o.world, a))
    case Read(s) =>
      if !MayRead(setup, o, s) then o
      else
        var line := setup.log(o.world.streams[s].pod)[Position(o, s)];
        o.(positions := o.positions[s := Position(o, s) + 1],
           drained := if M.Cancelled(o.world.contexts, s) then o.drained + {s} else o.drained,
           system := if Matching(setup, line) then D.Step(setup.spec, o.system, D.Begin(setup.rule)) else o.system)
    case Deliver =>
      if o.delivered >= |o.system.history| then o else o.(delivered := o.delivered + 1, pending := true)
    case Reconcile(listed) =>
      if !o.pending || !listed then o
      else o.(pending := false, world := M.Step(o.world, M.Start(MonitorKey(setup.spec))))
  }

  function StepOf(setup: Setup): (Operator, Action) -> Operator {
    (o: Operator, a: Action) => Step(setup, o, a)
  }

  function Exec(setup: Setup, o: Operator, actions: seq<Action>): Operator {
    Run(StepOf(setup), o, actions)
  }

  /** The process starts: the MonitorPod is there, nothing of it delivered yet. */
  function Initial(now: int, stored: D.Status): Operator {
    Operator(D.Start(now, stored), M.INITIAL, map[], {}, 0, false)
  }

  // ----- every count is followed by a restart -----

  ghost predicate Inv(o: Operator) {
    && M.Inv(o.world) && o.system.history != [] && o.delivered <= |o.system.history|
  }

  lemma HistoryGrows(setup: Setup, s: D.System, a: D.Action)
    requires s.history != []
    ensures |D.Step(setup.spec, s, a).history| >= |s.history|
  {
  }

  lemma StepKeepsInv(setup: Setup, o: Operator, a: Action)
    requires Inv(o)
    ensures Inv(Step(setup, o, a))
    ensures |Step(setup, o, a).system.history| >= |o.system.history|
  {
    match a
    case Alerting(a) => HistoryGrows(setup, o.system, a);
    case Monitoring(a) => M.StepKeepsInv(o.world, a);
    case Read(_) => HistoryGrows(setup, o.system, D.Begin(setup.rule));
    case Deliver =>
    case Reconcile(_) => M.StepKeepsInv(o.world, M.Start(MonitorKey(setup.spec)));
  }

  lemma {:induction false} ExecKeepsInv(setup: Setup, o: Operator, actions: seq<Action>)
    requires Inv(o)
    ensures Inv(Exec(setup, o, actions))
  {
    if actions != [] {
      ExecKeepsInv(setup, o, actions[..|actions| - 1]);
      StepKeepsInv(setup, Exec(setup, o, actions[..|actions| - 1]), actions[|actions| - 1]);
    }
  }

  /** Streams and loops are never forgotten, nor what they belong to. */
  ghost predicate Remembers(w: M.World, w': M.World) {
    && (forall s :: s in w.streams ==> s in w'.streams && w'.streams[s] == w.streams[s])
    && (forall l :: l in w.loops ==> l in w'.loops && w'.loops[l].key == w.loops[l].key)
  }

  lemma NextIsUnused(w: M.World)
    requires M.Inv(w)
    ensures |w.contexts| !in w.streams && |w.contexts| !in w.loops
  {
    assert forall s :: s in w.streams ==> M.StreamOk(w, s);
    assert forall l :: l in w.loops ==> M.LoopOk(w, l);
  }

  lemma StepKeepsStreams(w: M.World, a: M.Action, s: M.Ctx)
    requires s in w.streams && s != |w.contexts|
    ensures s in M.Step(w, a).streams && M.Step(w, a).streams[s] == w.streams[s]
  {
  }

  lemma StepKeepsLoops(w: M.World, a: M.Action, l: M.Ctx)
    requires l in w.loops && l != |w.contexts|
    ensures l in M.Step(w, a).loops && M.Step(w, a).loops[l].key == w.loops[l].key
  {
  }

  lemma StepRemembers(w: M.World, a: M.Action)
    requires M.Inv(w)
    ensures Remembers(w, M.Step(w, a))
  {
    NextIsUnused(w);
    var w' := M.Step(w, a);
    forall s | s in w.streams ensures s in w'.streams && w'.streams[s] == w.streams[s] {
      StepKeepsStreams(w, a, s);
    }
    forall l | l in w.loops ensures l in w'.loops && w'.loops[l].key == w.loops[l].key {
      StepKeepsLoops(w, a, l);
    }
  }

  /** Every stream of the monitor in the earlier world is cancelled in the later one. */
  ghost predicate OldCancelled(w: M.World, w': M.World, key: string) {
    forall s :: IsMonitors(w, s, key) ==> M.Cancelled(w'.contexts, s)
  }

  lemma StartCancelsOld(w: M.World, w': M.World, key: string)
    requires M.Inv(w') && Remembers(w, w')
    ensures OldCancelled(w, M.Step(w', M.Start(key)), key)
  {
    forall s | IsMonitors(w, s, key) ensures M.Cancelled(M.Step(w', M.Start(key)).contexts, s) {
      M.RestartCancelsOldStreams(w', key, false, s);
    }
  }

  lemma CancelledStays(w: M.World, w': M.World, a: M.Action, key: string)
    requires OldCancelled(w, w', key)
    ensures OldCancelled(w, M.Step(w', a), key)
  {
    forall s | IsMonitors(w, s, key) ensures M.Cancelled(M.Step(w', a).contexts, s) {
      M.StepKeepsCancelled(w', a, s);
    }
  }

  /** Since a moment with a version undelivered: it still is, or its request is queued, or the restart has come. */
  ghost predicate RestartDue(setup: Setup, o: Operator, o': Operator) {
    && Inv(o') && Remembers(o.world, o'.world)
    && (o'.delivered < |o.system.history| || o'.pending || OldCancelled(o.world, o'.world, MonitorKey(setup.spec)))
    && |o.system.history| <= |o'.system.history|
  }

  lemma StepKeepsRestartDue(setup: Setup, o: Operator, o': Operator, a: Action)
    requires RestartDue(setup, o, o')
    ensures RestartDue(setup, o, Step(setup, o', a))
  {
    var key := MonitorKey(setup.spec);
    StepKeepsInv(setup, o', a);
    match a
    case Monitoring(a) =>
      StepRemembers(o'.world, a);
      if OldCancelled(o.world, o'.world, key) {
        CancelledStays(o.world, o'.world, a, key);
      }
    case Reconcile(listed) =>
      if o'.pending && listed {
        StepRemembers(o'.world, M.Start(key));
        StartCancelsOld(o.world, o'.world, key);
      }
    case _ =>
  }

  lemma {:induction false} RestartStaysDue(setup: Setup, o: Operator, actions: seq<Action>)
    requires Inv(o) && o.delivered < |o.system.history|
    ensures RestartDue(setup, o, Exec(setup, o, actions))
  {
    if actions != [] {
      RestartStaysDue(setup, o, actions[..|actions| - 1]);
      StepKeepsRestartDue(setup, o, Exec(setup, o, actions[..|actions| - 1]), actions[|actions| - 1]);
    }
  }

  /**
   Every count restarts its monitor. In every interleaving: once the watch has delivered the write by which
   the i-th dispatch counted its alert, and no request is left, every stream that the monitor had at the
   time of the write is cancelled, so the streams it has now were opened since.
   */
  lemma EveryCountRestarts(setup: Setup, now: int, stored: D.Status, before: seq<Action>, i: nat, rest: seq<Action>)
    requires var o := Exec(setup, Initial(now, stored), before);
             i < |o.system.dispatchers| && !D.IsCounted(o.system.dispatchers[i])
    requires var o' := Exec(setup, Initial(now, stored), before + [Alerting(D.WriteStatus(i, true))]);
             i < |o'.system.dispatchers| && D.IsCounted(o'.system.dispatchers[i])
    ensures var key, w := MonitorKey(setup.spec), Exec(setup, Initial(now, stored), before).world;
            var r := Exec(setup, Initial(now, stored), before + [Alerting(D.WriteStatus(i, true))] + rest);
            r.delivered == |r.system.history| && !r.pending ==>
              && OldCancelled(w, r.world, key)
              && forall s, pod :: M.Live(r.world, s, key, pod) ==> !IsMonitors(w, s, key)
  {
    var start, write := Initial(now, stored), Alerting(D.WriteStatus(i, true));
    var o := Exec(setup, start, before);
    assert M.Inv(M.INITIAL);
    ExecKeepsInv(setup, start, before);
    RunGrows(StepOf(setup), start, before, write);
    var o' := Step(setup, o, write);
    CountingWrites(setup, o, i);
    StepKeepsInv(setup, o, write);
    RestartStaysDue(setup, o', rest);
    RunConcat(StepOf(setup), start, before + [write], rest);
  }

  lemma CountingWrites(setup: Setup, o: Operator, i: nat)
    requires Inv(o) && i < |o.system.dispatchers| && !D.IsCounted(o.system.dispatchers[i])
    requires D.IsCounted(D.Step(setup.spec, o.system, D.WriteStatus(i, true)).dispatchers[i])
    ensures |D.Step(setup.spec, o.system, D.WriteStatus(i, true)).history| == |o.system.history| + 1
  {
  }

  // ----- and, where the watch and the reconciler go on, soon enough -----

  ghost predicate Follows(setup: Setup, run: nat -> Operator, acts: nat -> Action, i: nat) {
    run(i + 1) == Step(setup, run(i), acts(i))
  }

  ghost predicate IsRun(setup: Setup, run: nat -> Operator, acts: nat -> Action) {
    Inv(run(0)) && forall i: nat {:trigger Follows(setup, run, acts, i)} :: Follows(setup, run, acts, i)
  }

  ghost predicate Happens(acts: nat -> Action, a: Action, from: nat) {
    exists j: nat :: j >= from && acts(j) == a
  }

  /** An undelivered version is delivered some time, and a queued request is reconciled, its pods listed. */
  ghost predicate FairAt(run: nat -> Operator, acts: nat -> Action, i: nat) {
    && (run(i).delivered < |run(i).system.history| ==> Happens(acts, Deliver, i))
    && (run(i).pending ==> Happens(acts, Reconcile(true), i))
  }

  ghost predicate Fair(run: nat -> Operator, acts: nat -> Action) {
    forall i: nat {:trigger FairAt(run, acts, i)} :: FairAt(run, acts, i)
  }

  lemma {:induction false} RunKeepsInv(setup: Setup, run: nat -> Operator, acts: nat -> Action, i: nat)
    requires IsRun(setup, run, acts)
    ensures Inv(run(i))
  {
    if i > 0 {
      RunKeepsInv(setup, run, acts, i - 1);
      assert Follows(setup, run, acts, i - 1);
      StepKeepsInv(setup, run(i - 1), acts(i - 1));
    }
  }

  lemma DeliveredRises(setup: Setup, o: Operator, a: Action)
    ensures Step(setup, o, a).delivered >= o.delivered
  {
  }

  lemma {:induction false} RestartDueInRun(setup: Setup, run: nat -> Operator, acts: nat -> Action, i: nat, j: nat)
    requires IsRun(setup, run, acts) && i <= j && run(i).delivered < |run(i).system.history|
    ensures RestartDue(setup, run(i), run(j))
    decreases j
  {
    if i < j {
      RestartDueInRun(setup, run, acts, i, j - 1);
      assert Follows(setup, run, acts, j - 1);
      StepKeepsRestartDue(setup, run(i), run(j - 1), acts(j - 1));
    } else {
      RunKeepsInv(setup, run, acts, i);
    }
  }

  lemma {:induction false} DeliveredStays(setup: Setup, run: nat -> Operator, acts: nat -> Action, i: nat, j: nat)
    requires IsRun(setup, run, acts) && i <= j
    ensures run(i).delivered <= run(j).delivered
    decreases j
  {
    if i < j {
      DeliveredStays(setup, run, acts, i, j - 1);
      assert Follows(setup, run, acts, j - 1);
      DeliveredRises(setup, run(j - 1), acts(j - 1));
    }
  }

  /** The first n versions are all delivered some time. */
  lemma {:induction false} VersionsArrive(setup: Setup, run: nat -> Operator, acts: nat -> Action, i: nat, n: nat)
    returns (k: nat)
    requires IsRun(setup, run, acts) && Fair(run, acts) && n <= |run(i).system.history|
    ensures k >= i && run(k).delivered >= n
    decreases n - run(i).delivered
  {
    k := i;
    if run(i).delivered < n {
      assert FairAt(run, acts, i);
      var d: nat :| d >= i && acts(d) == Deliver;
      DeliveredStays(setup, run, acts, i, d);
      VersionsStay(setup, run, acts, i, d + 1);
      assert Follows(setup, run, acts, d);
      VersionsStay(setup, run, acts, i, d);
      k := VersionsArrive(setup, run, acts, d + 1, n);
    }
  }

  lemma {:induction false} VersionsStay(setup: Setup, run: nat -> Operator, acts: nat -> Action, i: nat, j: nat)
    requires IsRun(setup, run, acts) && i <= j
    ensures |run(i).system.history| <= |run(j).system.history|
    decreases j
  {
    if i < j {
      VersionsStay(setup, run, acts, i, j - 1);
      RunKeepsInv(setup, run, acts, j - 1);
      assert Follows(setup, run, acts, j - 1);
      StepKeepsInv(setup, run(j - 1), acts(j - 1));
    }
  }

  lemma StepKeepsOldCancelled(setup: Setup, w: M.World, o: Operator, a: Action, key: string)
    requires OldCancelled(w, o.world, key)
    ensures OldCancelled(w, Step(setup, o, a).world, key)
  {
    match a
    case Monitoring(a) => CancelledStays(w, o.world, a, key);
    case Reconcile(_) => CancelledStays(w, o.world, M.Start(MonitorKey(setup.spec)), key);
    case _ =>
  }

  lemma {:induction false} OldStayCancelled(setup: Setup, run: nat -> Operator, acts: nat -> Action, w: M.World, k: nat, j: nat)
    requires IsRun(setup, run, acts) && k <= j && OldCancelled(w, run(k).world, MonitorKey(setup.spec))
    ensures OldCancelled(w, run(j).world, MonitorKey(setup.spec))
    decreases j
  {
    if k < j {
      OldStayCancelled(setup, run, acts, w, k, j - 1);
      assert Follows(setup, run, acts, j - 1);
      StepKeepsOldCancelled(setup, w, run(j - 1), acts(j - 1), MonitorKey(setup.spec));
    }
  }

  lemma ReconcileRestarts(setup: Setup, o: Operator, o': Operator)
    requires RestartDue(setup, o, o') && o'.delivered >= |o.system.history|
    ensures OldCancelled(o.world, Step(setup, o', Reconcile(true)).world, MonitorKey(setup.spec))
  {
    StepKeepsRestartDue(setup, o, o', Reconcile(true));
    DeliveredRises(setup, o', Reconcile(true));
  }

  lemma RequestIsServed(run: nat -> Operator, acts: nat -> Action, k: nat) returns (j: nat)
    requires Fair(run, acts) && run(k).pending
    ensures j >= k && acts(j) == Reconcile(true)
  {
    assert FairAt(run, acts, k);
    j :| j >= k && acts(j) == Reconcile(true);
  }

  /** A queued request leads to a restart. */
  lemma RequestRestarts(setup: Setup, run: nat -> Operator, acts: nat -> Action, i: nat, k: nat) returns (r: nat)
    requires IsRun(setup, run, acts) && Fair(run, acts) && run(i).delivered < |run(i).system.history|
    requires k >= i && run(k).pending && run(k).delivered >= |run(i).system.history|
    ensures r >= i && OldCancelled(run(i).world, run(r).world, MonitorKey(setup.spec))
  {
    var j := RequestIsServed(run, acts, k);
    assert run(j).delivered >= |run(i).system.history| by {
      DeliveredStays(setup, run, acts, k, j);
    }
    RestartDueInRun(setup, run, acts, i, j);
    ReconcileRestarts(setup, run(i), run(j));
    assert Follows(setup, run, acts, j);
    r := j + 1;
  }

  /** A version that is outstanding leads to a restart. */
  lemma OutstandingVersionRestarts(setup: Setup, run: nat -> Operator, acts: nat -> Action, i: nat) returns (k: nat)
    requires IsRun(setup, run, acts) && Fair(run, acts) && run(i).delivered < |run(i).system.history|
    ensures k >= i && OldCancelled(run(i).world, run(k).world, MonitorKey(setup.spec))
  {
    k := VersionsArrive(setup, run, acts, i, |run(i).system.history|);
    RestartDueInRun(setup, run, acts, i, k);
    if run(k).pending {
      k := RequestRestarts(setup, run, acts, i, k);
    }
  }

  /**
   In every endless run in which versions are delivered some time and requests reconciled some time, each
   count is followed by its restart: from some point on every stream that the monitor had when the i-th
   step counted an alert is cancelled.
   */
  lemma EveryCountRestartsEventually(setup: Setup, run: nat -> Operator, acts: nat -> Action, i: nat, d: nat)
    returns (k: nat)
    requires IsRun(setup, run, acts) && Fair(run, acts) && acts(i) == Alerting(D.WriteStatus(d, true))
    requires d < |run(i).system.dispatchers| && !D.IsCounted(run(i).system.dispatchers[d])
    requires d < |run(i + 1).system.dispatchers| && D.IsCounted(run(i + 1).system.dispatchers[d])
    ensures forall j: nat :: j >= k ==> OldCancelled(run(i).world, run(j).world, MonitorKey(setup.spec))
  {
    RunKeepsInv(setup, run, acts, i);
    assert Follows(setup, run, acts, i);
    CountingWrites(setup, run(i), d);
    k := OutstandingVersionRestarts(setup, run, acts, i + 1);
    forall j: nat | j >= k ensures OldCancelled(run(i).world, run(j).world, MonitorKey(setup.spec)) {
      OldStayCancelled(setup, run, acts, run(i).world, k, j);
    }
  }

  // ----- a line again only from another stream -----

  /** A dispatched line: the stream that read it, where in which pod's log, and after how many actions. */
  datatype Sent = Sent(stream: M.Ctx, pod: string, line: nat, at: nat)

  function SentBy(setup: Setup, o: Operator, a: Action, at: nat): seq<Sent> {
    if a.Read? && MayRead(setup, o, a.s) &&
       Matching(setup, setup.log(o.world.streams[a.s].pod)[Position(o, a.s)])
    then [Sent(a.s, o.world.streams[a.s].pod, Position(o, a.s), at)]
    else []
  }

  /** The lines a run dispatches, in order. */
  function Sents(setup: Setup, o: Operator, actions: seq<Action>): seq<Sent> {
    if actions == [] then []
    else
      var n := |actions| - 1;
      Sents(setup, o, actions[..n]) + SentBy(setup, Exec(setup, o, actions[..n]), actions[n], n)
  }

  /** The stream is there, and has read past the line. */
  ghost predicate SentOk(setup: Setup, o: Operator, x: Sent) {
    && IsMonitors(o.world, x.stream, MonitorKey(setup.spec)) && o.world.streams[x.stream].pod == x.pod
    && x.line < Position(o, x.stream)
  }

  lemma PositionsRise(setup: Setup, o: Operator, a: Action, s: M.Ctx)
    ensures Position(Step(setup, o, a), s) >= Position(o, s)
  {
  }

  lemma WorldRemembers(setup: Setup, o: Operator, a: Action)
    requires Inv(o)
    ensures Remembers(o.world, Step(setup, o, a).world)
  {
    match a
    case Monitoring(a) => StepRemembers(o.world, a);
    case Reconcile(_) => StepRemembers(o.world, M.Start(MonitorKey(setup.spec)));
    case _ =>
  }

  lemma StepKeepsSentOk(setup: Setup, o: Operator, a: Action, x: Sent)
    requires Inv(o) && (SentOk(setup, o, x) || x in SentBy(setup, o, a, x.at))
    ensures SentOk(setup, Step(setup, o, a), x)
  {
    WorldRemembers(setup, o, a);
    PositionsRise(setup, o, a, x.stream);
  }

  lemma {:induction false} SentsAreOk(setup: Setup, o: Operator, actions: seq<Action>, x: Sent)
    requires Inv(o) && x in Sents(setup, o, actions)
    ensures SentOk(setup, Exec(setup, o, actions), x) && x.at < |actions|
  {
    var n := |actions| - 1;
    var before := Exec(setup, o, actions[..n]);
    ExecKeepsInv(setup, o, actions[..n]);
    if x in Sents(setup, o, actions[..n]) {
      SentsAreOk(setup, o, actions[..n], x);
    }
    StepKeepsSentOk(setup, before, actions[n], x);
  }

  lemma OnlyBeginAdds(spec: D.Spec, s: D.System, a: D.Action)
    requires s.history != []
    ensures |D.Step(spec, s, a).dispatchers| == |s.dispatchers| + if a.Begin? then 1 else 0
  {
  }

  lemma StepSends(setup: Setup, o: Operator, a: Action, at: nat)
    requires Inv(o) && !(a.Alerting? && a.alert.Begin?)
    ensures |Step(setup, o, a).system.dispatchers| == |o.system.dispatchers| + |SentBy(setup, o, a, at)|
  {
    match a
    case Alerting(a) => OnlyBeginAdds(setup.spec, o.system, a);
    case Read(_) => OnlyBeginAdds(setup.spec, o.system, D.Begin(setup.rule));
    case _ =>
  }

  /** The line is in its log, is not empty and matches. */
  predicate IsMatch(setup: Setup, x: Sent) {
    x.line < |setup.log(x.pod)| && setup.log(x.pod)[x.line] != "" && setup.matches(setup.log(x.pod)[x.line])
  }

  lemma {:induction false} SentsMatch(setup: Setup, o: Operator, actions: seq<Action>)
    ensures forall x :: x in Sents(setup, o, actions) ==> IsMatch(setup, x)
  {
    if actions != [] {
      SentsMatch(setup, o, actions[..|actions| - 1]);
    }
  }

  lemma {:induction false} ReadsAreCounted(setup: Setup, o: Operator, actions: seq<Action>)
    requires Inv(o) && forall k :: 0 <= k < |actions| ==> !(actions[k].Alerting? && actions[k].alert.Begin?)
    ensures |Exec(setup, o, actions).system.dispatchers| == |o.system.dispatchers| + |Sents(setup, o, actions)|
  {
    if actions != [] {
      var n := |actions| - 1;
      ReadsAreCounted(setup, o, actions[..n]);
      ExecKeepsInv(setup, o, actions[..n]);
      StepSends(setup, Exec(setup, o, actions[..n]), actions[n], n);
    }
  }

  /**
   What is dispatched is what the streams read: one dispatch for each line read that is not empty and matches,
   and none besides.
   */
  lemma ReadsAreDispatches(setup: Setup, now: int, stored: D.Status, actions: seq<Action>)
    requires forall k :: 0 <= k < |actions| ==> !(actions[k].Alerting? && actions[k].alert.Begin?)
    ensures var xs := Sents(setup, Initial(now, stored), actions);
            && |Exec(setup, Initial(now, stored), actions).system.dispatchers| == |xs|
            && forall k :: 0 <= k < |xs| ==>
                 && xs[k].line < |setup.log(xs[k].pod)| && setup.log(xs[k].pod)[xs[k].line] != ""
                 && setup.matches(setup.log(xs[k].pod)[xs[k].line])
  {
    assert M.Inv(M.INITIAL);
    ReadsAreCounted(setup, Initial(now, stored), actions);
    SentsMatch(setup, Initial(now, stored), actions);
    var xs := Sents(setup, Initial(now, stored), actions);
    forall k | 0 <= k < |xs| ensures IsMatch(setup, xs[k]) {
      assert xs[k] in xs;
    }
  }

  /** A stream that reads a line dispatched before is another one, and one of the two is cancelled. */
  lemma SecondReaderIsAnother(setup: Setup, o: Operator, x: Sent, a: Action, at: nat, y: Sent)
    requires Inv(o) && SentOk(setup, o, x) && y in SentBy(setup, o, a, at)
    requires x.pod == y.pod && x.line == y.line
    ensures x.stream != y.stream
    ensures M.Cancelled(o.world.contexts, x.stream) || M.Cancelled(o.world.contexts, y.stream)
  {
    var key := MonitorKey(setup.spec);
    if !M.Cancelled(o.world.contexts, x.stream) && !M.Cancelled(o.world.contexts, y.stream) {
      M.LiveIsRegistered(o.world, x.stream, key, x.pod);
      M.LiveIsRegistered(o.world, y.stream, key, y.pod);
    }
  }

  lemma StepKeepsCancelled(setup: Setup, o: Operator, a: Action, s: M.Ctx)
    requires M.Cancelled(o.world.contexts, s)
    ensures M.Cancelled(Step(setup, o, a).world.contexts, s)
  {
    match a
    case Monitoring(a) => M.StepKeepsCancelled(o.world, a, s);
    case Reconcile(_) => M.StepKeepsCancelled(o.world, M.Start(MonitorKey(setup.spec)), s);
    case _ =>
  }

  lemma ExecKeepsCancelled(setup: Setup, o: Operator, actions: seq<Action>, k: nat, s: M.Ctx)
    requires k <= |actions| && M.Cancelled(Exec(setup, o, actions[..k]).world.contexts, s)
    ensures M.Cancelled(Exec(setup, o, actions).world.contexts, s)
  {
    RunConcat(StepOf(setup), o, actions[..k], actions[k..]);
    assert actions[..k] + actions[k..] == actions;
    CancelledReadsOnceMore(setup, Exec(setup, o, actions[..k]), actions[k..], s);
  }

  /**
   When a line is alerted once. In every run, a line that is dispatched twice is so by two streams, of which
   one had been cancelled by the second time (and stays so): as long as no stream of a pod is cancelled, each
   of its lines is dispatched at most once.
   */
  lemma {:induction false} LineAgainMeansReplaced(
    setup: Setup, now: int, stored: D.Status, actions: seq<Action>, i: nat, j: nat)
    requires i < j < |Sents(setup, Initial(now, stored), actions)|
    requires var xs := Sents(setup, Initial(now, stored), actions); xs[i].pod == xs[j].pod && xs[i].line == xs[j].line
    ensures var xs := Sents(setup, Initial(now, stored), actions);
            && xs[i].stream != xs[j].stream && xs[j].at < |actions|
            && (var w := Exec(setup, Initial(now, stored), actions[..xs[j].at]).world;
                M.Cancelled(w.contexts, xs[i].stream) || M.Cancelled(w.contexts, xs[j].stream))
            && (var w := Exec(setup, Initial(now, stored), actions).world;
                M.Cancelled(w.contexts, xs[i].stream) || M.Cancelled(w.contexts, xs[j].stream))
    decreases |actions|
  {
    var start, n := Initial(now, stored), |actions| - 1;
    var xs, early := Sents(setup, start, actions), Sents(setup, start, actions[..n]);
    assert M.Inv(M.INITIAL);
    if j < |early| {
      LineAgainMeansReplaced(setup, now, stored, actions[..n], i, j);
      assert actions[..n][..xs[j].at] == actions[..xs[j].at];
    } else {
      ExecKeepsInv(setup, start, actions[..n]);
      assert xs[i] == early[i] && early[i] in early;
      SentsAreOk(setup, start, actions[..n], xs[i]);
      SecondReaderIsAnother(setup, Exec(setup, start, actions[..n]), xs[i], actions[n], n, xs[j]);
    }
    var s := if M.Cancelled(Exec(setup, start, actions[..xs[j].at]).world.contexts, xs[i].stream)
             then xs[i].stream else xs[j].stream;
    ExecKeepsCancelled(setup, start, actions, xs[j].at, s);
  }

  lemma CancelledReadDrains(setup: Setup, o: Operator, a: Action, s: M.Ctx)
    requires M.Cancelled(o.world.contexts, s)
    ensures var r := Step(setup, o, a);
            && M.Cancelled(r.world.contexts, s)
            && (s in o.drained ==> s in r.drained && Position(r, s) == Position(o, s))
            && (s !in o.drained ==> Position(r, s) == Position(o, s) ||
                                    (s in r.drained && Position(r, s) == Position(o, s) + 1))
  {
    StepKeepsCancelled(setup, o, a, s);
  }

  /** A stream that has been cancelled reads at most one more line, however long the run. */
  lemma {:induction false} CancelledReadsOnceMore(setup: Setup, o: Operator, actions: seq<Action>, s: M.Ctx)
    requires M.Cancelled(o.world.contexts, s)
    ensures var r := Exec(setup, o, actions);
            && M.Cancelled(r.world.contexts, s)
            && (s in o.drained ==> s in r.drained)
            && Position(r, s) <= Position(o, s) + (if s !in o.drained && s in r.drained then 1 else 0)
  {
    if actions != [] {
      var n := |actions| - 1;
      CancelledReadsOnceMore(setup, o, actions[..n], s);
      CancelledReadDrains(setup, Exec(setup, o, actions[..n]), actions[n], s);
    }
  }

  // ----- one line, any number of alerts -----

  /** What goes on by itself: ticks that find the one pod, reads, alerts on their way, and the watch. */
  predicate Unprovoked(a: Action, pod: string) {
    match a
    case Alerting(d) =>
      !d.Begin? && !d.EditSpec? && !d.ForeignCall? && !d.ReconcileRead? && !d.ReconcileWrite?
    case Monitoring(m) =>
      !m.Start? && !m.Stop? && !m.Shutdown? && (m.TickBegin? ==> m.running == [pod])
    case _ => true
  }

  predicate AllUnprovoked(actions: seq<Action>, pod: string) {
    forall i :: 0 <= i < |actions| ==> Unprovoked(actions[i], pod)
  }

  function Alerted(actions: seq<D.Action>): seq<Action> {
    if actions == [] then [] else Alerted(actions[..|actions| - 1]) + [Alerting(actions[|actions| - 1])]
  }

  lemma {:induction false} AlertingOnly(setup: Setup, o: Operator, actions: seq<D.Action>, i: nat, pod: string)
    requires o.system.history != []
    ensures Exec(setup, o, Alerted(actions)) == o.(system := D.Exec(setup.spec, o.system, actions))
    ensures D.OwnSteps(actions, i) ==> AllUnprovoked(Alerted(actions), pod)
  {
    if actions != [] {
      var before, a := actions[..|actions| - 1], actions[|actions| - 1];
      AlertingOnly(setup, o, before, i, pod);
      RunGrows(StepOf(setup), o, Alerted(before), Alerting(a));
    }
  }

  function Reads(s: M.Ctx, n: nat): seq<Action> {
    if n == 0 then [] else Reads(s, n - 1) + [Read(s)]
  }

  lemma {:induction false} ReadsAreUnprovoked(s: M.Ctx, n: nat, pod: string)
    ensures AllUnprovoked(Reads(s, n), pod)
  {
    if n > 0 {
      ReadsAreUnprovoked(s, n - 1, pod);
    }
  }

  /** A stream that is live, belongs to the monitor and has read nothing yet. */
  ghost predicate Fresh(setup: Setup, o: Operator, s: M.Ctx, pod: string) {
    M.Live(o.world, s, MonitorKey(setup.spec), pod) && s !in o.positions
  }

  lemma ReadSkips(setup: Setup, o: Operator, s: M.Ctx, pod: string)
    requires M.Live(o.world, s, MonitorKey(setup.spec), pod) && Position(o, s) < |setup.log(pod)|
    requires !Matching(setup, setup.log(pod)[Position(o, s)])
    ensures Step(setup, o, Read(s)) == o.(positions := o.positions[s := Position(o, s) + 1])
  {
  }

  lemma ReadBegins(setup: Setup, o: Operator, s: M.Ctx, pod: string)
    requires M.Live(o.world, s, MonitorKey(setup.spec), pod) && Position(o, s) < |setup.log(pod)|
    requires Matching(setup, setup.log(pod)[Position(o, s)])
    ensures Step(setup, o, Read(s)) ==
            o.(positions := o.positions[s := Position(o, s) + 1],
               system := D.Step(setup.spec, o.system, D.Begin(setup.rule)))
  {
  }

  /** A fresh stream reads on to its first matching line, the k-th. */
  lemma {:induction false} ReadsOn(setup: Setup, o: Operator, s: M.Ctx, pod: string, k: nat, n: nat)
    requires Fresh(setup, o, s, pod) && n <= k < |setup.log(pod)|
    requires forall j :: 0 <= j < k ==> !Matching(setup, setup.log(pod)[j])
    ensures var r := Exec(setup, o, Reads(s, n));
            r == o.(positions := r.positions) && Position(r, s) == n && r.positions.Keys <= o.positions.Keys + {s}
  {
    if n > 0 {
      ReadsOn(setup, o, s, pod, k, n - 1);
      var before := Exec(setup, o, Reads(s, n - 1));
      ReadSkips(setup, before, s, pod);
      RunGrows(StepOf(setup), o, Reads(s, n - 1), Read(s));
    }
  }

  lemma ReadsMatch(setup: Setup, o: Operator, s: M.Ctx, pod: string, k: nat)
    requires Fresh(setup, o, s, pod) && k < |setup.log(pod)| && Matching(setup, setup.log(pod)[k])
    requires forall j :: 0 <= j < k ==> !Matching(setup, setup.log(pod)[j])
    ensures var r := Exec(setup, o, Reads(s, k + 1));
            && r == o.(positions := r.positions, system := D.Step(setup.spec, o.system, D.Begin(setup.rule)))
            && r.positions.Keys <= o.positions.Keys + {s}
  {
    ReadsOn(setup, o, s, pod, k, k);
    ReadBegins(setup, Exec(setup, o, Reads(s, k)), s, pod);
    RunGrows(StepOf(setup), o, Reads(s, k), Read(s));
  }

  /** The registered loop waits with no stream open, and everything about the MonitorPod is delivered and done. */
  ghost predicate AtRest(setup: Setup, now: int, o: Operator) {
    && Sane(setup, now, o)
    && o.delivered == |o.system.history| && !o.pending
    && var key := MonitorKey(setup.spec);
       key in o.world.monitors && Idles(o.world, key, o.world.monitors[key])
  }

  ghost predicate Sane(setup: Setup, now: int, o: Operator) {
    && D.Inv(setup.spec, now, o.system) && M.Inv(o.world)
    && o.positions.Keys <= o.world.streams.Keys
    && !M.Cancelled(o.world.contexts, M.ROOT)
  }

  ghost predicate Idles(w: M.World, key: string, l: M.Ctx) {
    l in w.loops && w.loops[l] == M.Loop(key, map[], M.Waiting) && !M.Cancelled(w.contexts, l)
  }

  function TickOf(l: M.Ctx, pod: string): seq<Action> {
    [Monitoring(M.TickBegin(l, [pod])), Monitoring(M.SweepEnd(l)), Monitoring(M.Spawn(l)), Monitoring(M.TickEnd(l))]
  }

  lemma FourActions(setup: Setup, o: Operator, a: Action, b: Action, c: Action, d: Action)
    ensures Exec(setup, o, [a, b, c, d]) == Step(setup, Step(setup, Step(setup, Step(setup, o, a), b), c), d)
  {
    var step := StepOf(setup);
    RunOne(step, o, a);
    RunGrows(step, o, [a], b);
    RunGrows(step, o, [a, b], c);
    RunGrows(step, o, [a, b, c], d);
    assert [a] + [b] == [a, b] && [a, b] + [c] == [a, b, c] && [a, b, c] + [d] == [a, b, c, d];
  }

  function WorldAfterTick(w: M.World, key: string, l: M.Ctx, pod: string): M.World
    requires l in w.loops
  {
    var o := M.Opened(w, l, pod, M.Waiting);
    o.(loops := w.loops[l := M.Loop(key, map[pod := |w.contexts|], M.Waiting)])
  }

  lemma TickSteps(w: M.World, key: string, l: M.Ctx, pod: string)
    requires Idles(w, key, l)
    ensures M.Step(M.Step(M.Step(M.Step(w, M.TickBegin(l, [pod])), M.SweepEnd(l)), M.Spawn(l)), M.TickEnd(l)) ==
            WorldAfterTick(w, key, l, pod)
  {
    var w1 := w.(loops := w.loops[l := M.Loop(key, map[], M.Sweeping([pod], map[]))]);
    var w2 := w.(loops := w.loops[l := M.Loop(key, map[], M.Spawning([pod], map[], 0))]);
    var w3 := M.Opened(w2, l, pod, M.Spawning([pod], map[], 1));
    assert M.Step(w, M.TickBegin(l, [pod])) == w1;
    assert M.Step(w1, M.SweepEnd(l)) == w2;
    assert M.Step(w2, M.Spawn(l)) == w3;
    assert M.Step(w3, M.TickEnd(l)) == WorldAfterTick(w, key, l, pod);
  }

  lemma TickKeepsInv(w: M.World, key: string, l: M.Ctx, pod: string)
    requires M.Inv(w) && Idles(w, key, l)
    ensures M.Inv(WorldAfterTick(w, key, l, pod))
  {
    var w1 := M.Step(w, M.TickBegin(l, [pod]));
    var w2 := M.Step(w1, M.SweepEnd(l));
    M.StepKeepsInv(w, M.TickBegin(l, [pod]));
    M.StepKeepsInv(w1, M.SweepEnd(l));
    M.StepKeepsInv(w2, M.Spawn(l));
    M.StepKeepsInv(M.Step(w2, M.Spawn(l)), M.TickEnd(l));
    TickSteps(w, key, l, pod);
  }

  lemma TickIsLive(w: M.World, key: string, l: M.Ctx, pod: string)
    requires M.Inv(w) && Idles(w, key, l) && !M.Cancelled(w.contexts, M.ROOT)
    ensures var w' := WorldAfterTick(w, key, l, pod);
            && M.Live(w', |w.contexts|, key, pod) && !M.Cancelled(w'.contexts, M.ROOT)
            && w'.streams.Keys == w.streams.Keys + {|w.contexts|} && |w.contexts| !in w.streams
  {
    var cs, ds := w.contexts, WorldAfterTick(w, key, l, pod).contexts;
    assert M.LoopOk(w, l);
    assert ds == cs + [M.Context(Some(l), false)];
    LiveAbove(cs, ds, l);
    OldUnaffected(cs, ds, M.ROOT);
    assert |w.contexts| !in w.streams by {
      assert forall t :: t in w.streams ==> M.StreamOk(w, t);
    }
  }

  /** A tick opens a stream for the pod. */
  lemma TickOpens(setup: Setup, now: int, o: Operator, pod: string)
    requires AtRest(setup, now, o)
    ensures var r, s := Exec(setup, o, TickOf(o.world.monitors[MonitorKey(setup.spec)], pod)), |o.world.contexts|;
            && r == o.(world := r.world) && Sane(setup, now, r)
            && Fresh(setup, r, s, pod)
  {
    var key := MonitorKey(setup.spec);
    var l := o.world.monitors[key];
    FourActions(setup, o, Monitoring(M.TickBegin(l, [pod])), Monitoring(M.SweepEnd(l)), Monitoring(M.Spawn(l)),
                Monitoring(M.TickEnd(l)));
    TickSteps(o.world, key, l, pod);
    TickKeepsInv(o.world, key, l, pod);
    TickIsLive(o.world, key, l, pod);
  }

  /** A context added below a live one is live, and the old ones are as they were. */
  lemma LiveAbove(cs: seq<M.Context>, ds: seq<M.Context>, l: M.Ctx)
    requires l < |cs| && ds == cs + [M.Context(Some(l), false)]
    requires !M.Cancelled(cs, l)
    ensures !M.Cancelled(ds, l) && !M.Cancelled(ds, |cs|)
  {
    OldUnaffected(cs, ds, l);
  }

  lemma {:induction false} OldUnaffected(cs: seq<M.Context>, ds: seq<M.Context>, c: M.Ctx)
    requires cs <= ds && c < |cs|
    ensures M.Cancelled(ds, c) == M.Cancelled(cs, c)
    decreases c
  {
    if cs[c].parent.Some? && cs[c].parent.value < c {
      OldUnaffected(cs, ds, cs[c].parent.value);
    }
  }

  /** The watch delivers the newest version, and the reconcile starts the monitor anew. */
  lemma RestartRests(setup: Setup, now: int, o: Operator)
    requires Sane(setup, now, o) && o.delivered + 1 == |o.system.history|
    ensures var r := Exec(setup, o, [Deliver, Reconcile(true)]); AtRest(setup, now, r) && r.system == o.system
  {
    var key, step := MonitorKey(setup.spec), StepOf(setup);
    RunOne(step, o, Deliver);
    RunGrows(step, o, [Deliver], Reconcile(true));
    assert [Deliver] + [Reconcile(true)] == [Deliver, Reconcile(true)];
    var w' := M.Step(o.world, M.Start(key));
    M.StepKeepsInv(o.world, M.Start(key));
    StepRemembers(o.world, M.Start(key));
    StartIdles(o.world, key);
  }

  lemma StartIdles(w: M.World, key: string)
    requires M.Inv(w) && !M.Cancelled(w.contexts, M.ROOT)
    ensures var w' := M.Step(w, M.Start(key));
            && key in w'.monitors && Idles(w', key, w'.monitors[key])
            && !M.Cancelled(w'.contexts, M.ROOT)
  {
    var h := if key in w.monitors then M.Halted(w, {w.monitors[key]}) else w;
    if key in w.monitors {
      assert M.KeyOk(w, key) && M.LoopOk(w, w.monitors[key]);
    }
    LiveAbove(h.contexts, M.Registered(h, key).contexts, M.ROOT);
  }

  /** The dispatch begun last gets through and is counted. */
  lemma AlertIsCounted(setup: Setup, now: int, o: Operator, pod: string) returns (actions: seq<Action>)
    requires D.Inv(setup.spec, now, o.system)
    requires var ds := o.system.dispatchers; ds != [] && ds[|ds| - 1].phase == D.Gate
    ensures AllUnprovoked(actions, pod)
    ensures var r := Exec(setup, o, actions);
            && r == o.(system := r.system) && D.Inv(setup.spec, now, r.system)
            && |r.system.history| == |o.system.history| + 1
            && |r.system.dispatchers| == |o.system.dispatchers|
            && r.system.history[D.Latest(r.system)].sentCount == o.system.history[D.Latest(o.system)].sentCount + 1
  {
    var spec, s, i := setup.spec, o.system, |o.system.dispatchers| - 1;
    var first := D.AlertGetsThrough(spec, now, s, i);
    var s1 := D.Exec(spec, s, first);
    var second := [D.ReadStatus(i, D.Latest(s1), true), D.Stamp(i), D.WriteStatus(i, true), D.Wait(0)];
    D.FreshAttemptCounts(spec, s1, i);
    D.ExecConcat(spec, s, first, second);
    D.InvStays(spec, now, s, first + second);
    assert D.OwnSteps(first + second, i);
    AlertingOnly(setup, o, first + second, i, pod);
    actions := Alerted(first + second);
  }

  lemma BeginIsAtGate(spec: D.Spec, now: int, s: D.System, rule: string)
    requires D.Inv(spec, now, s)
    ensures var r := D.Step(spec, s, D.Begin(rule));
            && D.Inv(spec, now, r) && r.history == s.history
            && |r.dispatchers| == |s.dispatchers| + 1 && r.dispatchers[|s.dispatchers|].phase == D.Gate
  {
    D.StepKeepsInv(spec, now, s, D.Begin(rule));
  }

  lemma MatchIsDispatched(setup: Setup, now: int, o: Operator, s: M.Ctx, pod: string, k: nat)
    requires Sane(setup, now, o) && Fresh(setup, o, s, pod)
    requires k < |setup.log(pod)| && Matching(setup, setup.log(pod)[k])
    requires forall j :: 0 <= j < k ==> !Matching(setup, setup.log(pod)[j])
    ensures AllUnprovoked(Reads(s, k + 1), pod)
    ensures var r := Exec(setup, o, Reads(s, k + 1));
            && Sane(setup, now, r) && r.delivered == o.delivered && r.system.history == o.system.history
            && |r.system.dispatchers| == |o.system.dispatchers| + 1
            && r.system.dispatchers[|o.system.dispatchers|].phase == D.Gate
  {
    ReadsMatch(setup, o, s, pod, k);
    ReadsAreUnprovoked(s, k + 1, pod);
    BeginIsAtGate(setup.spec, now, o.system, setup.rule);
  }

  lemma ExecJoins(setup: Setup, o: Operator, a: seq<Action>, p: Operator, b: seq<Action>, q: Operator, pod: string)
    requires p == Exec(setup, o, a) && q == Exec(setup, p, b) && AllUnprovoked(a, pod) && AllUnprovoked(b, pod)
    ensures q == Exec(setup, o, a + b) && AllUnprovoked(a + b, pod)
  {
    RunConcat(StepOf(setup), o, a, b);
  }

  /** What a round changes: one dispatch more, and, with its last part, one count more. */
  predicate Grown(o: Operator, r: Operator, dispatches: nat, counts: nat)
    requires o.system.history != [] && r.system.history != []
  {
    && |r.system.dispatchers| == |o.system.dispatchers| + dispatches
    && r.system.history[D.Latest(r.system)].sentCount == o.system.history[D.Latest(o.system)].sentCount + counts
  }

  /** A dispatch has just begun, every version being delivered. */
  ghost predicate Begun(setup: Setup, now: int, o: Operator) {
    && Sane(setup, now, o) && o.delivered == |o.system.history|
    && var ds := o.system.dispatchers; ds != [] && ds[|ds| - 1].phase == D.Gate
  }

  /** A tick, and the line is dispatched. */
  lemma LineIsDispatched(setup: Setup, now: int, o: Operator, pod: string, k: nat)
    returns (actions: seq<Action>, r: Operator)
    requires AtRest(setup, now, o) && k < |setup.log(pod)| && Matching(setup, setup.log(pod)[k])
    requires forall j :: 0 <= j < k ==> !Matching(setup, setup.log(pod)[j])
    ensures r == Exec(setup, o, actions) && AllUnprovoked(actions, pod)
    ensures Begun(setup, now, r) && Grown(o, r, 1, 0)
  {
    var s := |o.world.contexts|;
    var tick, rest := TickOf(o.world.monitors[MonitorKey(setup.spec)], pod), Reads(s, k + 1);
    var p := Exec(setup, o, tick);
    TickOpens(setup, now, o, pod);
    MatchIsDispatched(setup, now, p, s, pod, k);
    r := Exec(setup, p, rest);
    assert AllUnprovoked(tick, pod);
    ExecJoins(setup, o, tick, p, rest, r, pod);
    actions := tick + rest;
  }

  /** The alert is counted, and the restart makes the pod unread again. */
  lemma CountRestarts(setup: Setup, now: int, o: Operator, pod: string) returns (actions: seq<Action>, r: Operator)
    requires Begun(setup, now, o)
    ensures r == Exec(setup, o, actions) && AllUnprovoked(actions, pod)
    ensures AtRest(setup, now, r) && Grown(o, r, 0, 1)
  {
    var alert := AlertIsCounted(setup, now, o, pod);
    var p, restart := Exec(setup, o, alert), [Deliver, Reconcile(true)];
    RestartRests(setup, now, p);
    r := Exec(setup, p, restart);
    ExecJoins(setup, o, alert, p, restart, r, pod);
    actions := alert + restart;
  }

  lemma GrownTwice(o: Operator, p: Operator, r: Operator)
    requires o.system.history != [] && p.system.history != [] && r.system.history != []
    requires Grown(o, p, 1, 0) && Grown(p, r, 0, 1)
    ensures Grown(o, r, 1, 1)
  {
  }

  /** Once round: a tick, the line, its alert, the count and the restart. */
  lemma OneMoreRound(setup: Setup, now: int, o: Operator, pod: string, k: nat)
    returns (actions: seq<Action>, r: Operator)
    requires AtRest(setup, now, o) && k < |setup.log(pod)| && Matching(setup, setup.log(pod)[k])
    requires forall j :: 0 <= j < k ==> !Matching(setup, setup.log(pod)[j])
    ensures r == Exec(setup, o, actions) && AllUnprovoked(actions, pod)
    ensures AtRest(setup, now, r) && Grown(o, r, 1, 1)
  {
    var line, p := LineIsDispatched(setup, now, o, pod, k);
    var rest;
    rest, r := CountRestarts(setup, now, p, pod);
    GrownTwice(o, p, r);
    ExecJoins(setup, o, line, p, rest, r, pod);
    actions := line + rest;
  }

  /** The process starts, and the monitor with it. */
  lemma FirstStart(setup: Setup, now: int, stored: D.Status, pod: string) returns (actions: seq<Action>, r: Operator)
    requires D.Earlier(stored.lastTriggered, Some(now))
    ensures r == Exec(setup, Initial(now, stored), actions) && AllUnprovoked(actions, pod)
    ensures AtRest(setup, now, r) && r.system == D.Start(now, stored)
  {
    assert M.Inv(M.INITIAL);
    D.ExecKeepsInv(setup.spec, now, stored, []);
    RestartRests(setup, now, Initial(now, stored));
    actions := [Deliver, Reconcile(true)];
    r := Exec(setup, Initial(now, stored), actions);
  }

  lemma {:induction false} RoundsWithoutEnd(setup: Setup, now: int, o: Operator, pod: string, k: nat, n: nat)
    returns (actions: seq<Action>, r: Operator)
    requires AtRest(setup, now, o) && k < |setup.log(pod)| && Matching(setup, setup.log(pod)[k])
    requires forall j :: 0 <= j < k ==> !Matching(setup, setup.log(pod)[j])
    ensures r == Exec(setup, o, actions) && AllUnprovoked(actions, pod)
    ensures AtRest(setup, now, r) && Grown(o, r, n, n)
  {
    if n == 0 {
      actions, r := [], o;
    } else {
      var before, p := RoundsWithoutEnd(setup, now, o, pod, k, n - 1);
      var round;
      round, r := OneMoreRound(setup, now, p, pod, k);
      ExecJoins(setup, o, before, p, round, r, pod);
      actions := before + round;
    }
  }

  /**
   One line, alerts without end. Whatever the rate limit, and with a single matching line in the log, for
   every n there is a run in which that line is alerted and counted n times, though nobody edits anything
   and no pod comes or goes: each count restarts the monitor, and the next tick has the log read again.
   */
  lemma OneLineAlertsWithoutEnd(setup: Setup, now: int, stored: D.Status, pod: string, k: nat, n: nat)
    returns (actions: seq<Action>)
    requires D.Earlier(stored.lastTriggered, Some(now))
    requires k < |setup.log(pod)|
    requires forall j :: 0 <= j < |setup.log(pod)| ==>
               (setup.log(pod)[j] != "" && setup.matches(setup.log(pod)[j]) <==> j == k)
    ensures AllUnprovoked(actions, pod)
    ensures var r := Exec(setup, Initial(now, stored), actions);
            && AtRest(setup, now, r) && |r.system.dispatchers| == n
            && r.system.history[D.Latest(r.system)].sentCount == stored.sentCount + n
  {
    var first, p := FirstStart(setup, now, stored, pod);
    var rounds, r := RoundsWithoutEnd(setup, now, p, pod, k, n);
    ExecJoins(setup, Initial(now, stored), first, p, rounds, r, pod);
    actions := first + rounds;
  }

  // ----- the limiter is all that bounds it -----

  lemma {:induction false} SystemKeepsInv(setup: Setup, now: int, stored: D.Status, actions: seq<Action>)
    requires D.Earlier(stored.lastTriggered, Some(now))
    ensures D.Inv(setup.spec, now, Exec(setup, Initial(now, stored), actions).system)
  {
    if actions == [] {
      D.ExecKeepsInv(setup.spec, now, stored, []);
    } else {
      var before, a := actions[..|actions| - 1], actions[|actions| - 1];
      SystemKeepsInv(setup, now, stored, before);
      var s := Exec(setup, Initial(now, stored), before).system;
      if a.Alerting? {
        D.StepKeepsInv(setup.spec, now, s, a.alert);
      } else if a.Read? {
        D.StepKeepsInv(setup.spec, now, s, D.Begin(setup.rule));
      }
    }
  }

  /** However often the monitor restarts and the log is read again, the counted alerts of a rule stay in its rate. */
  lemma RestartsStayInRate(setup: Setup, now: int, stored: D.Status, actions: seq<Action>, rule: string)
    requires D.Earlier(stored.lastTriggered, Some(now))
    requires setup.spec.limit >= 1 && setup.spec.period >= 1
    ensures var s, spec := Exec(setup, Initial(now, stored), actions).system, setup.spec;
            now <= s.clock &&
            CountIf(s.dispatchers, D.CountedFor(rule)) <= spec.limit * ((s.clock - now) / spec.period + 1)
  {
    SystemKeepsInv(setup, now, stored, actions);
    D.InvBoundsCounted(setup.spec, now, Exec(setup, Initial(now, stored), actions).system, rule);
  }
}
