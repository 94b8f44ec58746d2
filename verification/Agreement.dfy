/**
 The readiness cascade where no read fails: stored verdicts are then exact, over every interleaving of
 edits, deliveries, reconciles and conflicts. And what one failed read can leave behind for good.
 (internal/controller/alert_controller.go:49-141, aiprovider_controller.go:60-156,
 alertgroup_controller.go:47-122)
 */
module Agreement {
  import opened Wrappers
  import opened Readiness
  import opened Controller
  import opened Cascade
  import opened Convergence
  import opened FairRuns
  import opened Runs

  // ----- a failed read is on record only where it is about to be replaced -----

  ghost predicate CandidAt(l: Level, n: Name)
    requires n in l.cache
  {
    Pending(l, n) || !ReadFailed(l.cache[n])
  }

  /** The pass under way has read what it asked for, and no object at rest records a failed read. */
  ghost predicate Candid(l: Level) {
    && (l.work.Some? ==> !FailedToRead(l.work.value))
    && forall n {:trigger CandidAt(l, n)} :: n in l.cache ==> CandidAt(l, n)
  }

  ghost predicate CandidCluster(c: Cluster) {
    Candid(c.alerts) && Candid(c.groups) && Candid(c.providers)
  }

  /** A read that succeeds never yields the verdict that it failed. */
  lemma ProbesRead(view: View, namespace: string, spec: Spec, i: nat)
    requires i < |Deps(spec)|
    ensures Probe(view, namespace, Deps(spec)[i]).Some? ==> !Probe(view, namespace, Deps(spec)[i]).value.Unreadable?
  {
  }

  /** Nothing is forgotten: what was pending or clean about the cached objects still is. */
  lemma StillCandid(l: Level, l': Level)
    requires Candid(l) && (l'.work.Some? ==> !FailedToRead(l'.work.value))
    requires forall n :: n in l'.cache && !Pending(l', n) ==>
                           && n in l.cache && l'.cache[n] == l.cache[n]
                           && (Pending(l, n) ==> !ReadFailed(l.cache[n]))
    ensures Candid(l')
  {
    forall n | n in l'.cache ensures CandidAt(l', n) {
      assert n in l.cache ==> CandidAt(l, n);
    }
  }

  lemma PutKeepsCandid(l: Level, name: Name, value: Option<(Spec, Option<Verdict>)>)
    requires Candid(l)
    ensures Candid(Put(l, name, value))
  {
    var l' := Put(l, name, value);
    forall n | n in l'.cache && !Pending(l', n) ensures !Pending(l, n) {
      assert l'.channel[..|l.channel|] == l.channel;
      assert forall i :: 0 <= i < |l.channel| ==> l'.channel[i] == l.channel[i];
    }
    StillCandid(l, l');
  }

  lemma EnqueuedKeepsCandid(l: Level, names: set<Name>)
    requires Candid(l)
    ensures Candid(Enqueued(l, names))
  {
    var l' := Enqueued(l, names);
    assert forall n :: Undelivered(l, n) ==> Undelivered(l', n);
    StillCandid(l, l');
  }

  lemma DeliverKeepsCandid(l: Level, view: View)
    requires Candid(l)
    ensures Candid(Controller.Step(l, view, Deliver))
  {
    var l' := Controller.Step(l, view, Deliver);
    if l.channel != [] {
      forall n | n != l.channel[0].name && Undelivered(l, n) ensures Undelivered(l', n) {
        var i :| 0 <= i < |l.channel| && l.channel[i].name == n;
        assert l'.channel[i - 1].name == n;
      }
      StillCandid(l, l');
    }
  }

  lemma BeginKeepsCandid(l: Level, view: View, name: Name)
    requires Candid(l)
    ensures Candid(Controller.Step(l, view, Begin(name)))
  {
    var l' := Controller.Step(l, view, Begin(name));
    if l' != l {
      assert forall n :: Undelivered(l, n) ==> Undelivered(l', n);
      StillCandid(l, l');
    }
  }

  lemma CheckKeepsCandid(l: Level, view: View)
    requires Candid(l)
    ensures Candid(Controller.Step(l, view, Check(false)))
  {
    var l' := Controller.Step(l, view, Check(false));
    if l' != l {
      ProbesRead(view, l.work.value.name.namespace, l.work.value.subject.spec, l.work.value.checked);
      assert forall n :: Undelivered(l, n) ==> Undelivered(l', n);
      StillCandid(l, l');
    }
  }

  /** A finished pass that has read everything leaves its object clean, queued or written. */
  lemma FinishKeepsCandid(l: Level, view: View, retry: bool)
    requires Inv(l, view) && Candid(l)
    ensures Candid(Controller.Step(l, view, Finish(retry)))
  {
    var l' := Controller.Step(l, view, Finish(retry));
    if l.work.Some? && Scanned(l.work.value) {
      var w, done := l.work.value, l.(work := None);
      assert forall n :: Undelivered(l, n) ==> Undelivered(done, n);
      if Skips(w) || (!Conflicts(l, w) && l.server[w.name].status == Some(VerdictOf(w))) {
        StillCandid(l, done);
      } else if Conflicts(l, w) {
        assert forall n :: Undelivered(l, n) ==> Undelivered(l', n);
        StillCandid(l, l');
      } else {
        PutKeepsCandid(l, w.name, Some((l.server[w.name].spec, Some(VerdictOf(w)))));
        var p := Put(l, w.name, Some((l.server[w.name].spec, Some(VerdictOf(w)))));
        assert l' == p.(work := None);
        assert p.channel[|l.channel|].name == w.name;
        assert forall n :: Undelivered(p, n) ==> Undelivered(l', n);
        StillCandid(p, l');
      }
    }
  }

  lemma StepKeepsCandid(l: Level, view: View, step: LevelStep)
    requires Inv(l, view) && Candid(l) && !Faulty(step)
    ensures Candid(Controller.Step(l, view, step))
  {
    match step
    case Deliver => DeliverKeepsCandid(l, view);
    case Begin(name) => BeginKeepsCandid(l, view, name);
    case Check(faulty) => CheckKeepsCandid(l, view);
    case Finish(retry) => FinishKeepsCandid(l, view, retry);
  }

  // ----- runs without failed reads -----

  predicate ReadsSucceed(a: Action) {
    IsControllerStep(a) ==> !Faulty(a.step)
  }

  /** The API server's schemas let only objects of a controller's kind be stored for it. */
  predicate Typed(a: Action) {
    match a
    case EditAlert(_, value) => value.Some? ==> value.value.0.AlertOf?
    case EditGroup(_, value) => value.Some? ==> value.value.0.GroupOf?
    case EditProvider(_, value) => value.Some? ==> value.value.0.ProviderOf?
    case _ => true
  }

  /** No List and no Get fails, whatever is edited. */
  predicate Undisturbed(actions: seq<Action>) {
    forall i :: 0 <= i < |actions| ==> Listed(actions[i]) && ReadsSucceed(actions[i]) && Typed(actions[i])
  }

  lemma ActionKeepsCandid(c: Cluster, a: Action)
    requires CascadeInv(c) && CandidCluster(c) && ReadsSucceed(a)
    ensures CandidCluster(Cascade.Step(c, a))
  {
    match a
    case SecretChange(name, keys, _) =>
      EnqueuedKeepsCandid(c.alerts, AffectedBySecretIn(c.alerts.cache, name));
      EnqueuedKeepsCandid(c.providers, AffectedBySecretIn(c.providers.cache, name));
    case EditAlert(name, value) => PutKeepsCandid(c.alerts, name, value);
    case EditGroup(name, value) => PutKeepsCandid(c.groups, name, value);
    case EditProvider(name, value) => PutKeepsCandid(c.providers, name, value);
    case AlertStep(step, _) =>
      StepKeepsCandid(c.alerts, SecretView(c.secrets), step);
      if step == Deliver && c.alerts.channel != [] {
        EnqueuedKeepsCandid(c.groups, AffectedByAlertIn(c.groups.cache, c.alerts.channel[0].name));
      }
    case GroupStep(step) => StepKeepsCandid(c.groups, AlertView(c.alerts.cache), step);
    case ProviderStep(step) => StepKeepsCandid(c.providers, SecretView(c.secrets), step);
  }

  /** A controller's step stores no object of another kind. */
  lemma StepKeepsKind(l: Level, view: View, step: LevelStep, n: Name)
    requires n in Controller.Step(l, view, step).server
    ensures n in l.server && Controller.Step(l, view, step).server[n].spec == l.server[n].spec
  {
  }

  lemma ActionKeepsTypes(c: Cluster, a: Action)
    requires WellTyped(c) && Typed(a)
    ensures WellTyped(Cascade.Step(c, a))
  {
    match a
    case AlertStep(step, _) =>
      forall n | n in Cascade.Step(c, a).alerts.server ensures Cascade.Step(c, a).alerts.server[n].spec.AlertOf? {
        StepKeepsKind(c.alerts, SecretView(c.secrets), step, n);
      }
    case GroupStep(step) =>
      forall n | n in Cascade.Step(c, a).groups.server ensures Cascade.Step(c, a).groups.server[n].spec.GroupOf? {
        StepKeepsKind(c.groups, AlertView(c.alerts.cache), step, n);
      }
    case ProviderStep(step) =>
      forall n | n in Cascade.Step(c, a).providers.server ensures Cascade.Step(c, a).providers.server[n].spec.ProviderOf? {
        StepKeepsKind(c.providers, SecretView(c.secrets), step, n);
      }
    case _ =>
  }

  /** All that holds in every state such a run reaches. */
  ghost predicate Sound(c: Cluster) {
    CascadeInv(c) && CandidCluster(c) && WellTyped(c)
  }

  lemma {:induction false} UndisturbedRunIsSound(actions: seq<Action>)
    requires Undisturbed(actions)
    ensures Sound(Exec(INITIAL, actions))
  {
    CascadeStaysConsistent(actions);
    if actions != [] {
      var before, a := actions[..|actions| - 1], actions[|actions| - 1];
      UndisturbedRunIsSound(before);
      ActionKeepsCandid(Exec(INITIAL, before), a);
      ActionKeepsTypes(Exec(INITIAL, before), a);
    }
  }

  // ----- main results -----

  /**
   An object without a pending request is cached as it is stored, and carries the verdict that its
   dependencies have now.
   */
  ghost predicate Exact(l: Level, view: View) {
    forall n :: (n in l.server || n in l.cache) && !Pending(l, n) ==>
                  && n in l.server && n in l.cache && l.cache[n] == l.server[n]
                  && l.server[n].status == Some(Judge(view, n.namespace, l.server[n].spec))
  }

  lemma CandidIsExact(l: Level, view: View)
    requires Inv(l, view) && Candid(l)
    ensures Exact(l, view)
  {
    forall n | (n in l.server || n in l.cache) && !Pending(l, n)
      ensures n in l.server && n in l.cache && l.cache[n] == l.server[n]
      ensures l.server[n].status == Some(Judge(view, n.namespace, l.server[n].spec))
    {
      UntouchedByReplay(l.cache, l.channel, n);
      assert SettledOk(l, view, n) && CandidAt(l, n);
    }
  }

  /**
   The cascade invariant without exemption. Over every interleaving in which no List and no Get fails, in
   every state reached, every Alert, AlertGroup and AIProvider whose verdict is stale has a request pending.
   */
  lemma StaleVerdictsArePending(actions: seq<Action>)
    requires Undisturbed(actions)
    ensures var c := Exec(INITIAL, actions); forall part: Part :: Exact(LevelAt(c, part), ViewAt(c, part))
  {
    UndisturbedRunIsSound(actions);
    var c := Exec(INITIAL, actions);
    CandidIsExact(c.alerts, SecretView(c.secrets));
    CandidIsExact(c.groups, AlertView(c.alerts.cache));
    CandidIsExact(c.providers, SecretView(c.secrets));
  }

  /**
   Every stored readiness is the truth: Alerts and AIProviders are Ready exactly if valid, groups exactly
   if every member is a valid Alert, and a group's counters are its ready prefix and its length.
   */
  ghost predicate Agrees(c: Cluster) {
    && (forall n :: n in c.alerts.server ==> (ReadyCondition(c.alerts.server[n]) <==> ValidAlert(c, n)))
    && (forall n :: n in c.providers.server ==> (ReadyCondition(c.providers.server[n]) <==> ValidProvider(c, n)))
    && (forall n :: n in c.groups.server ==> GroupAgrees(c, n, c.groups.server[n]))
  }

  ghost predicate GroupAgrees(c: Cluster, name: Name, group: Object) {
    && group.spec.GroupOf?
    && (ReadyCondition(group) <==>
          forall i :: 0 <= i < |group.spec.alertNames| ==> ValidAlert(c, Name(name.namespace, group.spec.alertNames[i])))
    && group.status == Some(Judge(AlertView(c.alerts.server), name.namespace, group.spec))
    && CountersAgree(c, name, group.spec.alertNames, group.status.value)
  }

  /** TotalAlerts is the number of names, ReadyAlerts that of the valid Alerts before the first that is not. */
  ghost predicate CountersAgree(c: Cluster, name: Name, members: seq<string>, v: Verdict) {
    && v.totalAlerts == |members| && v.readyAlerts <= |members|
    && (forall i :: 0 <= i < v.readyAlerts ==> ValidAlert(c, Name(name.namespace, members[i])))
    && (v.readyAlerts < |members| ==> !ValidAlert(c, Name(name.namespace, members[v.readyAlerts])))
  }

  /** Where every Alert's readiness is the truth, the counters computed from the readiness are too. */
  lemma CountersFollow(c: Cluster, name: Name, members: seq<string>)
    requires forall n :: n in c.alerts.server ==> (ReadyCondition(c.alerts.server[n]) <==> ValidAlert(c, n))
    ensures CountersAgree(c, name, members, Judge(AlertView(c.alerts.server), name.namespace, GroupOf(members)))
  {
    var view, deps := AlertView(c.alerts.server), Deps(GroupOf(members));
    forall i | 0 <= i < |members|
      ensures Probe(view, name.namespace, deps[i]).None? <==> ValidAlert(c, Name(name.namespace, members[i]))
    {
      assert deps[i] == NeedsAlert(members[i]);
    }
  }

  lemma QuietLevelIsClean(l: Level, view: View, n: Name)
    requires Inv(l, view) && Candid(l) && LevelQuiet(l) && n in l.server
    ensures !ReadFailed(l.server[n])
  {
    QuietLevelIsCurrent(l, view);
    assert CandidAt(l, n);
  }

  lemma QuietSoundAgrees(c: Cluster)
    requires Sound(c) && Quiet(c)
    ensures Agrees(c)
  {
    forall n | n in c.alerts.server
      ensures ReadyCondition(c.alerts.server[n]) <==> ValidAlert(c, n)
      ensures !ReadFailed(c.alerts.server[n])
    {
      QuietLevelIsClean(c.alerts, SecretView(c.secrets), n);
      QuietAlertsAgree(c, n);
    }
    forall n | n in c.providers.server ensures ReadyCondition(c.providers.server[n]) <==> ValidProvider(c, n) {
      QuietLevelIsClean(c.providers, SecretView(c.secrets), n);
      QuietProvidersAgree(c, n);
    }
    forall n | n in c.groups.server ensures GroupAgrees(c, n, c.groups.server[n]) {
      QuietLevelIsClean(c.groups, AlertView(c.alerts.cache), n);
      QuietGroupsAgree(c, n);
      CountersFollow(c, n, c.groups.server[n].spec.alertNames);
      assert forall m :: ReadableMember(c, m) <==> ValidAlert(c, m);
    }
  }

  /**
   End to end: after every interleaving in which no List and no Get fails, whenever nothing is pending, a
   group is Ready exactly if every named member exists and its secret references resolve.
   */
  lemma QuietRunsAgree(actions: seq<Action>)
    requires Undisturbed(actions) && Quiet(Exec(INITIAL, actions))
    ensures Agrees(Exec(INITIAL, actions))
  {
    UndisturbedRunIsSound(actions);
    QuietSoundAgrees(Exec(INITIAL, actions));
  }

  lemma ControllersKeepSound(c: Cluster, a: Action)
    requires Sound(c) && IsControllerStep(a) && Listed(a) && !Faulty(a.step)
    ensures Sound(Cascade.Step(c, a))
  {
    StepKeepsCascade(c, a);
    ActionKeepsCandid(c, a);
    ActionKeepsTypes(c, a);
  }

  lemma {:induction false} RunStaysSound(run: nat -> Cluster, acts: nat -> Action, i: nat)
    requires IsRun(run, acts) && Sound(run(0))
    ensures Sound(run(i))
  {
    if i > 0 {
      RunStaysSound(run, acts, i - 1);
      assert Controlled(run, acts, i - 1);
      ControllersKeepSound(run(i - 1), acts(i - 1));
    }
  }

  /**
   Eventual agreement: whatever was edited, once the edits stop every fair run of the controllers comes to
   a point from which on nothing is pending and every stored readiness is, and stays, the truth.
   */
  lemma FairRunsAgree(edits: seq<Action>, run: nat -> Cluster, acts: nat -> Action) returns (k: nat)
    requires Undisturbed(edits) && run(0) == Exec(INITIAL, edits)
    requires IsRun(run, acts) && Fair(run, acts)
    ensures forall i: nat :: i >= k ==> Quiet(run(i)) && run(i) == run(k) && Agrees(run(i))
  {
    UndisturbedRunIsSound(edits);
    k := FairRunsSettle(run, acts);
    RunStaysSound(run, acts, k);
    QuietSoundAgrees(run(k));
  }

  // ----- what a failed read leaves behind -----

  const SECRET := Name("ns", "s")
  const ALERT := Name("ns", "a")
  const WEBHOOK := AlertOf("Webhook", Some(Selector("s", "url")), None)
  const UNREAD := Verdict(0, 0, Some(Unreadable("s")))
  const VIEW := SecretView(map[SECRET := {"url"}])

  /** The Alert alone, stored and cached at some version, and whether a request for it is queued. */
  function Stored(status: Option<Verdict>, version: nat, queued: bool): Level {
    var o := Object(WEBHOOK, status, version);
    Level(map[ALERT := o], version + 1, [], map[ALERT := o], if queued then {ALERT} else {}, None)
  }

  function WithAlerts(alerts: Level): Cluster {
    Cluster(map[SECRET := {"url"}], alerts, EMPTY_LEVEL, EMPTY_LEVEL)
  }

  lemma OnlyAlertsMove(l: Level, step: LevelStep)
    ensures Cascade.Step(WithAlerts(l), AlertStep(step, true)) == WithAlerts(Controller.Step(l, VIEW, step))
  {
    if step == Deliver && l.channel != [] {
      assert AffectedByAlertIn(EMPTY_LEVEL.cache, l.channel[0].name) == {};
    }
  }

  /** A pass whose Get of the Secret fails, up to its write. */
  lemma FailedPass(status: Option<Verdict>, version: nat)
    ensures var l, w := Stored(status, version, false), Work(ALERT, Object(WEBHOOK, status, version), 0, None);
            var failed := w.(failure := UNREAD.failure);
            && Controller.Step(Stored(status, version, true), VIEW, Begin(ALERT)) == l.(work := Some(w))
            && Controller.Step(l.(work := Some(w)), VIEW, Check(true)) == l.(work := Some(failed))
            && (status == Some(UNREAD) ==> Controller.Step(l.(work := Some(failed)), VIEW, Finish(false)) == l)
            && (status != Some(UNREAD) ==>
                  Controller.Step(Controller.Step(l.(work := Some(failed)), VIEW, Finish(false)), VIEW, Deliver) ==
                  Stored(Some(UNREAD), version + 1, true))
  {
    assert Deps(WEBHOOK) == [NeedsSecret(Selector("s", "url"))];
    assert Stored(status, version, true).queue - {ALERT} == {};
  }

  lemma Then(actions: seq<Action>, c: Cluster, a: Action)
    requires Exec(INITIAL, actions) == c
    ensures Exec(INITIAL, actions + [a]) == Cascade.Step(c, a)
  {
    RunGrows(Cascade.Step, INITIAL, actions, a);
  }

  lemma SecretArrives()
    ensures Cascade.Step(INITIAL, SecretChange(SECRET, Some({"url"}), true)) == WithAlerts(EMPTY_LEVEL)
  {
    assert AffectedBySecretIn(map[], SECRET) == {};
  }

  lemma AlertIsCreated()
    ensures Cascade.Step(WithAlerts(EMPTY_LEVEL), EditAlert(ALERT, Some((WEBHOOK, None)))) ==
            WithAlerts(Put(EMPTY_LEVEL, ALERT, Some((WEBHOOK, None))))
    ensures Controller.Step(Put(EMPTY_LEVEL, ALERT, Some((WEBHOOK, None))), VIEW, Deliver) == Stored(None, 1, true)
  {
  }

  /** The Secret and then the Alert are created, and the Alert is delivered. */
  lemma AlertArrives() returns (actions: seq<Action>)
    ensures Exec(INITIAL, actions) == WithAlerts(Stored(None, 1, true))
    ensures forall i :: 0 <= i < |actions| ==> Listed(actions[i]) && Typed(actions[i])
  {
    var create, edit := SecretChange(SECRET, Some({"url"}), true), EditAlert(ALERT, Some((WEBHOOK, None)));
    var l := Put(EMPTY_LEVEL, ALERT, Some((WEBHOOK, None)));
    SecretArrives();
    AlertIsCreated();
    OnlyAlertsMove(l, Deliver);
    Then([], INITIAL, create);
    Then([] + [create], WithAlerts(EMPTY_LEVEL), edit);
    Then([] + [create] + [edit], WithAlerts(l), AlertStep(Deliver, true));
    actions := [] + [create] + [edit] + [AlertStep(Deliver, true)];
  }

  /** A run's failed pass over the Alert. */
  lemma PassFails(actions: seq<Action>, status: Option<Verdict>, version: nat) returns (r: seq<Action>)
    requires Exec(INITIAL, actions) == WithAlerts(Stored(status, version, true))
    requires forall i :: 0 <= i < |actions| ==> Listed(actions[i]) && Typed(actions[i])
    ensures Exec(INITIAL, r) ==
            WithAlerts(if status == Some(UNREAD) then Stored(status, version, false)
                       else Controller.Step(Stored(status, version, false).(work :=
                              Some(Work(ALERT, Object(WEBHOOK, status, version), 0, UNREAD.failure))), VIEW, Finish(false)))
    ensures forall i :: 0 <= i < |r| ==> Listed(r[i]) && Typed(r[i])
  {
    var w := Work(ALERT, Object(WEBHOOK, status, version), 0, None);
    var l0, l := Stored(status, version, true), Stored(status, version, false);
    var l1, l2 := l.(work := Some(w)), l.(work := Some(w.(failure := UNREAD.failure)));
    FailedPass(status, version);
    var r1 := actions + [AlertStep(Begin(ALERT), true)];
    var r2 := r1 + [AlertStep(Check(true), true)];
    Then(actions, WithAlerts(l0), AlertStep(Begin(ALERT), true));
    OnlyAlertsMove(l0, Begin(ALERT));
    Then(r1, WithAlerts(l1), AlertStep(Check(true), true));
    OnlyAlertsMove(l1, Check(true));
    Then(r2, WithAlerts(l2), AlertStep(Finish(false), true));
    OnlyAlertsMove(l2, Finish(false));
    r := r2 + [AlertStep(Finish(false), true)];
  }

  lemma GivenUp()
    ensures var c := WithAlerts(Stored(Some(UNREAD), 2, false));
            && Quiet(c) && ALERT in c.alerts.server
            && ValidAlert(c, ALERT) && !ReadyCondition(c.alerts.server[ALERT])
  {
  }

  /**
   Two failed reads of a Secret in a row, the second finding the first on record, and the Alert is given up:
   everything is quiet, the Secret is there, and the Alert is not Ready.
   */
  lemma FailedReadsMayOutlast() returns (actions: seq<Action>)
    ensures forall i :: 0 <= i < |actions| ==> Listed(actions[i]) && Typed(actions[i])
    ensures var c := Exec(INITIAL, actions);
            && CascadeInv(c) && Quiet(c) && ALERT in c.alerts.server
            && ValidAlert(c, ALERT) && !ReadyCondition(c.alerts.server[ALERT])
  {
    var created := AlertArrives();
    var failed := PassFails(created, None, 1);
    FailedPass(None, 1);
    var l := Exec(INITIAL, failed).alerts;
    Then(failed, WithAlerts(l), AlertStep(Deliver, true));
    OnlyAlertsMove(l, Deliver);
    actions := PassFails(failed + [AlertStep(Deliver, true)], Some(UNREAD), 2);
    GivenUp();
    CascadeStaysConsistent(actions);
  }
}
