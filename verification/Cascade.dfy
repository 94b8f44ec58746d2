/**
 The readiness cascade: Secrets decide Alerts and AIProviders, Alerts decide AlertGroups. Three
 controllers run side by side over one API server while anybody edits anything.

 The Secrets are the ones in the cache: a SecretChange is its delivery. An object that existed before
 the process started is one whose creation is still to be delivered.
 */
module Cascade {
  import opened Wrappers
  import opened Readiness
  import opened Controller
  import opened Runs

  datatype Cluster = Cluster(
    secrets: map<Name, set<string>>,
    alerts: Level,
    groups: Level,
    providers: Level
  )

  /** `listed`: the List call of the watch mapping succeeds; when it fails nobody is enqueued. */
  datatype Action =
    | SecretChange(name: Name, keys: Option<set<string>>, listed: bool)
    | EditAlert(name: Name, value: Option<(Spec, Option<Verdict>)>)
    | EditGroup(name: Name, value: Option<(Spec, Option<Verdict>)>)
    | EditProvider(name: Name, value: Option<(Spec, Option<Verdict>)>)
    | AlertStep(step: LevelStep, listed: bool)
    | GroupStep(step: LevelStep)
    | ProviderStep(step: LevelStep)

  const EMPTY_LEVEL := Level(map[], 1, [], map[], {}, None)
  const INITIAL := Cluster(map[], EMPTY_LEVEL, EMPTY_LEVEL, EMPTY_LEVEL)

  predicate ReadyCondition(o: Object) {
    o.status.Some? && o.status.value.failure.None?
  }

  function ReadyMap(objects: map<Name, Object>): map<Name, bool> {
    map n | n in objects :: ReadyCondition(objects[n])
  }

  function SecretView(secrets: map<Name, set<string>>): View {
    View(secrets, map[])
  }

  function AlertView(alerts: map<Name, Object>): View {
    View(map[], ReadyMap(alerts))
  }

  /** The objects a Secret's mapping enqueues. */
  function AffectedBySecretIn(cache: map<Name, Object>, secret: Name): set<Name> {
    set n | n in cache && AffectedBySecret(secret)(Item(n, cache[n].spec))
  }

  function AffectedByAlertIn(cache: map<Name, Object>, alert: Name): set<Name> {
    set n | n in cache && AffectedByAlert(alert)(Item(n, cache[n].spec))
  }

  function Enqueued(l: Level, names: set<Name>): Level {
    l.(queue := l.queue + names)
  }

  function Changed(secrets: map<Name, set<string>>, name: Name, keys: Option<set<string>>): map<Name, set<string>> {
    if keys.Some? then secrets[name := keys.value] else secrets - {name}
  }

  function Step(c: Cluster, a: Action): Cluster {
    match a
    case SecretChange(name, keys, listed) =>
      var c' := c.(secrets := Changed(c.secrets, name, keys));
      if !listed then c'
      else c'.(alerts := Enqueued(c.alerts, AffectedBySecretIn(c.alerts.cache, name)),
               providers := Enqueued(c.providers, AffectedBySecretIn(c.providers.cache, name)))
    case EditAlert(name, value) => c.(alerts := Put(c.alerts, name, value))
    case EditGroup(name, value) => c.(groups := Put(c.groups, name, value))
    case EditProvider(name, value) => c.(providers := Put(c.providers, name, value))
    case AlertStep(step, listed) =>
      var c' := c.(alerts := Controller.Step(c.alerts, SecretView(c.secrets), step));
      if step == Deliver && c.alerts.channel != [] && listed then
        c'.(groups := Enqueued(c.groups, AffectedByAlertIn(c.groups.cache, c.alerts.channel[0].name)))
      else c'
    case GroupStep(step) => c.(groups := Controller.Step(c.groups, AlertView(c.alerts.cache), step))
    case ProviderStep(step) => c.(providers := Controller.Step(c.providers, SecretView(c.secrets), step))
  }

  function Exec(c: Cluster, actions: seq<Action>): Cluster {
    Run(Step, c, actions)
  }

  predicate Listed(a: Action) {
    match a
    case SecretChange(_, _, listed) => listed
    case AlertStep(_, listed) => listed
    case _ => true
  }

  ghost predicate CascadeInv(c: Cluster) {
    && Inv(c.alerts, SecretView(c.secrets))
    && Inv(c.groups, AlertView(c.alerts.cache))
    && Inv(c.providers, SecretView(c.secrets))
  }

  lemma SecretChangeKeepsInv(l: Level, secrets: map<Name, set<string>>, name: Name, keys: Option<set<string>>)
    requires Inv(l, SecretView(secrets))
    ensures Inv(Enqueued(l, AffectedBySecretIn(l.cache, name)), SecretView(Changed(secrets, name, keys)))
  {
    var v, v' := SecretView(secrets), SecretView(Changed(secrets, name, keys));
    var notified := AffectedBySecretIn(l.cache, name);
    forall n | n in l.cache && n !in notified
      ensures forall i :: 0 <= i < |Deps(l.cache[n].spec)| ==>
                            Probe(v, n.namespace, Deps(l.cache[n].spec)[i]) == Probe(v', n.namespace, Deps(l.cache[n].spec)[i])
    {
      SecretIndexIsComplete(v, v', name, n.namespace, l.cache[n].spec);
    }
    NotifiedChangeKeepsInv(l, v, v', notified);
  }

  lemma AlertDeliveryKeepsGroups(c: Cluster)
    requires CascadeInv(c) && c.alerts.channel != []
    ensures Inv(Step(c, AlertStep(Deliver, true)).groups, AlertView(Applied(c.alerts.cache, c.alerts.channel[0])))
  {
    var e := c.alerts.channel[0];
    var v, v' := AlertView(c.alerts.cache), AlertView(Applied(c.alerts.cache, e));
    var notified := AffectedByAlertIn(c.groups.cache, e.name);
    forall n | n in c.groups.cache && n !in notified
      ensures forall i :: 0 <= i < |Deps(c.groups.cache[n].spec)| ==>
                            Probe(v, n.namespace, Deps(c.groups.cache[n].spec)[i]) ==
                            Probe(v', n.namespace, Deps(c.groups.cache[n].spec)[i])
    {
      AlertIndexIsComplete(v, v', e.name, n.namespace, c.groups.cache[n].spec);
    }
    NotifiedChangeKeepsInv(c.groups, v, v', notified);
  }

  lemma OnlyDeliveryMovesCache(l: Level, view: View, step: LevelStep)
    ensures Controller.Step(l, view, step).cache ==
            if step == Deliver && l.channel != [] then Applied(l.cache, l.channel[0]) else l.cache
  {
  }

  lemma StepKeepsCascade(c: Cluster, a: Action)
    requires CascadeInv(c) && Listed(a)
    ensures CascadeInv(Step(c, a))
  {
    match a
    case SecretChange(name, keys, _) =>
      SecretChangeKeepsInv(c.alerts, c.secrets, name, keys);
      SecretChangeKeepsInv(c.providers, c.secrets, name, keys);
    case EditAlert(name, value) => PutKeepsInv(c.alerts, SecretView(c.secrets), name, value);
    case EditGroup(name, value) => PutKeepsInv(c.groups, AlertView(c.alerts.cache), name, value);
    case EditProvider(name, value) => PutKeepsInv(c.providers, SecretView(c.secrets), name, value);
    case AlertStep(step, _) =>
      StepKeepsInv(c.alerts, SecretView(c.secrets), step);
      OnlyDeliveryMovesCache(c.alerts, SecretView(c.secrets), step);
      if step == Deliver && c.alerts.channel != [] {
        AlertDeliveryKeepsGroups(c);
      }
    case GroupStep(step) => StepKeepsInv(c.groups, AlertView(c.alerts.cache), step);
    case ProviderStep(step) => StepKeepsInv(c.providers, SecretView(c.secrets), step);
  }

  // ----- the mappings' loops compute these sets -----

  /** The items are the cache's objects of one namespace. */
  ghost predicate Lists(items: seq<Item>, cache: map<Name, Object>, namespace: string) {
    && (forall i :: 0 <= i < |items| ==> items[i].name in cache && items[i].spec == cache[items[i].name].spec)
    && (forall n :: n in cache && n.namespace == namespace ==> Item(n, cache[n].spec) in items)
  }

  /** What findAlertsForSecret, findAIProvidersForSecret and findAlertGroupsForAlert return, as sets. */
  lemma RequestsAreAffected(items: seq<Item>, cache: map<Name, Object>, changed: Name)
    requires Lists(items, cache, changed.namespace)
    ensures (set n | n in Requests(items, AffectedBySecret(changed))) == AffectedBySecretIn(cache, changed)
    ensures (set n | n in Requests(items, AffectedByAlert(changed))) == AffectedByAlertIn(cache, changed)
  {
    RequestsAreWanted(items, AffectedBySecret(changed));
    RequestsAreWanted(items, AffectedByAlert(changed));
    forall n | n in cache && n.namespace == changed.namespace
      ensures exists i :: 0 <= i < |items| && items[i] == Item(n, cache[n].spec)
    {
      assert Item(n, cache[n].spec) in items;
    }
  }

  // ----- main results: agreement -----

  /**
   The cascade invariant, over every interleaving of edits, deliveries and reconciles in which the
   mappings' List calls succeed: an object without a pending request carries the verdict its
   dependencies have now, or says that one of them could not be read.
   */
  lemma {:induction false} CascadeStaysConsistent(actions: seq<Action>)
    requires forall i :: 0 <= i < |actions| ==> Listed(actions[i])
    ensures CascadeInv(Exec(INITIAL, actions))
  {
    if actions != [] {
      CascadeStaysConsistent(actions[..|actions| - 1]);
      StepKeepsCascade(Exec(INITIAL, actions[..|actions| - 1]), actions[|actions| - 1]);
    }
  }

  predicate LevelQuiet(l: Level) {
    l.channel == [] && l.queue == {} && l.work.None?
  }

  predicate Quiet(c: Cluster) {
    LevelQuiet(c.alerts) && LevelQuiet(c.groups) && LevelQuiet(c.providers)
  }

  ghost predicate ReadFailed(o: Object) {
    o.status.Some? && o.status.value.failure.Some? && o.status.value.failure.value.Unreadable?
  }

  lemma QuietLevelIsCurrent(l: Level, view: View)
    requires Inv(l, view) && LevelQuiet(l)
    ensures l.cache == l.server
    ensures forall n :: n in l.server ==> Current(view, n, l.server[n])
  {
    forall n | n in l.server ensures Current(view, n, l.server[n]) {
      assert SettledOk(l, view, n);
    }
  }

  /** An Alert that exists and whose configuration the Secrets bear out. */
  ghost predicate ValidAlert(c: Cluster, name: Name) {
    name in c.alerts.server && WellFormedAlert(c.secrets, name.namespace, c.alerts.server[name].spec)
  }

  /** Every object is of its controller's kind, as the API server's schemas see to. */
  ghost predicate WellTyped(c: Cluster) {
    && (forall n :: n in c.alerts.server ==> c.alerts.server[n].spec.AlertOf?)
    && (forall n :: n in c.groups.server ==> c.groups.server[n].spec.GroupOf?)
    && (forall n :: n in c.providers.server ==> c.providers.server[n].spec.ProviderOf?)
  }

  /**
   With nothing pending an Alert is Ready exactly if it is valid against the Secrets and its status does
   not record a read that failed. In runs without failed reads it records none (Agreement.dfy).
   */
  lemma QuietAlertsAgree(c: Cluster, name: Name)
    requires CascadeInv(c) && Quiet(c) && WellTyped(c) && name in c.alerts.server
    ensures ReadyCondition(c.alerts.server[name]) <==> ValidAlert(c, name) && !ReadFailed(c.alerts.server[name])
  {
    QuietLevelIsCurrent(c.alerts, SecretView(c.secrets));
    JudgeIsValidate(SecretView(c.secrets), name.namespace, c.alerts.server[name].spec);
    AlertIsValidIff(c.secrets, name.namespace, c.alerts.server[name].spec);
  }

  /** An AIProvider that exists and whose configuration the Secrets bear out. */
  ghost predicate ValidProvider(c: Cluster, name: Name) {
    name in c.providers.server && WellFormedProvider(c.secrets, name.namespace, c.providers.server[name].spec)
  }

  lemma QuietProvidersAgree(c: Cluster, name: Name)
    requires CascadeInv(c) && Quiet(c) && WellTyped(c) && name in c.providers.server
    ensures ReadyCondition(c.providers.server[name]) <==>
            ValidProvider(c, name) && !ReadFailed(c.providers.server[name])
  {
    QuietLevelIsCurrent(c.providers, SecretView(c.secrets));
    JudgeIsValidate(SecretView(c.secrets), name.namespace, c.providers.server[name].spec);
    ProviderIsValidIff(c.secrets, name.namespace, c.providers.server[name].spec);
  }

  /** A member that exists, whose secret references resolve, and on which no failed read is recorded. */
  ghost predicate ReadableMember(c: Cluster, member: Name) {
    ValidAlert(c, member) && !ReadFailed(c.alerts.server[member])
  }

  /**
   End to end: when nothing is pending, a group is Ready exactly if every named member exists, its secret
   references resolve, and neither the members nor the group record a failed read. Short of such a record
   its counters are the length of the ready prefix and of the member list.
   */
  lemma QuietGroupsAgree(c: Cluster, name: Name)
    requires CascadeInv(c) && Quiet(c) && WellTyped(c) && name in c.groups.server
    ensures var o := c.groups.server[name];
            var members := o.spec.alertNames;
            && (ReadyCondition(o) <==>
                  !ReadFailed(o) && forall i :: 0 <= i < |members| ==> ReadableMember(c, Name(name.namespace, members[i])))
            && (!ReadFailed(o) ==>
                  o.status == Some(Judge(AlertView(c.alerts.server), name.namespace, o.spec)))
  {
    var o := c.groups.server[name];
    var view, members := AlertView(c.alerts.server), o.spec.alertNames;
    QuietLevelIsCurrent(c.alerts, SecretView(c.secrets));
    QuietLevelIsCurrent(c.groups, AlertView(c.alerts.cache));
    PassesIffAllMet(view, name.namespace, o.spec);
    forall i | 0 <= i < |members|
      ensures Probe(view, name.namespace, Deps(o.spec)[i]).None? <==>
              ReadableMember(c, Name(name.namespace, members[i]))
    {
      var member := Name(name.namespace, members[i]);
      assert Deps(o.spec)[i] == NeedsAlert(members[i]);
      if member in c.alerts.server {
        QuietAlertsAgree(c, member);
      }
    }
  }

  // ----- a mapping whose List call fails -----

  /** A ready Alert, nothing pending: the state before the Secret goes away. */
  function ReadyAlertCluster(): Cluster {
    var alert := Object(AlertOf("Webhook", Some(Selector("s", "url")), None), Some(Verdict(0, 0, None)), 1);
    var level := Level(map[Name("ns", "a") := alert], 2, [], map[Name("ns", "a") := alert], {}, None);
    Cluster(map[Name("ns", "s") := {"url"}], level, EMPTY_LEVEL, EMPTY_LEVEL)
  }

  /** When the List call fails the change is lost: nothing is pending and the Alert stays Ready. */
  lemma UnlistedChangeIsLost()
    ensures var c := ReadyAlertCluster();
            var c' := Step(c, SecretChange(Name("ns", "s"), None, false));
            && CascadeInv(c) && Quiet(c) && WellTyped(c)
            && Quiet(c') && ReadyCondition(c'.alerts.server[Name("ns", "a")])
            && !ValidAlert(c', Name("ns", "a"))
  {
    var c, n := ReadyAlertCluster(), Name("ns", "a");
    var view := SecretView(c.secrets);
    MetPrefixIs(view, "ns", Deps(c.alerts.cache[n].spec), 1);
    assert Current(view, n, c.alerts.cache[n]);
    assert forall m :: m in c.alerts.cache ==> m == n;
    assert SettledOk(c.alerts, view, n);
  }

  /** The change of view alters the verdict of no object that nobody is going to look at again. */
  ghost predicate VerdictsStand(l: Level, v: View, v': View) {
    forall n :: n in l.cache && !Pending(l, n) && !ReadFailed(l.cache[n]) ==>
                  Judge(v', n.namespace, l.cache[n].spec) == Judge(v, n.namespace, l.cache[n].spec)
  }

  /** How many dependencies a pass has looked at. */
  function Seen(w: Work): nat {
    w.checked + if w.failure.Some? then 1 else 0
  }

  /** Nor does it belie what a pass under way has found, unless the pass is to be repeated anyway. */
  ghost predicate FindingsStand(l: Level, v: View, v': View) {
    l.work.Some? && l.work.value.name !in l.queue && !FailedToRead(l.work.value) ==>
      var w := l.work.value;
      forall i :: 0 <= i < Seen(w) && i < |Deps(w.subject.spec)| ==>
        Probe(v', w.name.namespace, Deps(w.subject.spec)[i]) == Probe(v, w.name.namespace, Deps(w.subject.spec)[i])
  }

  /** A change that enqueues nobody keeps the cascade invariant exactly if it changes nothing anybody relies on. */
  lemma LostChangeHarmlessIff(l: Level, v: View, v': View)
    requires Inv(l, v)
    ensures Inv(l, v') <==> VerdictsStand(l, v, v') && FindingsStand(l, v, v')
  {
    if l.work.Some? {
      LostChangeAndWork(l, v, v');
    }
    forall n | n in l.cache
      ensures SettledOk(l, v', n) <==>
              (!Pending(l, n) && !ReadFailed(l.cache[n]) ==>
                 Judge(v', n.namespace, l.cache[n].spec) == Judge(v, n.namespace, l.cache[n].spec))
    {
      assert SettledOk(l, v, n);
    }
  }

  lemma LostChangeAndWork(l: Level, v: View, v': View)
    requires l.work.Some? && WorkOk(l, v, l.work.value)
    ensures WorkOk(l, v', l.work.value) <==> FindingsStand(l, v, v')
  {
    var w := l.work.value;
    var deps := Deps(w.subject.spec);
    if w.name !in l.queue && !FailedToRead(w) {
      assert forall i :: 0 <= i < w.checked ==> Probe(v, w.name.namespace, deps[i]).None?;
      if Truthful(v', w) {
        assert forall i :: 0 <= i < w.checked ==> Probe(v', w.name.namespace, deps[i]) == Probe(v, w.name.namespace, deps[i]);
      }
    }
  }

  /** A Secret's change whose List calls fail: harmless exactly if it is to the Alerts and to the AIProviders. */
  lemma UnlistedChangeHarmlessIff(c: Cluster, name: Name, keys: Option<set<string>>)
    requires CascadeInv(c)
    ensures var v, v' := SecretView(c.secrets), SecretView(Changed(c.secrets, name, keys));
            CascadeInv(Step(c, SecretChange(name, keys, false))) <==>
              && VerdictsStand(c.alerts, v, v') && FindingsStand(c.alerts, v, v')
              && VerdictsStand(c.providers, v, v') && FindingsStand(c.providers, v, v')
  {
    var v, v' := SecretView(c.secrets), SecretView(Changed(c.secrets, name, keys));
    LostChangeHarmlessIff(c.alerts, v, v');
    LostChangeHarmlessIff(c.providers, v, v');
  }

  /** An Alert's change whose List call fails: harmless exactly if it is to the AlertGroups. */
  lemma UnlistedDeliveryHarmlessIff(c: Cluster)
    requires CascadeInv(c) && c.alerts.channel != []
    ensures var v, v' := AlertView(c.alerts.cache), AlertView(Applied(c.alerts.cache, c.alerts.channel[0]));
            CascadeInv(Step(c, AlertStep(Deliver, false))) <==>
              VerdictsStand(c.groups, v, v') && FindingsStand(c.groups, v, v')
  {
    StepKeepsInv(c.alerts, SecretView(c.secrets), Deliver);
    assert Step(c, AlertStep(Deliver, false)) == c.(alerts := Controller.Step(c.alerts, SecretView(c.secrets), Deliver));
    LostChangeHarmlessIff(c.groups, AlertView(c.alerts.cache),
                          AlertView(Applied(c.alerts.cache, c.alerts.channel[0])));
  }
}
