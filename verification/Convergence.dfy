/**
 Convergence of the readiness cascade once nobody edits any more. A step brings a lexicographic measure
 down or changes nothing, except a conflict on an object whose newer version is still on its way; and
 such conflicts cannot go on for ever where events are delivered, so every fair run becomes quiet.
 (internal/controller/alert_controller.go:49-96, alertgroup_controller.go:47-91)
 */
module Convergence {
  import opened Wrappers
  import opened Readiness
  import opened Controller
  import opened Cascade

  /** Objects whose stored verdict is not today's. */
  ghost function Wrong(l: Level, view: View): set<Name> {
    set n | n in l.server && l.server[n].status != Some(Judge(view, n.namespace, l.server[n].spec))
  }

  /** A pass that has seen something that no longer holds, and may still write it down. */
  ghost predicate Tainted(l: Level, view: View) {
    l.work.Some? && !(Bounded(l.work.value) && Truthful(view, l.work.value))
  }

  /** Steps left in the pass under way. */
  function PassLeft(l: Level): int {
    if l.work.None? then 0
    else
      var w := l.work.value;
      1 + 2 * (|Deps(w.subject.spec)| - w.checked) + if w.failure.None? then 1 else 0
  }

  /** A pass on a version of the object that the cache no longer holds. */
  predicate Outdated(l: Level) {
    l.work.Some? &&
    var w := l.work.value; !(w.name in l.cache && l.cache[w.name] == w.subject)
  }

  /** Compared lexicographically, in this order. */
  datatype Measure = Measure(tainted: int, wrong: int, undelivered: int, queued: int, outdated: int, passLeft: int)

  ghost function MeasureOf(l: Level, view: View): Measure {
    Measure(if Tainted(l, view) then 1 else 0, |Wrong(l, view)|, |l.channel|, |l.queue|,
            if Outdated(l) then 1 else 0, PassLeft(l))
  }

  /** On the first three components, which no step raises. */
  predicate PrefixLess(m: Measure, n: Measure) {
    || m.tainted < n.tainted
    || (m.tainted == n.tainted &&
        (|| m.wrong < n.wrong
         || (m.wrong == n.wrong && m.undelivered < n.undelivered)))
  }

  predicate SamePrefix(m: Measure, n: Measure) {
    m.tainted == n.tainted && m.wrong == n.wrong && m.undelivered == n.undelivered
  }

  predicate Less(m: Measure, n: Measure) {
    || PrefixLess(m, n)
    || (SamePrefix(m, n) &&
        (|| m.queued < n.queued
         || (m.queued == n.queued &&
             (|| m.outdated < n.outdated
              || (m.outdated == n.outdated && m.passLeft < n.passLeft)))))
  }

  /** A finished pass that is refused, on an object of which an event is still to be delivered. */
  ghost predicate Awaits(l: Level, step: LevelStep) {
    step.Finish? && l.work.Some? && Scanned(l.work.value) && !Skips(l.work.value) && Conflicts(l, l.work.value) &&
    Undelivered(l, l.work.value.name)
  }

  predicate Faulty(step: LevelStep) {
    step.Check? && step.faulty
  }

  lemma {:induction false} UntouchedByReplay(objects: map<Name, Object>, channel: seq<Event>, name: Name)
    requires forall i :: 0 <= i < |channel| ==> channel[i].name != name
    ensures name in Replay(objects, channel) <==> name in objects
    ensures name in objects ==> Replay(objects, channel)[name] == objects[name]
    decreases |channel|
  {
    if channel != [] {
      UntouchedByReplay(Applied(objects, channel[0]), channel[1..], name);
    }
  }

  /** Where nothing is on its way the cache is up to date: a conflict then comes from an outdated pass. */
  lemma ConflictIsOutdated(l: Level, view: View)
    requires Inv(l, view) && l.work.Some? && Conflicts(l, l.work.value) && !Undelivered(l, l.work.value.name)
    ensures Outdated(l) && l.work.value.name in l.queue
  {
    UntouchedByReplay(l.cache, l.channel, l.work.value.name);
  }

  /**
   A pass that could not read a dependency leaves the object without a pending request exactly if the
   same failure was already on record; otherwise its own write brings the object back.
   */
  lemma FailedReadIsRetriedIff(l: Level, view: View, w: Work, retry: bool)
    requires Inv(l, view) && l.work == Some(w) && FailedToRead(w)
    requires w.name !in l.queue && !Undelivered(l, w.name)
    ensures Pending(Controller.Step(l, view, Finish(retry)), w.name) <==> w.subject.status != Some(VerdictOf(w))
  {
    UntouchedByReplay(l.cache, l.channel, w.name);
    assert !Conflicts(l, w) && l.server[w.name] == w.subject;
    var l' := Controller.Step(l, view, Finish(retry));
    if w.subject.status == Some(VerdictOf(w)) {
      assert l' == l.(work := None);
      assert Undelivered(l', w.name) ==> Undelivered(l, w.name);
    } else {
      PutKeepsInv(l, view, w.name, Some((w.subject.spec, Some(VerdictOf(w)))));
      assert l'.channel[|l.channel|].name == w.name;
    }
  }

  lemma WriteSettlesWrong(l: Level, view: View, w: Work)
    requires Inv(l, view) && l.work == Some(w) && Scanned(w) && !Conflicts(l, w)
    requires l.server[w.name].status != Some(VerdictOf(w))
    requires !Tainted(l, view)
    ensures var l' := Put(l.(work := None), w.name, Some((l.server[w.name].spec, Some(VerdictOf(w)))));
            |Wrong(l', view)| < |Wrong(l, view)|
  {
    var l' := Put(l.(work := None), w.name, Some((l.server[w.name].spec, Some(VerdictOf(w)))));
    TruthfulVerdict(view, w);
    assert l.server[w.name] == w.subject;
    assert Wrong(l', view) == Wrong(l, view) - {w.name};
    assert w.name in Wrong(l, view);
  }

  lemma ConflictProgresses(l: Level, view: View, retry: bool)
    requires Inv(l, view) && l.work.Some? && Scanned(l.work.value) && !Skips(l.work.value) && Conflicts(l, l.work.value)
    ensures var l' := Controller.Step(l, view, Finish(retry));
            && l'.server == l.server && l'.channel == l.channel && l'.cache == l.cache
            && !Tainted(l', view) && !Outdated(l')
            && (!Undelivered(l, l.work.value.name) ==> Less(MeasureOf(l', view), MeasureOf(l, view)))
  {
    var w, l' := l.work.value, Controller.Step(l, view, Finish(retry));
    assert Wrong(l', view) == Wrong(l, view);
    if !Undelivered(l, w.name) {
      ConflictIsOutdated(l, view);
      assert l.queue + {w.name} == l.queue;
    }
  }

  lemma FinishProgresses(l: Level, view: View, retry: bool)
    requires Inv(l, view) && l.work.Some? && Scanned(l.work.value)
    requires Skips(l.work.value) || !Conflicts(l, l.work.value)
    ensures Less(MeasureOf(Controller.Step(l, view, Finish(retry)), view), MeasureOf(l, view))
  {
    var w, l' := l.work.value, Controller.Step(l, view, Finish(retry));
    if !Skips(w) && l.server[w.name].status != Some(VerdictOf(w)) {
      if !Tainted(l, view) {
        WriteSettlesWrong(l, view, w);
      }
    } else {
      assert l' == l.(work := None);
      assert Wrong(l', view) == Wrong(l, view);
    }
  }

  /** Every step of a controller counts, unless it changes nothing or awaits a delivery. */
  lemma StepProgresses(l: Level, view: View, step: LevelStep)
    requires Inv(l, view) && !Faulty(step) && !Awaits(l, step)
    ensures var l' := Controller.Step(l, view, step); l' == l || Less(MeasureOf(l', view), MeasureOf(l, view))
  {
    var l' := Controller.Step(l, view, step);
    if l' != l {
      match step
      case Deliver =>
        assert Wrong(l', view) == Wrong(l, view);
      case Begin(name) =>
        assert Wrong(l', view) == Wrong(l, view);
        assert l'.queue == l.queue - {name};
      case Check(_) =>
        assert Wrong(l', view) == Wrong(l, view);
        assert Tainted(l', view) ==> Tainted(l, view);
      case Finish(retry) =>
        if Skips(l.work.value) || !Conflicts(l, l.work.value) {
          FinishProgresses(l, view, retry);
        } else {
          ConflictProgresses(l, view, retry);
        }
    }
  }

  /** A conflict that awaits a delivery costs something, but not in the leading components. */
  lemma PrefixNeverRises(l: Level, view: View, step: LevelStep)
    requires Inv(l, view) && !Faulty(step)
    ensures var m, m' := MeasureOf(l, view), MeasureOf(Controller.Step(l, view, step), view);
            PrefixLess(m', m) || SamePrefix(m', m)
  {
    if Awaits(l, step) {
      var l' := Controller.Step(l, view, step);
      ConflictProgresses(l, view, step.retry);
      assert Wrong(l', view) == Wrong(l, view);
    } else {
      StepProgresses(l, view, step);
    }
  }

  /** A level that is not quiet has a step that makes progress. */
  lemma NeverStuck(l: Level, view: View) returns (step: LevelStep)
    requires Inv(l, view) && !LevelQuiet(l)
    ensures !Faulty(step) && !Awaits(l, step)
    ensures Less(MeasureOf(Controller.Step(l, view, step), view), MeasureOf(l, view))
  {
    if l.channel != [] {
      step := Deliver;
    } else if l.work.Some? {
      step := if Scanned(l.work.value) then Finish(false) else Check(false);
    } else {
      var name :| name in l.queue;
      step := Begin(name);
    }
    StepProgresses(l, view, step);
  }

  // ----- the cluster -----

  /** A step of a controller, not an edit from outside. */
  predicate IsControllerStep(a: Action) {
    a.AlertStep? || a.GroupStep? || a.ProviderStep?
  }

  ghost function LevelOf(c: Cluster, a: Action): Level
    requires IsControllerStep(a)
  {
    if a.AlertStep? then c.alerts else if a.GroupStep? then c.groups else c.providers
  }

  ghost function AlertMeasure(c: Cluster): Measure { MeasureOf(c.alerts, SecretView(c.secrets)) }

  ghost function GroupMeasure(c: Cluster): Measure { MeasureOf(c.groups, AlertView(c.alerts.cache)) }

  ghost function ProviderMeasure(c: Cluster): Measure { MeasureOf(c.providers, SecretView(c.secrets)) }

  /** Alerts first, since they move the ground under the groups; providers stand alone. */
  ghost predicate Nearer(c: Cluster, c': Cluster) {
    || Less(AlertMeasure(c'), AlertMeasure(c))
    || (AlertMeasure(c') == AlertMeasure(c) &&
        (|| Less(GroupMeasure(c'), GroupMeasure(c))
         || (GroupMeasure(c') == GroupMeasure(c) && Less(ProviderMeasure(c'), ProviderMeasure(c)))))
  }

  /**
   Without edits and read failures, a controller's step changes nothing, or brings the cluster nearer to
   quiet, or is a conflict on an object of which an event is still to be delivered.
   */
  lemma ControllersConverge(c: Cluster, a: Action)
    requires CascadeInv(c) && IsControllerStep(a) && !Faulty(a.step)
    ensures Cascade.Step(c, a) == c || Nearer(c, Cascade.Step(c, a)) || Awaits(LevelOf(c, a), a.step)
  {
    var view := if a.GroupStep? then AlertView(c.alerts.cache) else SecretView(c.secrets);
    if !Awaits(LevelOf(c, a), a.step) {
      StepProgresses(LevelOf(c, a), view, a.step);
      if a.AlertStep? && Controller.Step(c.alerts, view, a.step) == c.alerts {
        UnchangedLevelDeliversNothing(c.alerts, view, a.step);
      }
    }
  }

  lemma UnchangedLevelDeliversNothing(l: Level, view: View, step: LevelStep)
    requires Controller.Step(l, view, step) == l
    ensures step == Deliver ==> l.channel == []
  {
    assert step == Deliver && l.channel != [] ==> |Controller.Step(l, view, step).channel| == |l.channel| - 1;
  }

  lemma SomethingToDo(c: Cluster) returns (a: Action)
    requires CascadeInv(c) && !Quiet(c)
    ensures IsControllerStep(a) && Listed(a) && !Faulty(a.step)
    ensures Nearer(c, Cascade.Step(c, a)) && !Awaits(LevelOf(c, a), a.step)
  {
    if !LevelQuiet(c.alerts) {
      var step := NeverStuck(c.alerts, SecretView(c.secrets));
      a := AlertStep(step, true);
    } else if !LevelQuiet(c.groups) {
      var step := NeverStuck(c.groups, AlertView(c.alerts.cache));
      a := GroupStep(step);
    } else {
      var step := NeverStuck(c.providers, SecretView(c.secrets));
      a := ProviderStep(step);
    }
  }

  ghost predicate Natural(m: Measure) {
    m.tainted >= 0 && m.wrong >= 0 && m.undelivered >= 0 && m.queued >= 0 && m.outdated >= 0 && m.passLeft >= 0
  }

  lemma MeasuresAreNatural(c: Cluster)
    requires CascadeInv(c)
    ensures Natural(AlertMeasure(c)) && Natural(GroupMeasure(c)) && Natural(ProviderMeasure(c))
  {
  }

  // ----- nothing new, nothing written -----

  /** A reconcile of an object that already carries the right verdict leaves the API server alone. */
  lemma UnchangedObjectIsNotWritten(l: Level, view: View, retry: bool)
    requires Inv(l, view) && l.work.Some? && Scanned(l.work.value) && Truthful(view, l.work.value)
    requires l.work.value.subject.status ==
             Some(Judge(view, l.work.value.name.namespace, l.work.value.subject.spec))
    ensures var l' := Controller.Step(l, view, Finish(retry)); l'.server == l.server && l'.channel == l.channel
  {
    TruthfulVerdict(view, l.work.value);
  }
}
