/**
 Endless runs of the three controllers after the last edit. A run is any sequence of clusters in which
 each comes from the one before by a controller's step, whichever it is and whether or not it does
 anything; conflicts are allowed at any point, failed reads and failed List calls are not.
 (internal/controller/alert_controller.go:49-96, alertgroup_controller.go:47-91,
 aiprovider_controller.go:60-108)
 */
module FairRuns {
  import opened Wrappers
  import opened Readiness
  import opened Controller
  import opened Cascade
  import opened Convergence
  import opened Runs

  datatype Part = Alerts | Groups | Providers

  function LevelAt(c: Cluster, part: Part): Level {
    match part
    case Alerts => c.alerts
    case Groups => c.groups
    case Providers => c.providers
  }

  function ViewAt(c: Cluster, part: Part): View {
    if part == Groups then AlertView(c.alerts.cache) else SecretView(c.secrets)
  }

  /** The step an action makes in that part, if it belongs there. */
  function StepIn(a: Action, part: Part): Option<LevelStep> {
    match (a, part)
    case (AlertStep(step, _), Alerts) => Some(step)
    case (GroupStep(step), Groups) => Some(step)
    case (ProviderStep(step), Providers) => Some(step)
    case _ => None
  }

  /** The i-th step is a controller's, with no failed read or List. */
  ghost predicate Controlled(run: nat -> Cluster, acts: nat -> Action, i: nat) {
    && IsControllerStep(acts(i)) && Listed(acts(i)) && !Faulty(acts(i).step)
    && run(i + 1) == Cascade.Step(run(i), acts(i))
  }

  ghost predicate IsRun(run: nat -> Cluster, acts: nat -> Action) {
    CascadeInv(run(0)) && forall i: nat {:trigger Controlled(run, acts, i)} :: Controlled(run, acts, i)
  }

  lemma {:induction false} RunKeepsInv(run: nat -> Cluster, acts: nat -> Action, i: nat)
    requires IsRun(run, acts)
    ensures CascadeInv(run(i)) && run(i).secrets == run(0).secrets
  {
    if i > 0 {
      RunKeepsInv(run, acts, i - 1);
      assert Controlled(run, acts, i - 1);
      StepKeepsCascade(run(i - 1), acts(i - 1));
    }
  }

  // ----- without conflicts that wait -----

  /** The i-th step changes nothing, or is a conflict that awaits a delivery. */
  ghost predicate Pauses(run: nat -> Cluster, acts: nat -> Action, i: nat)
    requires IsControllerStep(acts(i))
  {
    run(i + 1) == run(i) || Awaits(LevelOf(run(i), acts(i)), acts(i).step)
  }

  lemma StepOfRun(run: nat -> Cluster, acts: nat -> Action, i: nat, a: Measure, g: Measure, p: Measure)
    returns (a': Measure, g': Measure, p': Measure)
    requires IsRun(run, acts) && a == AlertMeasure(run(i)) && g == GroupMeasure(run(i)) && p == ProviderMeasure(run(i))
    ensures IsControllerStep(acts(i)) && Natural(a) && Natural(g) && Natural(p)
    ensures a' == AlertMeasure(run(i + 1)) && g' == GroupMeasure(run(i + 1)) && p' == ProviderMeasure(run(i + 1))
    ensures Pauses(run, acts, i) || Less(a', a) || (a' == a && (Less(g', g) || (g' == g && Less(p', p))))
  {
    RunKeepsInv(run, acts, i);
    assert Controlled(run, acts, i);
    MeasuresAreNatural(run(i));
    ControllersConverge(run(i), acts(i));
    a', g', p' := AlertMeasure(run(i + 1)), GroupMeasure(run(i + 1)), ProviderMeasure(run(i + 1));
  }

  lemma {:induction false} PausesFrom(run: nat -> Cluster, acts: nat -> Action, i: nat, a: Measure, g: Measure, p: Measure)
    returns (k: nat)
    requires IsRun(run, acts) && a == AlertMeasure(run(i)) && g == GroupMeasure(run(i)) && p == ProviderMeasure(run(i))
    ensures k >= i && IsControllerStep(acts(k)) && Pauses(run, acts, k)
    decreases a.tainted, a.wrong, a.undelivered, a.queued, a.outdated, a.passLeft,
              g.tainted, g.wrong, g.undelivered, g.queued, g.outdated, g.passLeft,
              p.tainted, p.wrong, p.undelivered, p.queued, p.outdated, p.passLeft
  {
    k := i;
    var a', g', p' := StepOfRun(run, acts, i, a, g, p);
    if !Pauses(run, acts, i) {
      k := PausesFrom(run, acts, i + 1, a', g', p');
    }
  }

  /**
   No run has effective steps only: from any point on, some step changes nothing, or is a conflict on an
   object of which an event is still to be delivered.
   */
  lemma EveryRunPauses(run: nat -> Cluster, acts: nat -> Action, from: nat) returns (k: nat)
    requires IsRun(run, acts)
    ensures k >= from && IsControllerStep(acts(k)) && Pauses(run, acts, k)
  {
    k := PausesFrom(run, acts, from, AlertMeasure(run(from)), GroupMeasure(run(from)), ProviderMeasure(run(from)));
  }

  // ----- a run that ends -----

  /** An action that brings the cluster nearer to quiet, or does nothing if it is quiet. */
  ghost predicate Helps(c: Cluster, a: Action) {
    && IsControllerStep(a) && Listed(a) && !Faulty(a.step)
    && (if Quiet(c) then Cascade.Step(c, a) == c
        else Nearer(c, Cascade.Step(c, a)) && !Awaits(LevelOf(c, a), a.step))
  }

  lemma SomethingHelps(c: Cluster)
    requires CascadeInv(c)
    ensures exists a :: Helps(c, a)
  {
    if Quiet(c) {
      assert Helps(c, AlertStep(Deliver, true));
    } else {
      var a := SomethingToDo(c);
      assert Helps(c, a);
    }
  }

  ghost function Helpful(c: Cluster): Action {
    if exists a :: Helps(c, a) then var a :| Helps(c, a); a else AlertStep(Deliver, true)
  }

  lemma HelpfulHelps(c: Cluster)
    requires CascadeInv(c)
    ensures Helps(c, Helpful(c))
  {
    SomethingHelps(c);
  }

  ghost function HelpedBy(c: Cluster, n: nat): Cluster {
    if n == 0 then c else Cascade.Step(HelpedBy(c, n - 1), Helpful(HelpedBy(c, n - 1)))
  }

  /** The run that always helps. */
  ghost function HelpedRun(c: Cluster): nat -> Cluster {
    (i: nat) => HelpedBy(c, i)
  }

  ghost function HelpfulActs(c: Cluster): nat -> Action {
    (i: nat) => Helpful(HelpedBy(c, i))
  }

  lemma HelpStepKeepsInv(c: Cluster, c': Cluster)
    requires CascadeInv(c) && c' == Cascade.Step(c, Helpful(c))
    ensures CascadeInv(c')
  {
    var a := Helpful(c);
    assert Listed(a) by {
      HelpfulHelps(c);
    }
    StepKeepsCascade(c, a);
  }

  lemma {:induction false} HelpKeepsInv(c: Cluster, n: nat)
    requires CascadeInv(c)
    ensures CascadeInv(HelpedBy(c, n))
  {
    if n > 0 {
      HelpKeepsInv(c, n - 1);
      HelpStepKeepsInv(HelpedBy(c, n - 1), HelpedBy(c, n));
    }
  }

  lemma HelpIsARun(c: Cluster)
    requires CascadeInv(c)
    ensures IsRun(HelpedRun(c), HelpfulActs(c))
  {
    var run, acts := HelpedRun(c), HelpfulActs(c);
    forall i: nat ensures Controlled(run, acts, i) {
      HelpKeepsInv(c, i);
      HelpfulHelps(run(i));
    }
  }

  predicate ControllersOnly(actions: seq<Action>) {
    forall i :: 0 <= i < |actions| ==> IsControllerStep(actions[i]) && Listed(actions[i])
  }

  /** The first n actions of a run. */
  function Prefix(acts: nat -> Action, n: nat): (r: seq<Action>)
    ensures |r| == n && forall i :: 0 <= i < n ==> r[i] == acts(i)
  {
    if n == 0 then [] else Prefix(acts, n - 1) + [acts(n - 1)]
  }

  lemma {:induction false} RunIsExec(run: nat -> Cluster, acts: nat -> Action, n: nat)
    requires IsRun(run, acts)
    ensures Exec(run(0), Prefix(acts, n)) == run(n)
  {
    if n > 0 {
      RunIsExec(run, acts, n - 1);
      RunGrows(Cascade.Step, run(0), Prefix(acts, n - 1), acts(n - 1));
      assert Controlled(run, acts, n - 1);
    }
  }

  lemma PrefixIsControlled(run: nat -> Cluster, acts: nat -> Action, n: nat)
    requires IsRun(run, acts)
    ensures ControllersOnly(Prefix(acts, n))
  {
    forall i | 0 <= i < n ensures IsControllerStep(acts(i)) && Listed(acts(i)) {
      assert Controlled(run, acts, i);
    }
  }

  lemma NearerIsElsewhere(c: Cluster)
    ensures !Nearer(c, c)
  {
  }

  lemma HelpReachesQuiet(c: Cluster, from: nat) returns (k: nat)
    requires CascadeInv(c)
    ensures k >= from && Quiet(HelpedRun(c)(k))
  {
    var run, acts := HelpedRun(c), HelpfulActs(c);
    HelpIsARun(c);
    k := EveryRunPauses(run, acts, from);
    NearerIsElsewhere(run(k));
    HelpKeepsInv(c, k);
    HelpfulHelps(run(k));
  }

  /** From every state that edits can lead to, the controllers have a run to quiet. */
  lemma RunsToQuiet(edits: seq<Action>) returns (actions: seq<Action>)
    requires forall i :: 0 <= i < |edits| ==> Listed(edits[i])
    ensures ControllersOnly(actions) && Quiet(Exec(Exec(INITIAL, edits), actions))
  {
    CascadeStaysConsistent(edits);
    var c := Exec(INITIAL, edits);
    var k := HelpReachesQuiet(c, 0);
    HelpIsARun(c);
    RunIsExec(HelpedRun(c), HelpfulActs(c), k);
    PrefixIsControlled(HelpedRun(c), HelpfulActs(c), k);
    actions := Prefix(HelpfulActs(c), k);
  }

  // ----- with any conflicts, one part -----

  /** From the i-th state to the next, the part makes a step of its own, or none, in the given view. */
  ghost predicate Moves(run: nat -> Cluster, acts: nat -> Action, part: Part, view: View, i: nat) {
    var l, l', step := LevelAt(run(i), part), LevelAt(run(i + 1), part), StepIn(acts(i), part);
    if step.Some? then !Faulty(step.value) && l' == Controller.Step(l, view, step.value) else l' == l
  }

  ghost predicate MovesFrom(run: nat -> Cluster, acts: nat -> Action, part: Part, view: View, from: nat) {
    forall i: nat {:trigger Moves(run, acts, part, view, i)} :: i >= from ==> Moves(run, acts, part, view, i)
  }

  ghost predicate Changes(run: nat -> Cluster, part: Part, i: nat) {
    LevelAt(run(i + 1), part) != LevelAt(run(i), part)
  }

  ghost predicate Delivers(acts: nat -> Action, part: Part, i: nat) {
    StepIn(acts(i), part) == Some(Deliver)
  }

  /** An event on the watch is delivered some time. */
  ghost predicate DeliversEventually(run: nat -> Cluster, acts: nat -> Action, part: Part, i: nat) {
    LevelAt(run(i), part).channel != [] ==> exists j: nat :: j >= i && Delivers(acts, part, j)
  }

  /** A controller with something to do does something some time. */
  ghost predicate ActsEventually(run: nat -> Cluster, part: Part, i: nat) {
    !LevelQuiet(LevelAt(run(i), part)) ==> exists j: nat :: j >= i && Changes(run, part, j)
  }

  ghost predicate Fair(run: nat -> Cluster, acts: nat -> Action) {
    forall part: Part, i: nat
      {:trigger DeliversEventually(run, acts, part, i)} {:trigger ActsEventually(run, part, i)} ::
      DeliversEventually(run, acts, part, i) && ActsEventually(run, part, i)
  }

  ghost predicate ConstantFrom(run: nat -> Cluster, part: Part, k: nat) {
    forall i: nat {:trigger LevelAt(run(i), part)} :: i >= k ==> LevelAt(run(i), part) == LevelAt(run(k), part)
  }

  /** Between two moments without a change the part stays as it is. */
  lemma {:induction false} UnchangedStays(run: nat -> Cluster, part: Part, from: nat, i: nat)
    requires from <= i && forall j: nat :: from <= j < i ==> !Changes(run, part, j)
    ensures LevelAt(run(i), part) == LevelAt(run(from), part)
    decreases i
  {
    if from < i {
      UnchangedStays(run, part, from, i - 1);
      assert !Changes(run, part, i - 1);
    }
  }

  lemma {:induction false} FirstChange(run: nat -> Cluster, part: Part, from: nat, j: nat) returns (f: nat)
    requires from <= j && Changes(run, part, j)
    ensures from <= f && Changes(run, part, f) && LevelAt(run(f), part) == LevelAt(run(from), part)
    decreases j - from
  {
    if Changes(run, part, from) {
      f := from;
    } else {
      f := FirstChange(run, part, from + 1, j);
    }
  }

  lemma {:induction false} PrefixFalls(run: nat -> Cluster, acts: nat -> Action, part: Part, view: View, from: nat, i: nat)
    requires from <= i && MovesFrom(run, acts, part, view, from) && Inv(LevelAt(run(from), part), view)
    ensures Inv(LevelAt(run(i), part), view)
    ensures var m, m' := MeasureOf(LevelAt(run(from), part), view), MeasureOf(LevelAt(run(i), part), view);
            PrefixLess(m', m) || SamePrefix(m', m)
    decreases i
  {
    if from < i {
      PrefixFalls(run, acts, part, view, from, i - 1);
      assert Moves(run, acts, part, view, i - 1);
      var l, step := LevelAt(run(i - 1), part), StepIn(acts(i - 1), part);
      if step.Some? {
        StepKeepsInv(l, view, step.value);
        PrefixNeverRises(l, view, step.value);
      }
    }
  }

  /** After a delivery that a nonempty channel was waiting for, the leading components are down. */
  lemma DeliveryLowersPrefix(run: nat -> Cluster, acts: nat -> Action, part: Part, view: View, from: nat, d: nat)
    requires from <= d && MovesFrom(run, acts, part, view, from) && Inv(LevelAt(run(from), part), view)
    requires LevelAt(run(from), part).channel != [] && Delivers(acts, part, d)
    ensures PrefixLess(MeasureOf(LevelAt(run(d + 1), part), view), MeasureOf(LevelAt(run(from), part), view))
  {
    PrefixFalls(run, acts, part, view, from, d);
    assert Moves(run, acts, part, view, d);
    var l := LevelAt(run(d), part);
    if l.channel != [] {
      assert Wrong(Controller.Step(l, view, Deliver), view) == Wrong(l, view);
    }
  }

  lemma MeasureIsNatural(l: Level, view: View)
    requires Inv(l, view)
    ensures Natural(MeasureOf(l, view))
  {
  }

  /** A conflict that awaits a delivery gets it. */
  lemma AwaitedDeliveryLowers(run: nat -> Cluster, acts: nat -> Action, part: Part, view: View, f: nat, step: LevelStep)
    returns (k: nat)
    requires MovesFrom(run, acts, part, view, f) && Inv(LevelAt(run(f), part), view)
    requires Awaits(LevelAt(run(f), part), step) && DeliversEventually(run, acts, part, f)
    ensures k > f && PrefixLess(MeasureOf(LevelAt(run(k), part), view), MeasureOf(LevelAt(run(f), part), view))
  {
    var d: nat :| d >= f && Delivers(acts, part, d);
    DeliveryLowersPrefix(run, acts, part, view, f, d);
    k := d + 1;
  }

  /** A change brings the measure down, at once or with the delivery it awaits. */
  lemma LowerAfterChange(run: nat -> Cluster, acts: nat -> Action, part: Part, view: View, f: nat) returns (k: nat)
    requires MovesFrom(run, acts, part, view, f) && Inv(LevelAt(run(f), part), view) && Changes(run, part, f)
    requires DeliversEventually(run, acts, part, f)
    ensures k > f && Less(MeasureOf(LevelAt(run(k), part), view), MeasureOf(LevelAt(run(f), part), view))
  {
    assert Moves(run, acts, part, view, f);
    var step := StepIn(acts(f), part).value;
    if Awaits(LevelAt(run(f), part), step) {
      k := AwaitedDeliveryLowers(run, acts, part, view, f, step);
    } else {
      StepProgresses(LevelAt(run(f), part), view, step);
      k := f + 1;
    }
  }

  /** The next moment at which the measure is lower, if the part ever changes again. */
  lemma LowerSometime(run: nat -> Cluster, acts: nat -> Action, part: Part, view: View, from: nat, j: nat) returns (k: nat)
    requires MovesFrom(run, acts, part, view, from) && Inv(LevelAt(run(from), part), view) && Fair(run, acts)
    requires from <= j && Changes(run, part, j)
    ensures k > from && Inv(LevelAt(run(k), part), view) && MovesFrom(run, acts, part, view, k)
    ensures Less(MeasureOf(LevelAt(run(k), part), view), MeasureOf(LevelAt(run(from), part), view))
  {
    var f := FirstChange(run, part, from, j);
    assert DeliversEventually(run, acts, part, f);
    k := LowerAfterChange(run, acts, part, view, f);
    PrefixFalls(run, acts, part, view, from, k);
  }

  /** A part that only its own steps move, in a view that stays, is constant from some point on. */
  lemma {:induction false} PartSettles(run: nat -> Cluster, acts: nat -> Action, part: Part, view: View, from: nat, m: Measure)
    returns (k: nat)
    requires MovesFrom(run, acts, part, view, from) && Inv(LevelAt(run(from), part), view) && Fair(run, acts)
    requires m == MeasureOf(LevelAt(run(from), part), view)
    ensures k >= from && ConstantFrom(run, part, k)
    decreases m.tainted, m.wrong, m.undelivered, m.queued, m.outdated, m.passLeft
  {
    MeasureIsNatural(LevelAt(run(from), part), view);
    if j: nat :| from <= j && Changes(run, part, j) {
      var next := LowerSometime(run, acts, part, view, from, j);
      k := PartSettles(run, acts, part, view, next, MeasureOf(LevelAt(run(next), part), view));
    } else {
      k := from;
      forall i: nat | i >= k ensures LevelAt(run(i), part) == LevelAt(run(k), part) {
        UnchangedStays(run, part, k, i);
      }
    }
  }

  /** A constant part is quiet. */
  lemma ConstantIsQuiet(run: nat -> Cluster, acts: nat -> Action, part: Part, k: nat, i: nat)
    requires Fair(run, acts) && ConstantFrom(run, part, k) && i >= k
    ensures LevelQuiet(LevelAt(run(i), part))
  {
    assert ActsEventually(run, part, i);
    forall j: nat | j >= i ensures !Changes(run, part, j) {
      assert LevelAt(run(j), part) == LevelAt(run(k), part) && LevelAt(run(j + 1), part) == LevelAt(run(k), part);
    }
  }

  // ----- the cluster -----

  lemma AlertsAndProvidersMove(run: nat -> Cluster, acts: nat -> Action, part: Part)
    requires IsRun(run, acts) && part != Groups
    ensures MovesFrom(run, acts, part, SecretView(run(0).secrets), 0)
  {
    forall i: nat ensures Moves(run, acts, part, SecretView(run(0).secrets), i) {
      RunKeepsInv(run, acts, i);
      assert Controlled(run, acts, i);
    }
  }

  /** Once the Alerts have settled, nothing reaches the groups from outside. */
  lemma GroupsMove(run: nat -> Cluster, acts: nat -> Action, k: nat)
    requires IsRun(run, acts) && ConstantFrom(run, Alerts, k)
    ensures MovesFrom(run, acts, Groups, AlertView(run(k).alerts.cache), k)
  {
    forall i: nat | i >= k ensures Moves(run, acts, Groups, AlertView(run(k).alerts.cache), i) {
      assert Controlled(run, acts, i);
      assert LevelAt(run(i), Alerts) == LevelAt(run(k), Alerts) && LevelAt(run(i + 1), Alerts) == LevelAt(run(k), Alerts);
      if acts(i).AlertStep? {
        UnchangedLevelDeliversNothing(run(i).alerts, SecretView(run(i).secrets), acts(i).step);
      }
    }
  }

  /**
   Convergence of every fair run. However deliveries, reconciles and conflicts interleave after the last
   edit, as long as events are delivered some time and no controller rests for ever on work it has, there
   is a point from which on nothing is queued, in progress or undelivered, and nothing changes any more.
   */
  lemma FairRunsSettle(run: nat -> Cluster, acts: nat -> Action) returns (k: nat)
    requires IsRun(run, acts) && Fair(run, acts)
    ensures forall i: nat :: i >= k ==> Quiet(run(i)) && run(i) == run(k)
  {
    var v := SecretView(run(0).secrets);
    AlertsAndProvidersMove(run, acts, Alerts);
    AlertsAndProvidersMove(run, acts, Providers);
    var ka := PartSettles(run, acts, Alerts, v, 0, MeasureOf(LevelAt(run(0), Alerts), v));
    var kp := PartSettles(run, acts, Providers, v, 0, MeasureOf(LevelAt(run(0), Providers), v));
    RunKeepsInv(run, acts, ka);
    GroupsMove(run, acts, ka);
    var w := AlertView(run(ka).alerts.cache);
    var kg := PartSettles(run, acts, Groups, w, ka, MeasureOf(LevelAt(run(ka), Groups), w));
    k := if kp > kg then kp else kg;
    forall i: nat | i >= k ensures Quiet(run(i)) && run(i) == run(k) {
      ConstantIsQuiet(run, acts, Alerts, ka, i);
      ConstantIsQuiet(run, acts, Groups, kg, i);
      ConstantIsQuiet(run, acts, Providers, kp, i);
      RunKeepsInv(run, acts, i);
      RunKeepsInv(run, acts, k);
      assert LevelAt(run(i), Alerts) == LevelAt(run(ka), Alerts) == LevelAt(run(k), Alerts);
      assert LevelAt(run(i), Groups) == LevelAt(run(kg), Groups) == LevelAt(run(k), Groups);
      assert LevelAt(run(i), Providers) == LevelAt(run(kp), Providers) == LevelAt(run(k), Providers);
    }
  }

  // ----- fair runs exist -----

  lemma OnlyDeliveryShortensChannel(c: Cluster, a: Action, part: Part)
    requires IsControllerStep(a) && StepIn(a, part) != Some(Deliver)
    ensures |LevelAt(Cascade.Step(c, a), part).channel| >= |LevelAt(c, part).channel|
  {
    var step := StepIn(a, part);
    if step.Some? {
      assert LevelAt(Cascade.Step(c, a), part) == Controller.Step(LevelAt(c, part), ViewAt(c, part), step.value);
    }
  }

  lemma {:induction false} ChannelWaits(run: nat -> Cluster, acts: nat -> Action, part: Part, i: nat, k: nat)
    requires IsRun(run, acts) && i <= k && forall j: nat :: i <= j < k ==> !Delivers(acts, part, j)
    ensures |LevelAt(run(k), part).channel| >= |LevelAt(run(i), part).channel|
    decreases k
  {
    if i < k {
      ChannelWaits(run, acts, part, i, k - 1);
      assert Controlled(run, acts, k - 1) && !Delivers(acts, part, k - 1);
      OnlyDeliveryShortensChannel(run(k - 1), acts(k - 1), part);
    }
  }

  /** A run that always helps is fair; so what is proved of fair runs is not proved of nothing. */
  lemma FairRunsExist(c: Cluster)
    requires CascadeInv(c)
    ensures HelpedRun(c)(0) == c && IsRun(HelpedRun(c), HelpfulActs(c)) && Fair(HelpedRun(c), HelpfulActs(c))
  {
    var run, acts := HelpedRun(c), HelpfulActs(c);
    HelpIsARun(c);
    forall part: Part, i: nat ensures DeliversEventually(run, acts, part, i) && ActsEventually(run, part, i) {
      var k := HelpReachesQuiet(c, i);
      assert LevelQuiet(LevelAt(run(k), part));
      if !exists j: nat :: j >= i && Delivers(acts, part, j) {
        ChannelWaits(run, acts, part, i, k);
      }
      if !exists j: nat :: j >= i && Changes(run, part, j) {
        UnchangedStays(run, part, i, k);
      }
    }
  }
}
