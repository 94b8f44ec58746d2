/**
 One level-triggered controller over one kind of object: the retry-wrapped Reconcile of the Alert and
 AIProvider controllers (internal/controller/alert_controller.go:49-96, aiprovider_controller.go:60-108)
 and the Reconcile of the AlertGroup controller (alertgroup_controller.go:47-91), with the API server,
 the watch and the work queue around it.

 Assumptions about the machinery: every write gives the object a new version and puts one event on the
 watch; the cache changes only by delivering events, in order, and delivering one enqueues its object;
 a status update from an old version is refused; one that changes nothing makes no event; the queue
 holds a name at most once, and a name that arrives while it is being processed stays in it; there is
 one worker per controller, the default.
 */
module Controller {
  import opened Wrappers
  import opened Readiness
  import opened Runs

  datatype Object = Object(spec: Spec, status: Option<Verdict>, version: nat)

  datatype Event = Event(name: Name, content: Option<Object>)

  /** A reconcile in progress: the object as read, and how far its dependencies have been checked. */
  datatype Work = Work(name: Name, subject: Object, checked: nat, failure: Option<Reason>)

  datatype Level = Level(
    server: map<Name, Object>,
    nextVersion: nat,
    channel: seq<Event>,        // written, not yet delivered
    cache: map<Name, Object>,
    queue: set<Name>,
    work: Option<Work>
  )

  /** `faulty`: the Get fails, and not because of absence. `retry`: after a conflict, start over in place. */
  datatype LevelStep = Deliver | Begin(name: Name) | Check(faulty: bool) | Finish(retry: bool)

  function Applied(objects: map<Name, Object>, e: Event): map<Name, Object> {
    if e.content.Some? then objects[e.name := e.content.value] else objects - {e.name}
  }

  /** A write by anybody: create, update, delete, of the spec or of the status. */
  function Put(l: Level, name: Name, value: Option<(Spec, Option<Verdict>)>): Level {
    var e := Event(name, if value.None? then None else Some(Object(value.value.0, value.value.1, l.nextVersion)));
    l.(server := Applied(l.server, e), nextVersion := l.nextVersion + 1, channel := l.channel + [e])
  }

  predicate Scanned(w: Work) {
    w.failure.Some? || w.checked >= |Deps(w.subject.spec)|
  }

  function VerdictOf(w: Work): Verdict {
    Summary(w.subject.spec, w.checked, w.failure)
  }

  /** Alerts and providers skip a write that would change nothing; groups always write. */
  predicate Skips(w: Work) {
    !w.subject.spec.GroupOf? && w.subject.status == Some(VerdictOf(w))
  }

  predicate Conflicts(l: Level, w: Work) {
    w.name !in l.server || l.server[w.name].version != w.subject.version
  }

  function DependencyName(dep: Dep): string {
    match dep
    case Defect(_) => ""
    case NeedsSecret(ref) => ref.name
    case NeedsAlert(alert) => alert
  }

  function Started(l: Level, name: Name): Level {
    l.(work := if name in l.cache then Some(Work(name, l.cache[name], 0, None)) else None)
  }

  function Step(l: Level, view: View, step: LevelStep): Level {
    match step
    case Deliver =>
      if l.channel == [] then l
      else
        var e := l.channel[0];
        l.(channel := l.channel[1..], cache := Applied(l.cache, e), queue := l.queue + {e.name})
    case Begin(name) =>
      if name !in l.queue || l.work.Some? then l
      else Started(l, name).(queue := l.queue - {name})
    case Check(faulty) =>
      if l.work.None? || Scanned(l.work.value) then l
      else
        var w := l.work.value;
        var dep := Deps(w.subject.spec)[w.checked];
        var r := if faulty && !dep.Defect? then Some(Unreadable(DependencyName(dep)))
                 else Probe(view, w.name.namespace, dep);
        l.(work := Some(if r.Some? then w.(failure := r) else w.(checked := w.checked + 1)))
    case Finish(retry) =>
      if l.work.None? || !Scanned(l.work.value) then l
      else
        var w := l.work.value;
        var done := l.(work := None);
        if Skips(w) then done
        else if Conflicts(l, w) then
          if retry && !w.subject.spec.GroupOf? then Started(l, w.name) else done.(queue := l.queue + {w.name})
        else if l.server[w.name].status == Some(VerdictOf(w)) then done
        else Put(done, w.name, Some((l.server[w.name].spec, Some(VerdictOf(w)))))
  }

  // ----- the invariant -----

  function Replay(objects: map<Name, Object>, channel: seq<Event>): map<Name, Object>
    decreases |channel|
  {
    if channel == [] then objects else Replay(Applied(objects, channel[0]), channel[1..])
  }

  ghost predicate Undelivered(l: Level, name: Name) {
    exists i :: 0 <= i < |l.channel| && l.channel[i].name == name
  }

  /** A request for the object is queued, in progress, or about to be queued by a delivery. */
  ghost predicate Pending(l: Level, name: Name) {
    name in l.queue || (l.work.Some? && l.work.value.name == name) || Undelivered(l, name)
  }

  /** The stored verdict is what validation says now, or admits that something could not be read. */
  ghost predicate Current(view: View, name: Name, o: Object) {
    o.status.Some? &&
    (o.status.value == Judge(view, name.namespace, o.spec) ||
     (o.status.value.failure.Some? && o.status.value.failure.value.Unreadable?))
  }

  ghost predicate SettledOk(l: Level, view: View, name: Name)
    requires name in l.cache
  {
    Pending(l, name) || Current(view, name, l.cache[name])
  }

  /** No object was written at this version by anyone but the one who wrote this object. */
  ghost predicate Genuine(l: Level, name: Name, o: Object) {
    o.version < l.nextVersion && (name in l.server && l.server[name].version == o.version ==> l.server[name] == o)
  }

  ghost predicate Bounded(w: Work) {
    w.checked <= |Deps(w.subject.spec)| && (w.failure.Some? ==> w.checked < |Deps(w.subject.spec)|)
  }

  /** What was checked so far still holds. */
  ghost predicate Truthful(view: View, w: Work)
    requires Bounded(w)
  {
    var deps := Deps(w.subject.spec);
    && (forall i :: 0 <= i < w.checked ==> Probe(view, w.name.namespace, deps[i]).None?)
    && (w.failure.Some? ==> Probe(view, w.name.namespace, deps[w.checked]) == w.failure)
  }

  ghost predicate FailedToRead(w: Work) {
    w.failure.Some? && w.failure.value.Unreadable?
  }

  /** Unless a new request is queued, the pass works on the cached object and on current facts. */
  ghost predicate WorkOk(l: Level, view: View, w: Work) {
    && Bounded(w)
    && Genuine(l, w.name, w.subject)
    && (w.name !in l.queue ==>
          && w.name in l.cache && l.cache[w.name] == w.subject
          && (FailedToRead(w) || Truthful(view, w)))
  }

  ghost predicate EventOk(l: Level, e: Event) {
    e.content.Some? ==> Genuine(l, e.name, e.content.value)
  }

  ghost predicate Inv(l: Level, view: View) {
    && Replay(l.cache, l.channel) == l.server
    && (forall n {:trigger l.cache[n]} :: n in l.cache ==> Genuine(l, n, l.cache[n]))
    && (forall i {:trigger l.channel[i]} :: 0 <= i < |l.channel| ==> EventOk(l, l.channel[i]))
    && (forall n {:trigger SettledOk(l, view, n)} :: n in l.cache ==> SettledOk(l, view, n))
    && (l.work.Some? ==> WorkOk(l, view, l.work.value))
  }

  lemma {:induction false} ReplayGrows(objects: map<Name, Object>, channel: seq<Event>, e: Event)
    ensures Replay(objects, channel + [e]) == Applied(Replay(objects, channel), e)
    decreases |channel|
  {
    if channel == [] {
      assert channel + [e] == [e] && [e][1..] == [];
      assert Replay(Applied(objects, e), []) == Applied(objects, e);
    } else {
      ReplayGrows(Applied(objects, channel[0]), channel[1..], e);
      assert (channel + [e])[1..] == channel[1..] + [e];
    }
  }

  lemma PutKeepsInv(l: Level, view: View, name: Name, value: Option<(Spec, Option<Verdict>)>)
    requires Inv(l, view)
    ensures Inv(Put(l, name, value), view)
    ensures Undelivered(Put(l, name, value), name)
  {
    var l' := Put(l, name, value);
    var e := l'.channel[|l.channel|];
    ReplayGrows(l.cache, l.channel, e);
    assert l'.channel[|l.channel|].name == name;
    forall i | 0 <= i < |l'.channel| ensures EventOk(l', l'.channel[i]) {
      if i < |l.channel| {
        assert EventOk(l, l.channel[i]);
      }
    }
    forall n | n in l'.cache ensures SettledOk(l', view, n) {
      assert SettledOk(l, view, n);
      if Undelivered(l, n) {
        var i :| 0 <= i < |l.channel| && l.channel[i].name == n;
        assert l'.channel[i].name == n;
      }
    }
  }

  lemma DeliverKeepsInv(l: Level, view: View)
    requires Inv(l, view)
    ensures Inv(Step(l, view, Deliver), view)
  {
    var l' := Step(l, view, Deliver);
    if l.channel != [] {
      assert EventOk(l, l.channel[0]);
      forall n | n in l'.cache ensures SettledOk(l', view, n) {
        if n != l.channel[0].name {
          assert SettledOk(l, view, n);
          if Undelivered(l, n) {
            var i :| 0 <= i < |l.channel| && l.channel[i].name == n;
            assert l'.channel[i - 1].name == n;
          }
        }
      }
    }
  }

  lemma BeginKeepsInv(l: Level, view: View, name: Name)
    requires Inv(l, view)
    ensures Inv(Step(l, view, Begin(name)), view)
  {
    var l' := Step(l, view, Begin(name));
    if l' != l {
      forall n | n in l'.cache ensures SettledOk(l', view, n) {
        assert SettledOk(l, view, n);
        assert Undelivered(l, n) ==> Undelivered(l', n);
      }
    }
  }

  lemma CheckKeepsInv(l: Level, view: View, faulty: bool)
    requires Inv(l, view)
    ensures Inv(Step(l, view, Check(faulty)), view)
  {
    var l' := Step(l, view, Check(faulty));
    forall n | n in l'.cache ensures SettledOk(l', view, n) {
      assert SettledOk(l, view, n);
      assert Undelivered(l, n) ==> Undelivered(l', n);
    }
  }

  /** A truthful finished pass has computed the verdict of the current view. */
  lemma TruthfulVerdict(view: View, w: Work)
    requires Bounded(w) && Scanned(w) && Truthful(view, w)
    ensures VerdictOf(w) == Judge(view, w.name.namespace, w.subject.spec)
  {
    MetPrefixIs(view, w.name.namespace, Deps(w.subject.spec), w.checked);
  }

  lemma FinishKeepsInv(l: Level, view: View, retry: bool)
    requires Inv(l, view)
    ensures Inv(Step(l, view, Finish(retry)), view)
  {
    var l' := Step(l, view, Finish(retry));
    if l.work.Some? && Scanned(l.work.value) {
      var w, done := l.work.value, l.(work := None);
      if w.name !in l.queue && !FailedToRead(w) {
        TruthfulVerdict(view, w);
      }
      var known := done.(queue := l.queue + {w.name});
      forall n | n in known.cache ensures SettledOk(known, view, n) {
        assert SettledOk(l, view, n);
        assert Undelivered(l, n) ==> Undelivered(known, n);
      }
      assert Inv(known, view);
      if Skips(w) || (!Conflicts(l, w) && l.server[w.name].status == Some(VerdictOf(w))) {
        StoredVerdictSettles(l, view, w);
      } else if Conflicts(l, w) {
        if retry && !w.subject.spec.GroupOf? {
          RestartKeepsInv(l, view, w);
        }
      } else {
        WriteKeepsInv(l, view, w);
      }
    }
  }

  /** Ending a pass whose verdict is already stored leaves the object settled. */
  lemma StoredVerdictSettles(l: Level, view: View, w: Work)
    requires Inv(l, view) && l.work == Some(w) && Scanned(w)
    requires Skips(w) || (!Conflicts(l, w) && l.server[w.name].status == Some(VerdictOf(w)))
    ensures Inv(l.(work := None), view)
  {
    var l' := l.(work := None);
    forall n | n in l'.cache ensures SettledOk(l', view, n) {
      assert SettledOk(l, view, n);
      assert Undelivered(l, n) ==> Undelivered(l', n);
      if n == w.name && n !in l.queue {
        assert w.subject.status == Some(VerdictOf(w));
        if !FailedToRead(w) {
          TruthfulVerdict(view, w);
        }
      }
    }
  }

  lemma RestartKeepsInv(l: Level, view: View, w: Work)
    requires Inv(l, view) && l.work == Some(w)
    ensures Inv(Started(l, w.name), view)
  {
    var l' := Started(l, w.name);
    forall n | n in l'.cache ensures SettledOk(l', view, n) {
      assert SettledOk(l, view, n);
      assert Undelivered(l, n) ==> Undelivered(l', n);
    }
  }

  lemma WriteKeepsInv(l: Level, view: View, w: Work)
    requires Inv(l, view) && l.work == Some(w) && !Conflicts(l, w)
    ensures Inv(Put(l.(work := None), w.name, Some((l.server[w.name].spec, Some(VerdictOf(w))))), view)
  {
    var v := Some((l.server[w.name].spec, Some(VerdictOf(w))));
    PutKeepsInv(l, view, w.name, v);
    var p, l' := Put(l, w.name, v), Put(l.(work := None), w.name, v);
    assert l' == p.(work := None);
    forall i | 0 <= i < |l'.channel| ensures EventOk(l', l'.channel[i]) {
      assert EventOk(p, p.channel[i]);
    }
    forall n | n in l'.cache ensures SettledOk(l', view, n) {
      assert SettledOk(p, view, n);
      assert Undelivered(p, n) ==> Undelivered(l', n);
    }
  }

  lemma StepKeepsInv(l: Level, view: View, step: LevelStep)
    requires Inv(l, view)
    ensures Inv(Step(l, view, step), view)
  {
    match step
    case Deliver => DeliverKeepsInv(l, view);
    case Begin(name) => BeginKeepsInv(l, view, name);
    case Check(faulty) => CheckKeepsInv(l, view, faulty);
    case Finish(retry) => FinishKeepsInv(l, view, retry);
  }

  /**
   How a finished pass ends. An Alert or AIProvider that already carries the verdict is left alone. Otherwise
   a conflict is tried again, in place for those two if the retry has attempts left, through the queue if
   not, and for a group always; and without a conflict the verdict, if new, is written under a new version.
   */
  lemma FinishOutcome(l: Level, view: View, w: Work, retry: bool)
    requires l.work == Some(w) && Scanned(w)
    ensures var l', verdict, group := Step(l, view, Finish(retry)), VerdictOf(w), w.subject.spec.GroupOf?;
            var conflict := w.name !in l.server || l.server[w.name].version != w.subject.version;
            && l'.cache == l.cache
            && (!group && w.subject.status == Some(verdict) ==> l' == l.(work := None))
            && ((group || w.subject.status != Some(verdict)) && conflict ==>
                  && l'.server == l.server && l'.channel == l.channel
                  && (if !group && retry && w.name in l.cache
                      then l'.work == Some(Work(w.name, l.cache[w.name], 0, None))
                      else l'.work == None)
                  && l'.queue == if !group && retry then l.queue else l.queue + {w.name})
            && ((group || w.subject.status != Some(verdict)) && !conflict ==>
                  && l'.work == None && l'.queue == l.queue
                  && w.name in l'.server && l'.server[w.name].spec == l.server[w.name].spec
                  && l'.server[w.name].status == Some(verdict)
                  && (forall n :: n != w.name ==> (n in l'.server <==> n in l.server) &&
                                                  (n in l.server ==> l'.server[n] == l.server[n]))
                  && (l.server[w.name].status == Some(verdict) <==> l'.server == l.server && l'.channel == l.channel))
  {
    assert |Step(l, view, Finish(retry)).channel| == |l.channel| ||
           |Step(l, view, Finish(retry)).channel| == |l.channel| + 1;
  }

  /** A change of the surroundings, when every object whose dependencies it touches is enqueued. */
  lemma NotifiedChangeKeepsInv(l: Level, view: View, view': View, notified: set<Name>)
    requires Inv(l, view)
    requires forall n :: n in l.cache && n !in notified ==>
                           forall i :: 0 <= i < |Deps(l.cache[n].spec)| ==>
                             Probe(view, n.namespace, Deps(l.cache[n].spec)[i]) ==
                             Probe(view', n.namespace, Deps(l.cache[n].spec)[i])
    ensures Inv(l.(queue := l.queue + notified), view')
  {
    var l' := l.(queue := l.queue + notified);
    forall n | n in l'.cache ensures SettledOk(l', view', n) {
      assert SettledOk(l, view, n);
      assert Undelivered(l, n) ==> Undelivered(l', n);
      if n !in l'.queue && Current(view, n, l.cache[n]) {
        JudgeDependsOnProbes(view, view', n.namespace, l.cache[n].spec);
      }
    }
  }

  // ----- Reconcile as the code runs it -----

  function ExecLevel(l: Level, view: View, steps: seq<LevelStep>): Level {
    Run(StepIn(view), l, steps)
  }

  function StepIn(view: View): (Level, LevelStep) -> Level {
    (l: Level, step: LevelStep) => Step(l, view, step)
  }

  lemma ExecLevelGrows(l: Level, view: View, steps: seq<LevelStep>, step: LevelStep)
    ensures ExecLevel(l, view, steps + [step]) == Step(ExecLevel(l, view, steps), view, step)
  {
    RunGrows(StepIn(view), l, steps, step);
  }

  /** The work after one more Get. */
  function Checked(view: View, w: Work): Work
    requires !Scanned(w)
  {
    var r := Probe(view, w.name.namespace, Deps(w.subject.spec)[w.checked]);
    if r.Some? then w.(failure := r) else w.(checked := w.checked + 1)
  }

  lemma CheckExtends(l0: Level, view: View, steps: seq<LevelStep>, l: Level, w: Work)
    requires ExecLevel(l0, view, steps) == l.(work := Some(w)) && !Scanned(w)
    ensures ExecLevel(l0, view, steps + [Check(false)]) == l.(work := Some(Checked(view, w)))
  {
    ExecLevelGrows(l0, view, steps, Check(false));
  }

  lemma {:induction false} ExecLevelKeepsInv(l: Level, view: View, steps: seq<LevelStep>)
    requires Inv(l, view)
    ensures Inv(ExecLevel(l, view, steps), view)
  {
    if steps != [] {
      ExecLevelKeepsInv(l, view, steps[..|steps| - 1]);
      StepKeepsInv(ExecLevel(l, view, steps[..|steps| - 1]), view, steps[|steps| - 1]);
    }
  }

  class Reconciler {
    var server: map<Name, Object>
    var nextVersion: nat
    var channel: seq<Event>
    var cache: map<Name, Object>
    var queue: set<Name>

    ghost function Idle(): Level
      reads this
    {
      Level(server, nextVersion, channel, cache, queue, None)
    }

    constructor (l: Level)
      requires l.work.None?
      ensures Idle() == l
    {
      server, nextVersion, channel, cache, queue := l.server, l.nextVersion, l.channel, l.cache, l.queue;
    }

    /** Checks the dependencies in order, up to the first that is not met. */
    method Validate(view: View, name: Name, ghost l0: Level, ghost start: seq<LevelStep>)
      returns (met: nat, failure: Option<Reason>, ghost steps: seq<LevelStep>)
      requires name in cache
      requires ExecLevel(l0, view, start) == Idle().(work := Some(Work(name, cache[name], 0, None)))
      ensures ExecLevel(l0, view, steps) == Idle().(work := Some(Work(name, cache[name], met, failure)))
      ensures var w := Work(name, cache[name], met, failure); Bounded(w) && Scanned(w) && Truthful(view, w)
    {
      var deps := Deps(cache[name].spec);
      met, failure, steps := 0, None, start;
      while met < |deps| && failure.None?
        invariant var w := Work(name, cache[name], met, failure);
                  Bounded(w) && Truthful(view, w) && ExecLevel(l0, view, steps) == Idle().(work := Some(w))
        decreases |deps| - met, if failure.None? then 1 else 0
      {
        CheckExtends(l0, view, steps, Idle(), Work(name, cache[name], met, failure));
        steps := steps + [Check(false)];
        var r := Probe(view, name.namespace, deps[met]);
        if r.Some? {
          failure := r;
        } else {
          met := met + 1;
        }
      }
    }

    /**
     One pass for a queued object, not interrupted: it is a run of the controller's steps, and unless
     the cached object is out of date the stored verdict is right afterwards.
     */
    method Reconcile(view: View, name: Name) returns (ghost steps: seq<LevelStep>)
      requires Inv(Idle(), view) && name in queue
      modifies this
      ensures Idle() == ExecLevel(old(Idle()), view, steps) && Inv(Idle(), view)
      ensures cache == old(cache)
      ensures name in cache && old(name in server && server[name].version == cache[name].version) ==>
                && name in server && server[name].spec == old(server[name].spec)
                && server[name].status == Some(Judge(view, name.namespace, cache[name].spec))
      ensures forall n :: n != name ==> (n in server <==> n in old(server)) && (n in server ==> server[n] == old(server[n]))
    {
      ghost var l0 := Idle();
      steps := [] + [Begin(name)];
      ExecLevelGrows(l0, view, [], Begin(name));
      queue := queue - {name};
      if name in cache {
        var met, failure;
        met, failure, steps := Validate(view, name, l0, steps);
        steps := Conclude(view, name, met, failure, l0, steps);
      }
      ExecLevelKeepsInv(l0, view, steps);
    }

    /** Compares, and writes under the version check. */
    method Conclude(view: View, name: Name, met: nat, failure: Option<Reason>, ghost l0: Level, ghost start: seq<LevelStep>)
      returns (ghost steps: seq<LevelStep>)
      requires name in cache && name !in queue
      requires Genuine(Idle(), name, cache[name])
      requires var w := Work(name, cache[name], met, failure); Bounded(w) && Scanned(w) && Truthful(view, w)
      requires ExecLevel(l0, view, start) == Idle().(work := Some(Work(name, cache[name], met, failure)))
      modifies this
      ensures Idle() == ExecLevel(l0, view, steps) && cache == old(cache)
      ensures old(name in server && server[name].version == cache[name].version) ==>
                && name in server && server[name].spec == old(server[name].spec)
                && server[name].status == Some(Judge(view, name.namespace, cache[name].spec))
      ensures forall n :: n != name ==> (n in server <==> n in old(server)) && (n in server ==> server[n] == old(server[n]))
    {
      var subject := cache[name];
      ghost var w := Work(name, subject, met, failure);
      TruthfulVerdict(view, w);
      ExecLevelGrows(l0, view, start, Finish(false));
      steps := start + [Finish(false)];
      var verdict := Summary(subject.spec, met, failure);
      if !subject.spec.GroupOf? && subject.status == Some(verdict) {
        return;
      }
      if name !in server || server[name].version != subject.version {
        queue := queue + {name};
        return;
      }
      if server[name].status != Some(verdict) {
        var written := Object(server[name].spec, Some(verdict), nextVersion);
        server := server[name := written];
        channel := channel + [Event(name, Some(written))];
        nextVersion := nextVersion + 1;
      }
    }
  }
}
