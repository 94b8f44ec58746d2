/**
 Monitors, their loops and their pod streams (internal/controller/monitorpod_controller.go:208-288).

 Contexts form a tree two levels deep: the manager's context, one per monitor loop below it, one per pod
 stream below that. The World is what the goroutines share and hold; an Action is one atomic step of one
 of them, so a sequence of actions is an interleaving. Start and Stop hold the manager's mutex and are one
 action each, a loop's exit cancels its whole map in one, and a tick goes by single context operations.
 */
module MonitorLifecycle {
  import opened Wrappers
  import opened Runs

  type Ctx = nat

  const ROOT: Ctx := 0

  /** `stopped`: the context's own cancel function has been called. */
  datatype Context = Context(parent: Option<Ctx>, stopped: bool)

  /**
   Where a loop stands in its tick. `running` is the Running pods of the list, in list order, possibly
   repeated; `before` is activePodMonitors when the tick took its lock.
   */
  datatype Phase =
    | Waiting
    | Sweeping(running: seq<string>, before: map<string, Ctx>)
    | Spawning(running: seq<string>, before: map<string, Ctx>, next: nat)
    | Exited

  datatype Loop = Loop(key: string, active: map<string, Ctx>, phase: Phase)

  datatype PodStream = PodStream(loop: Ctx, pod: string)

  datatype World = World(
    contexts: seq<Context>,
    monitors: map<string, Ctx>,
    loops: map<Ctx, Loop>,
    streams: map<Ctx, PodStream>
  )

  datatype Action =
    | Start(key: string)                                // StartOrUpdateMonitor
    | Stop(key: string)                                 // StopMonitor
    | Shutdown                                          // the manager's context ends
    | TickBegin(loop: Ctx, running: seq<string>)
    | Sweep(loop: Ctx, pod: string)                     // cancel and forget one pod that is gone
    | SweepEnd(loop: Ctx)
    | Spawn(loop: Ctx)                                  // the next pod of the list
    | TickEnd(loop: Ctx)
    | Exit(loop: Ctx)                                   // the loop sees its context done

  const INITIAL := World([Context(None, false)], map[], map[], map[])

  /** A context is done when it, or a context it derives from, was stopped. */
  predicate Cancelled(cs: seq<Context>, c: Ctx)
    decreases c
  {
    c < |cs| && (cs[c].stopped ||
                 (cs[c].parent.Some? && cs[c].parent.value < c && Cancelled(cs, cs[c].parent.value)))
  }

  function Stopped(cs: seq<Context>, stopping: set<Ctx>): (r: seq<Context>)
    ensures |r| == |cs|
  {
    seq(|cs|, i requires 0 <= i < |cs| => if i in stopping then cs[i].(stopped := true) else cs[i])
  }

  function Halted(w: World, stopping: set<Ctx>): World {
    w.(contexts := Stopped(w.contexts, stopping))
  }

  /** A fresh loop for the key, below the manager's context. */
  function Registered(w: World, key: string): World {
    World(w.contexts + [Context(Some(ROOT), false)], w.monitors[key := |w.contexts|],
          w.loops[|w.contexts| := Loop(key, map[], Waiting)], w.streams)
  }

  function Forgotten(w: World, key: string): World {
    w.(monitors := w.monitors - {key})
  }

  /** A fresh stream for the pod, below the loop's context. */
  function Opened(w: World, l: Ctx, pod: string, phase: Phase): World
    requires l in w.loops
  {
    var c := |w.contexts|;
    w.(contexts := w.contexts + [Context(Some(l), false)],
       loops := w.loops[l := w.loops[l].(phase := phase, active := w.loops[l].active[pod := c])],
       streams := w.streams[c := PodStream(l, pod)])
  }

  function Step(w: World, a: Action): World {
    match a
    case Start(key) =>
      Registered(if key in w.monitors then Halted(w, {w.monitors[key]}) else w, key)
    case Stop(key) =>
      if key in w.monitors then Forgotten(Halted(w, {w.monitors[key]}), key) else w
    case Shutdown =>
      Halted(w, {ROOT})
    case TickBegin(l, running) =>
      if l !in w.loops || w.loops[l].phase != Waiting then w
      else w.(loops := w.loops[l := w.loops[l].(phase := Sweeping(running, w.loops[l].active))])
    case Sweep(l, p) =>
      if l !in w.loops || !w.loops[l].phase.Sweeping? then w
      else
        var loop := w.loops[l];
        if p !in loop.active || p in loop.phase.running then w
        else Halted(w, {loop.active[p]}).(loops := w.loops[l := loop.(active := loop.active - {p})])
    case SweepEnd(l) =>
      if l !in w.loops || !w.loops[l].phase.Sweeping? then w
      else
        var loop := w.loops[l];
        if exists p :: p in loop.active && p !in loop.phase.running then w
        else w.(loops := w.loops[l := loop.(phase := Spawning(loop.phase.running, loop.phase.before, 0))])
    case Spawn(l) =>
      if l !in w.loops || !w.loops[l].phase.Spawning? || w.loops[l].phase.next >= |w.loops[l].phase.running| then w
      else
        var loop := w.loops[l];
        var pod := loop.phase.running[loop.phase.next];
        var phase := loop.phase.(next := loop.phase.next + 1);
        if pod in loop.active then w.(loops := w.loops[l := loop.(phase := phase)])
        else Opened(w, l, pod, phase)
    case TickEnd(l) =>
      if l !in w.loops || !w.loops[l].phase.Spawning? || w.loops[l].phase.next != |w.loops[l].phase.running| then w
      else w.(loops := w.loops[l := w.loops[l].(phase := Waiting)])
    case Exit(l) =>
      if l !in w.loops || w.loops[l].phase != Waiting || !Cancelled(w.contexts, l) then w
      else Halted(w, w.loops[l].active.Values).(loops := w.loops[l := w.loops[l].(phase := Exited)])
  }

  function Exec(w: World, actions: seq<Action>): World {
    Run(Step, w, actions)
  }

  // ----- the invariant -----

  ghost predicate InPhase(loop: Loop) {
    match loop.phase
    case Waiting => true
    case Exited => true
    case Sweeping(running, before) =>
      && (forall p :: p in loop.active ==> p in before && loop.active[p] == before[p])
      && (forall p :: p in before && p in running ==> p in loop.active)
    case Spawning(running, before, next) =>
      && next <= |running|
      && (forall p :: p in loop.active ==> p in running)
      && (forall i :: 0 <= i < next ==> running[i] in loop.active)
      && (forall p :: p in before && p in running ==> p in loop.active && loop.active[p] == before[p])
  }

  /** The map entry for a pod is a stream of this loop and pod. */
  ghost predicate EntryOk(w: World, l: Ctx, loop: Loop, p: string)
    requires p in loop.active
  {
    loop.active[p] in w.streams && w.streams[loop.active[p]] == PodStream(l, p)
  }

  /** A loop whose own context was not stopped is the registered one of its key. */
  ghost predicate LoopOk(w: World, l: Ctx)
    requires l in w.loops
  {
    var loop := w.loops[l];
    && 0 < l < |w.contexts| && w.contexts[l].parent == Some(ROOT) && l !in w.streams
    && (!w.contexts[l].stopped ==> loop.key in w.monitors && w.monitors[loop.key] == l)
    && InPhase(loop)
    && forall p {:trigger EntryOk(w, l, loop, p)} :: p in loop.active ==> EntryOk(w, l, loop, p)
  }

  ghost predicate KeyOk(w: World, k: string)
    requires k in w.monitors
  {
    w.monitors[k] in w.loops && w.loops[w.monitors[k]].key == k
  }

  /** A stream whose own context was not stopped is still in its loop's map. */
  ghost predicate StreamOk(w: World, s: Ctx)
    requires s in w.streams
  {
    var l, p := w.streams[s].loop, w.streams[s].pod;
    && l in w.loops && l < s < |w.contexts| && w.contexts[s].parent == Some(l)
    && (!w.contexts[s].stopped ==> p in w.loops[l].active && w.loops[l].active[p] == s)
  }

  ghost predicate Inv(w: World) {
    && |w.contexts| > 0
    && (forall l {:trigger LoopOk(w, l)} :: l in w.loops ==> LoopOk(w, l))
    && (forall k {:trigger KeyOk(w, k)} :: k in w.monitors ==> KeyOk(w, k))
    && (forall s {:trigger StreamOk(w, s)} :: s in w.streams ==> StreamOk(w, s))
  }

  lemma HaltKeepsInv(w: World, stopping: set<Ctx>)
    requires Inv(w)
    ensures Inv(Halted(w, stopping))
  {
    var w' := Halted(w, stopping);
    forall l | l in w'.loops ensures LoopOk(w', l) {
      assert LoopOk(w, l);
      assert forall p :: p in w.loops[l].active ==> EntryOk(w, l, w.loops[l], p);
    }
    forall k | k in w'.monitors ensures KeyOk(w', k) {
      assert KeyOk(w, k);
    }
    forall s | s in w'.streams ensures StreamOk(w', s) {
      assert StreamOk(w, s);
    }
  }

  lemma RegisterKeepsInv(w: World, key: string)
    requires Inv(w)
    requires key in w.monitors ==> w.monitors[key] < |w.contexts| && w.contexts[w.monitors[key]].stopped
    ensures Inv(Registered(w, key))
  {
    var w' := Registered(w, key);
    forall l | l in w'.loops ensures LoopOk(w', l) {
      if l in w.loops {
        assert LoopOk(w, l);
        assert forall p :: p in w.loops[l].active ==> EntryOk(w, l, w.loops[l], p);
      } else {
        assert forall s :: s in w.streams ==> StreamOk(w, s);
      }
    }
    forall k | k in w'.monitors ensures KeyOk(w', k) {
      if k != key {
        assert KeyOk(w, k) && LoopOk(w, w.monitors[k]);
      }
    }
    forall s | s in w'.streams ensures StreamOk(w', s) {
      assert StreamOk(w, s) && LoopOk(w, w.streams[s].loop);
    }
  }

  lemma ForgetKeepsInv(w: World, key: string)
    requires Inv(w) && key in w.monitors
    requires w.monitors[key] < |w.contexts| && w.contexts[w.monitors[key]].stopped
    ensures Inv(Forgotten(w, key))
  {
    var w' := Forgotten(w, key);
    forall l | l in w'.loops ensures LoopOk(w', l) {
      assert LoopOk(w, l);
      assert forall p :: p in w.loops[l].active ==> EntryOk(w, l, w.loops[l], p);
    }
    forall k | k in w'.monitors ensures KeyOk(w', k) {
      assert KeyOk(w, k);
    }
    forall s | s in w'.streams ensures StreamOk(w', s) {
      assert StreamOk(w, s);
    }
  }

  lemma OpenKeepsInv(w: World, l: Ctx, pod: string, phase: Phase)
    requires Inv(w) && l in w.loops && pod !in w.loops[l].active
    requires InPhase(w.loops[l].(phase := phase, active := w.loops[l].active[pod := |w.contexts|]))
    ensures Inv(Opened(w, l, pod, phase))
  {
    var w', c := Opened(w, l, pod, phase), |w.contexts|;
    assert c !in w.streams by {
      assert forall s :: s in w.streams ==> StreamOk(w, s);
    }
    assert c !in w.loops by {
      assert forall m :: m in w.loops ==> LoopOk(w, m);
    }
    forall m | m in w'.loops ensures LoopOk(w', m) {
      assert LoopOk(w, m);
      if m == l {
        forall p | p in w'.loops[l].active ensures EntryOk(w', l, w'.loops[l], p) {
          assert p != pod ==> EntryOk(w, l, w.loops[l], p);
        }
      } else {
        forall p | p in w.loops[m].active ensures EntryOk(w', m, w.loops[m], p) {
          assert EntryOk(w, m, w.loops[m], p);
        }
      }
    }
    forall k | k in w'.monitors ensures KeyOk(w', k) {
      assert KeyOk(w, k);
    }
    forall s | s in w'.streams ensures StreamOk(w', s) {
      if s != c {
        assert StreamOk(w, s);
      } else {
        assert LoopOk(w, l);
      }
    }
  }

  /** Rewriting one loop's phase, possibly dropping map entries whose contexts are stopped. */
  lemma ReloopKeepsInv(w: World, l: Ctx, loop: Loop)
    requires Inv(w) && l in w.loops && loop.key == w.loops[l].key && InPhase(loop)
    requires forall p :: p in loop.active ==> p in w.loops[l].active && loop.active[p] == w.loops[l].active[p]
    requires forall p :: p in w.loops[l].active && p !in loop.active ==>
                           var c := w.loops[l].active[p]; c < |w.contexts| && w.contexts[c].stopped
    ensures Inv(w.(loops := w.loops[l := loop]))
  {
    var w' := w.(loops := w.loops[l := loop]);
    forall m | m in w'.loops ensures LoopOk(w', m) {
      assert LoopOk(w, m);
      forall p | p in w'.loops[m].active ensures EntryOk(w', m, w'.loops[m], p) {
        assert EntryOk(w, m, w.loops[m], p);
      }
    }
    forall k | k in w'.monitors ensures KeyOk(w', k) {
      assert KeyOk(w, k);
    }
    forall s | s in w'.streams ensures StreamOk(w', s) {
      assert StreamOk(w, s);
    }
  }

  lemma StepKeepsInv(w: World, a: Action)
    requires Inv(w)
    ensures Inv(Step(w, a))
  {
    match a
    case Start(key) =>
      if key in w.monitors {
        HaltKeepsInv(w, {w.monitors[key]});
        assert KeyOk(w, key) && LoopOk(w, w.monitors[key]);
        RegisterKeepsInv(Halted(w, {w.monitors[key]}), key);
      } else {
        RegisterKeepsInv(w, key);
      }
    case Stop(key) =>
      if key in w.monitors {
        HaltKeepsInv(w, {w.monitors[key]});
        assert KeyOk(w, key) && LoopOk(w, w.monitors[key]);
        ForgetKeepsInv(Halted(w, {w.monitors[key]}), key);
      }
    case Shutdown =>
      HaltKeepsInv(w, {ROOT});
    case TickBegin(l, running) =>
      if l in w.loops && w.loops[l].phase == Waiting {
        ReloopKeepsInv(w, l, w.loops[l].(phase := Sweeping(running, w.loops[l].active)));
      }
    case Sweep(l, p) => SweepKeepsInv(w, l, p);
    case SweepEnd(l) => SweepEndKeepsInv(w, l);
    case Spawn(l) => SpawnKeepsInv(w, l);
    case TickEnd(l) =>
      if Step(w, a) != w {
        ReloopKeepsInv(w, l, w.loops[l].(phase := Waiting));
      }
    case Exit(l) =>
      if Step(w, a) != w {
        HaltKeepsInv(w, w.loops[l].active.Values);
        ReloopKeepsInv(Halted(w, w.loops[l].active.Values), l, w.loops[l].(phase := Exited));
      }
  }

  lemma SweepKeepsInv(w: World, l: Ctx, p: string)
    requires Inv(w)
    ensures Inv(Step(w, Sweep(l, p)))
  {
    if Step(w, Sweep(l, p)) != w {
      assert LoopOk(w, l);
      var loop := w.loops[l];
      assert EntryOk(w, l, loop, p) && StreamOk(w, loop.active[p]);
      HaltKeepsInv(w, {loop.active[p]});
      ReloopKeepsInv(Halted(w, {loop.active[p]}), l, loop.(active := loop.active - {p}));
    }
  }

  lemma SweepEndKeepsInv(w: World, l: Ctx)
    requires Inv(w)
    ensures Inv(Step(w, SweepEnd(l)))
  {
    if Step(w, SweepEnd(l)) != w {
      assert LoopOk(w, l);
      var loop := w.loops[l];
      ReloopKeepsInv(w, l, loop.(phase := Spawning(loop.phase.running, loop.phase.before, 0)));
    }
  }

  lemma SpawnKeepsInv(w: World, l: Ctx)
    requires Inv(w)
    ensures Inv(Step(w, Spawn(l)))
  {
    if Step(w, Spawn(l)) != w {
      assert LoopOk(w, l);
      var loop := w.loops[l];
      var pod := loop.phase.running[loop.phase.next];
      var phase := loop.phase.(next := loop.phase.next + 1);
      if pod in loop.active {
        ReloopKeepsInv(w, l, loop.(phase := phase));
      } else {
        OpenKeepsInv(w, l, pod, phase);
      }
    }
  }

  lemma {:induction false} ExecKeepsInv(w: World, actions: seq<Action>)
    requires Inv(w)
    ensures Inv(Exec(w, actions))
  {
    if actions != [] {
      ExecKeepsInv(w, actions[..|actions| - 1]);
      StepKeepsInv(Exec(w, actions[..|actions| - 1]), actions[|actions| - 1]);
    }
  }

  // ----- main results -----

  /** The context of a (monitor, pod) stream is live. */
  ghost predicate Live(w: World, s: Ctx, key: string, pod: string) {
    && s in w.streams && w.streams[s].pod == pod
    && w.streams[s].loop in w.loops && w.loops[w.streams[s].loop].key == key
    && !Cancelled(w.contexts, s)
  }

  /**
   At most one live stream: whatever the interleaving, no two streams of one monitor and pod have live
   contexts, not even while a cancelled loop is still finishing, or starting, a tick.
   */
  lemma AtMostOneLiveStream(actions: seq<Action>, key: string, pod: string, s: Ctx, t: Ctx)
    requires Live(Exec(INITIAL, actions), s, key, pod) && Live(Exec(INITIAL, actions), t, key, pod)
    ensures s == t
  {
    var w := Exec(INITIAL, actions);
    assert Inv(INITIAL);
    ExecKeepsInv(INITIAL, actions);
    LiveIsRegistered(w, s, key, pod);
    LiveIsRegistered(w, t, key, pod);
  }

  lemma LiveIsRegistered(w: World, s: Ctx, key: string, pod: string)
    requires Inv(w) && Live(w, s, key, pod)
    ensures key in w.monitors && w.monitors[key] in w.loops
    ensures pod in w.loops[w.monitors[key]].active && w.loops[w.monitors[key]].active[pod] == s
  {
    assert StreamOk(w, s) && LoopOk(w, w.streams[s].loop);
    assert !Cancelled(w.contexts, w.streams[s].loop);
  }

  /** A tick taken by a cancelled loop opens only contexts that are already cancelled. */
  lemma CancelledLoopSpawnsCancelled(w: World, l: Ctx)
    requires Inv(w) && Cancelled(w.contexts, l)
    ensures forall s :: s in Step(w, Spawn(l)).streams && s !in w.streams ==> Cancelled(Step(w, Spawn(l)).contexts, s)
  {
    var w' := Step(w, Spawn(l));
    StepKeepsCancelled(w, Spawn(l), l);
    forall s | s in w'.streams && s !in w.streams ensures Cancelled(w'.contexts, s) {
      assert LoopOk(w, l);
    }
  }

  lemma {:induction false} GrownKeepsCancelled(cs: seq<Context>, ds: seq<Context>, c: Ctx)
    requires |cs| <= |ds|
    requires forall i :: 0 <= i < |cs| ==> cs[i].parent == ds[i].parent && (cs[i].stopped ==> ds[i].stopped)
    requires Cancelled(cs, c)
    ensures Cancelled(ds, c)
    decreases c
  {
    if !cs[c].stopped {
      GrownKeepsCancelled(cs, ds, cs[c].parent.value);
    }
  }

  /** No action revives a cancelled context. */
  lemma StepKeepsCancelled(w: World, a: Action, c: Ctx)
    requires Cancelled(w.contexts, c)
    ensures Cancelled(Step(w, a).contexts, c)
  {
    GrownKeepsCancelled(w.contexts, Step(w, a).contexts, c);
  }

  /** Restarting or stopping a monitor cancels every stream it had. */
  lemma RestartCancelsOldStreams(w: World, key: string, stop: bool, s: Ctx)
    requires Inv(w) && s in w.streams && w.streams[s].loop in w.loops && w.loops[w.streams[s].loop].key == key
    ensures Cancelled(Step(w, if stop then Stop(key) else Start(key)).contexts, s)
  {
    var a := if stop then Stop(key) else Start(key);
    var l := w.streams[s].loop;
    assert StreamOk(w, s) && LoopOk(w, l);
    StepKeepsInv(w, a);
    assert Step(w, a).contexts[l].stopped;
    assert Step(w, a).contexts[s].parent == Some(l);
  }

  // ----- what is cancelled, and nothing else -----

  /** A stream's context is done exactly if it, its loop's or the manager's was stopped. */
  lemma StreamCancelledIff(w: World, s: Ctx)
    requires Inv(w) && s in w.streams
    ensures w.streams[s].loop in w.loops && w.streams[s].loop < |w.contexts| && s < |w.contexts|
    ensures Cancelled(w.contexts, s) <==>
            w.contexts[s].stopped || Cancelled(w.contexts, w.streams[s].loop)
  {
    assert StreamOk(w, s) && LoopOk(w, w.streams[s].loop);
  }

  lemma LoopCancelledIff(w: World, l: Ctx)
    requires Inv(w) && l in w.loops
    ensures 0 < l < |w.contexts|
    ensures Cancelled(w.contexts, l) <==> w.contexts[l].stopped || Cancelled(w.contexts, ROOT)
  {
    assert LoopOk(w, l);
  }

  /** The key of the monitor that a stream belongs to. */
  function KeyOf(w: World, s: Ctx): string
    requires s in w.streams && w.streams[s].loop in w.loops
  {
    w.loops[w.streams[s].loop].key
  }

  /** An action that takes a pod's stream down because the pod is in the loop's map and not on the list. */
  predicate SweepsPod(w: World, a: Action, l: Ctx, pod: string) {
    && a == Sweep(l, pod) && l in w.loops && w.loops[l].phase.Sweeping?
    && pod in w.loops[l].active && pod !in w.loops[l].phase.running
  }

  /** Which contexts' own cancel functions an action calls. */
  lemma StepStops(w: World, a: Action, c: Ctx)
    requires Inv(w) && c < |w.contexts|
    ensures var w' := Step(w, a);
            && c < |w'.contexts| && w'.contexts[c].parent == w.contexts[c].parent
            && (w'.contexts[c].stopped <==>
                  || w.contexts[c].stopped
                  || ((a.Start? || a.Stop?) && a.key in w.monitors && w.monitors[a.key] == c)
                  || (a.Shutdown? && c == ROOT)
                  || (a.Sweep? && SweepsPod(w, a, a.loop, a.pod) && w.loops[a.loop].active[a.pod] == c)
                  || (a.Exit? && a.loop in w.loops && w.loops[a.loop].phase == Waiting &&
                      Cancelled(w.contexts, a.loop) && c in w.loops[a.loop].active.Values))
  {
  }

  lemma StepStopsRoot(w: World, a: Action)
    requires Inv(w)
    ensures Cancelled(Step(w, a).contexts, ROOT) <==> Cancelled(w.contexts, ROOT) || a == Shutdown
  {
    StepStops(w, a, ROOT);
    if a.Start? || a.Stop? {
      assert a.key in w.monitors ==> KeyOk(w, a.key) && LoopOk(w, w.monitors[a.key]);
    } else if a.Sweep? || a.Exit? {
      if a.loop in w.loops {
        assert LoopOk(w, a.loop);
        forall p | p in w.loops[a.loop].active ensures w.loops[a.loop].active[p] != ROOT {
          assert EntryOk(w, a.loop, w.loops[a.loop], p) && StreamOk(w, w.loops[a.loop].active[p]);
        }
      }
    }
    assert w.contexts[ROOT].parent.Some? ==> !(w.contexts[ROOT].parent.value < ROOT);
  }

  /** A loop is cancelled by a restart or stop of its monitor, and by the shutdown, and by nothing else. */
  lemma StepCancelsLoop(w: World, a: Action, l: Ctx)
    requires Inv(w) && l in w.loops
    ensures Cancelled(Step(w, a).contexts, l) <==>
              || Cancelled(w.contexts, l)
              || a == Start(w.loops[l].key) || a == Stop(w.loops[l].key) || a == Shutdown
  {
    LoopCancelledIff(w, l);
    StepKeepsInv(w, a);
    StepStops(w, a, l);
    StepStopsRoot(w, a);
    StepKeepsLoop(w, a, l);
    LoopCancelledIff(Step(w, a), l);
    assert LoopOk(w, l);
    if a.Start? || a.Stop? {
      assert a.key in w.monitors ==> KeyOk(w, a.key);
    } else if (a.Sweep? || a.Exit?) && a.loop in w.loops {
      assert LoopOk(w, a.loop);
      forall p | p in w.loops[a.loop].active ensures w.loops[a.loop].active[p] != l {
        assert EntryOk(w, a.loop, w.loops[a.loop], p);
      }
    }
  }

  lemma StepKeepsLoop(w: World, a: Action, l: Ctx)
    requires Inv(w) && l in w.loops
    ensures l in Step(w, a).loops && Step(w, a).loops[l].key == w.loops[l].key
  {
    assert LoopOk(w, l);
  }

  lemma StepKeepsStream(w: World, a: Action, s: Ctx)
    requires Inv(w) && s in w.streams
    ensures s in Step(w, a).streams && Step(w, a).streams[s] == w.streams[s]
  {
    assert StreamOk(w, s);
  }

  /**
   A stream is cancelled by a restart or stop of its monitor, by the shutdown, and when its loop's tick finds
   its pod gone; no other action, on this or another monitor, loop or pod, touches it.
   */
  lemma StepCancelsStream(w: World, a: Action, s: Ctx)
    requires Inv(w) && s in w.streams
    ensures w.streams[s].loop in w.loops
    ensures Cancelled(Step(w, a).contexts, s) <==>
              || Cancelled(w.contexts, s)
              || a == Start(KeyOf(w, s)) || a == Stop(KeyOf(w, s)) || a == Shutdown
              || (SweepsPod(w, a, w.streams[s].loop, w.streams[s].pod) &&
                  w.loops[w.streams[s].loop].active[w.streams[s].pod] == s)
  {
    var l := w.streams[s].loop;
    assert StreamOk(w, s) && LoopOk(w, l);
    StepKeepsInv(w, a);
    StepStops(w, a, s);
    StepKeepsStream(w, a, s);
    StepCancelsLoop(w, a, l);
    StreamCancelledIff(w, s);
    StreamCancelledIff(Step(w, a), s);
    if a.Start? || a.Stop? {
      assert a.key in w.monitors ==> KeyOk(w, a.key) && LoopOk(w, w.monitors[a.key]);
    } else if (a.Sweep? || a.Exit?) && a.loop in w.loops {
      forall p | p in w.loops[a.loop].active && w.loops[a.loop].active[p] == s
        ensures a.loop == l && p == w.streams[s].pod
      {
        assert LoopOk(w, a.loop) && EntryOk(w, a.loop, w.loops[a.loop], p);
      }
    }
  }

  /** A stream that an action opens is one for a listed pod, and live exactly if its loop is. */
  lemma StepOpensStream(w: World, a: Action, s: Ctx)
    requires Inv(w) && s in Step(w, a).streams && s !in w.streams
    ensures var l := Step(w, a).streams[s].loop;
            && a == Spawn(l) && l in w.loops && w.loops[l].phase.Spawning?
            && Step(w, a).streams[s].pod in w.loops[l].phase.running
            && Step(w, a).streams[s].pod !in w.loops[l].active
            && (Cancelled(Step(w, a).contexts, s) <==> Cancelled(w.contexts, l))
  {
    StepKeepsInv(w, a);
    StreamCancelledIff(Step(w, a), s);
    StepCancelsLoop(w, a, a.loop);
  }

  /** A loop that an action starts is registered under the key, has no streams, and lives if the manager does. */
  lemma StartRegistersFresh(w: World, key: string)
    requires Inv(w)
    ensures var w' := Step(w, Start(key));
            && key in w'.monitors && w'.monitors[key] !in w.loops && w'.monitors[key] in w'.loops
            && w'.loops[w'.monitors[key]] == Loop(key, map[], Waiting)
            && (Cancelled(w'.contexts, w'.monitors[key]) <==> Cancelled(w.contexts, ROOT))
            && (forall k :: k != key ==> (k in w'.monitors <==> k in w.monitors) &&
                                         (k in w.monitors ==> w'.monitors[k] == w.monitors[k]))
            && (forall l :: l in w.loops ==> l in w'.loops && w'.loops[l] == w.loops[l])
            && w'.streams == w.streams
  {
    var w' := Step(w, Start(key));
    assert |w.contexts| !in w.loops by {
      assert forall l :: l in w.loops ==> LoopOk(w, l);
    }
    StepKeepsInv(w, Start(key));
    LoopCancelledIff(w', w'.monitors[key]);
    StepStopsRoot(w, Start(key));
  }

  /** The action is one that cancels the stream. */
  ghost predicate TakesDown(w: World, a: Action, s: Ctx) {
    s in w.streams && w.streams[s].loop in w.loops &&
    (|| a == Start(KeyOf(w, s)) || a == Stop(KeyOf(w, s)) || a == Shutdown
     || SweepsPod(w, a, w.streams[s].loop, w.streams[s].pod))
  }

  ghost predicate TookDown(w: World, actions: seq<Action>, s: Ctx, i: nat)
    requires i < |actions|
  {
    TakesDown(Exec(w, actions[..i]), actions[i], s)
  }

  lemma NewlyCancelled(w: World, a: Action, s: Ctx)
    requires Inv(w) && s in w.streams
    ensures s in Step(w, a).streams && Step(w, a).streams[s] == w.streams[s]
    ensures Cancelled(Step(w, a).contexts, s) ==> Cancelled(w.contexts, s) || TakesDown(w, a, s)
  {
    StepKeepsStream(w, a, s);
    StepCancelsStream(w, a, s);
  }

  lemma TookDownEarlier(w: World, actions: seq<Action>, n: nat, s: Ctx)
    requires n < |actions| && exists i :: 0 <= i < n && TookDown(w, actions[..n], s, i)
    ensures exists i :: 0 <= i < |actions| && TookDown(w, actions, s, i)
  {
    var i :| 0 <= i < n && TookDown(w, actions[..n], s, i);
    assert actions[..n][..i] == actions[..i];
    assert TookDown(w, actions, s, i);
  }

  /**
   No stream dies without cause. In every run a stream that is cancelled was so from the start, or its
   monitor was restarted or stopped, or the manager shut down, or a tick of its loop did not list its pod.
   */
  lemma {:induction false} NothingElseCancels(w: World, actions: seq<Action>, s: Ctx)
    requires Inv(w) && s in w.streams
    ensures s in Exec(w, actions).streams && Exec(w, actions).streams[s] == w.streams[s]
    ensures Cancelled(Exec(w, actions).contexts, s) ==>
              Cancelled(w.contexts, s) || exists i :: 0 <= i < |actions| && TookDown(w, actions, s, i)
  {
    if actions != [] {
      var n := |actions| - 1;
      var before := Exec(w, actions[..n]);
      ExecKeepsInv(w, actions[..n]);
      NothingElseCancels(w, actions[..n], s);
      NewlyCancelled(before, actions[n], s);
      if !Cancelled(w.contexts, s) {
        if Cancelled(before.contexts, s) {
          TookDownEarlier(w, actions, n, s);
        } else if Cancelled(Exec(w, actions).contexts, s) {
          assert TookDown(w, actions, s, n);
        }
      }
    }
  }

  // ----- a tick on its own -----

  /** The actions of one tick of a loop over a list. */
  predicate IsTickOf(l: Ctx, running: seq<string>, trace: seq<Action>) {
    forall i :: 0 <= i < |trace| ==>
      || trace[i] == TickBegin(l, running) || trace[i] == SweepEnd(l) || trace[i] == Spawn(l) || trace[i] == TickEnd(l)
      || (trace[i].Sweep? && trace[i].loop == l && trace[i].pod !in running)
  }

  lemma {:induction false} TickSparesLoops(w: World, l: Ctx, running: seq<string>, trace: seq<Action>, m: Ctx)
    requires Inv(w) && IsTickOf(l, running, trace) && m in w.loops
    ensures m in Exec(w, trace).loops && Exec(w, trace).loops[m].key == w.loops[m].key
    ensures Cancelled(Exec(w, trace).contexts, m) <==> Cancelled(w.contexts, m)
  {
    if trace != [] {
      var n := |trace| - 1;
      TickSparesLoops(w, l, running, trace[..n], m);
      ExecKeepsInv(w, trace[..n]);
      StepKeepsLoop(Exec(w, trace[..n]), trace[n], m);
      StepCancelsLoop(Exec(w, trace[..n]), trace[n], m);
    }
  }

  /** A tick cancels no stream but those of its own loop whose pod is not listed. */
  lemma {:induction false} TickSparesStreams(w: World, l: Ctx, running: seq<string>, trace: seq<Action>, s: Ctx)
    requires Inv(w) && IsTickOf(l, running, trace) && s in w.streams
    ensures s in Exec(w, trace).streams && Exec(w, trace).streams[s] == w.streams[s]
    ensures Cancelled(w.contexts, s) ==> Cancelled(Exec(w, trace).contexts, s)
    ensures Cancelled(Exec(w, trace).contexts, s) ==>
              Cancelled(w.contexts, s) || (w.streams[s].loop == l && w.streams[s].pod !in running)
  {
    if trace != [] {
      var n := |trace| - 1;
      TickSparesStreams(w, l, running, trace[..n], s);
      ExecKeepsInv(w, trace[..n]);
      StepKeepsStream(Exec(w, trace[..n]), trace[n], s);
      StepCancelsStream(Exec(w, trace[..n]), trace[n], s);
    }
  }

  /** The list of the tick under way, if one is. */
  predicate Works(loop: Loop, running: seq<string>) {
    (loop.phase.Sweeping? || loop.phase.Spawning?) ==> loop.phase.running == running
  }

  lemma StepKeepsList(w: World, a: Action, l: Ctx, running: seq<string>)
    requires Inv(w) && l in w.loops && Works(w.loops[l], running)
    requires a.TickBegin? && a.loop == l ==> a.running == running
    ensures l in Step(w, a).loops && Works(Step(w, a).loops[l], running)
  {
    assert LoopOk(w, l);
  }

  lemma {:induction false} TickKeepsList(w: World, l: Ctx, running: seq<string>, trace: seq<Action>)
    requires Inv(w) && IsTickOf(l, running, trace) && l in w.loops && w.loops[l].phase == Waiting
    ensures l in Exec(w, trace).loops && Works(Exec(w, trace).loops[l], running)
  {
    if trace != [] {
      var n := |trace| - 1;
      TickKeepsList(w, l, running, trace[..n]);
      ExecKeepsInv(w, trace[..n]);
      StepKeepsList(Exec(w, trace[..n]), trace[n], l, running);
    }
  }

  /** The streams a tick opens are for listed pods, and live exactly if the loop is. */
  lemma {:induction false} TickOpensLive(w: World, l: Ctx, running: seq<string>, trace: seq<Action>, s: Ctx)
    requires Inv(w) && IsTickOf(l, running, trace) && l in w.loops && w.loops[l].phase == Waiting
    requires s in Exec(w, trace).streams && s !in w.streams
    ensures Exec(w, trace).streams[s].loop == l && Exec(w, trace).streams[s].pod in running
    ensures Cancelled(Exec(w, trace).contexts, s) <==> Cancelled(w.contexts, l)
  {
    var n := |trace| - 1;
    var before := Exec(w, trace[..n]);
    ExecKeepsInv(w, trace[..n]);
    if s in before.streams {
      TickOpensLive(w, l, running, trace[..n], s);
      StepKeepsStream(before, trace[n], s);
      StepCancelsStream(before, trace[n], s);
    } else {
      StepOpensStream(before, trace[n], s);
      TickKeepsList(w, l, running, trace[..n]);
      TickSparesLoops(w, l, running, trace[..n], l);
    }
  }

  /**
   What a tick of the loop over that list has cancelled and opened: of the streams there before, those of its
   own whose pod is not listed; and the new ones, its own for listed pods, live exactly if the loop is.
   */
  ghost predicate CancelsOnlyUnlisted(w: World, w': World, l: Ctx, running: seq<string>) {
    && (forall m :: m in w.loops ==> m in w'.loops && (Cancelled(w'.contexts, m) <==> Cancelled(w.contexts, m)))
    && (forall s :: s in w.streams ==>
          && s in w'.streams && w'.streams[s] == w.streams[s]
          && (Cancelled(w'.contexts, s) <==>
                Cancelled(w.contexts, s) || (w.streams[s].loop == l && w.streams[s].pod !in running)))
    && (forall s :: s in w'.streams && s !in w.streams ==>
          && w'.streams[s].loop == l && w'.streams[s].pod in running
          && (Cancelled(w'.contexts, s) <==> Cancelled(w'.contexts, l)))
  }

  lemma TickIsExact(w: World, l: Ctx, running: seq<string>, trace: seq<Action>)
    requires Inv(w) && IsTickOf(l, running, trace) && l in w.loops && w.loops[l].phase == Waiting
    requires var w' := Exec(w, trace);
             forall s :: s in w'.streams && w'.streams[s].loop == l && w'.streams[s].pod !in running ==>
                           Cancelled(w'.contexts, s)
    ensures CancelsOnlyUnlisted(w, Exec(w, trace), l, running)
  {
    forall m | m in w.loops
      ensures m in Exec(w, trace).loops && (Cancelled(Exec(w, trace).contexts, m) <==> Cancelled(w.contexts, m))
    {
      TickSparesLoops(w, l, running, trace, m);
    }
    forall s | s in w.streams
      ensures s in Exec(w, trace).streams && Exec(w, trace).streams[s] == w.streams[s]
      ensures Cancelled(Exec(w, trace).contexts, s) <==>
              Cancelled(w.contexts, s) || (w.streams[s].loop == l && w.streams[s].pod !in running)
    {
      TickSparesStreams(w, l, running, trace, s);
    }
    forall s | s in Exec(w, trace).streams && s !in w.streams
      ensures Exec(w, trace).streams[s].loop == l && Exec(w, trace).streams[s].pod in running
      ensures Cancelled(Exec(w, trace).contexts, s) <==> Cancelled(w.contexts, l)
    {
      TickOpensLive(w, l, running, trace, s);
    }
  }

  /**
   A tick spares the listed, whatever else goes on: from the moment it has its list, and until the next tick
   of its loop, a stream of the loop for a listed pod is cancelled only by a restart or stop of its monitor
   or the shutdown.
   */
  lemma {:induction false} TickSparesListed(w: World, l: Ctx, running: seq<string>, actions: seq<Action>, s: Ctx)
    requires Inv(w) && l in w.loops && Works(w.loops[l], running)
    requires s in w.streams && w.streams[s].loop == l && w.streams[s].pod in running
    requires forall i :: 0 <= i < |actions| ==>
               !(actions[i].TickBegin? && actions[i].loop == l) && actions[i] != Shutdown &&
               actions[i] != Start(w.loops[l].key) && actions[i] != Stop(w.loops[l].key)
    ensures var r := Exec(w, actions);
            && l in r.loops && r.loops[l].key == w.loops[l].key && Works(r.loops[l], running)
            && s in r.streams && r.streams[s] == w.streams[s]
            && (Cancelled(r.contexts, s) <==> Cancelled(w.contexts, s))
  {
    if actions != [] {
      var n := |actions| - 1;
      var before := Exec(w, actions[..n]);
      TickSparesListed(w, l, running, actions[..n], s);
      ExecKeepsInv(w, actions[..n]);
      StepKeepsList(before, actions[n], l, running);
      StepKeepsLoop(before, actions[n], l);
      StepKeepsStream(before, actions[n], s);
      StepCancelsStream(before, actions[n], s);
    }
  }

  /** A restart or stop cancels exactly the loops and streams of its monitor. */
  lemma RestartIsExact(w: World, key: string, a: Action)
    requires Inv(w) && (a == Start(key) || a == Stop(key))
    ensures forall l :: l in w.loops ==>
              (Cancelled(Step(w, a).contexts, l) <==> Cancelled(w.contexts, l) || w.loops[l].key == key)
    ensures forall s :: s in w.streams ==>
              w.streams[s].loop in w.loops &&
              (Cancelled(Step(w, a).contexts, s) <==> Cancelled(w.contexts, s) || KeyOf(w, s) == key)
  {
    forall l | l in w.loops
      ensures Cancelled(Step(w, a).contexts, l) <==> Cancelled(w.contexts, l) || w.loops[l].key == key
    {
      StepCancelsLoop(w, a, l);
    }
    forall s | s in w.streams
      ensures w.streams[s].loop in w.loops
      ensures Cancelled(Step(w, a).contexts, s) <==> Cancelled(w.contexts, s) || KeyOf(w, s) == key
    {
      StepCancelsStream(w, a, s);
    }
  }

  /** A loop's exit stops every context in its map, all of which were done with the loop already. */
  lemma ExitIsExact(w: World, l: Ctx)
    requires Inv(w) && l in w.loops && w.loops[l].phase == Waiting && Cancelled(w.contexts, l)
    ensures var w' := Step(w, Exit(l));
            && |w'.contexts| == |w.contexts|
            && (forall p :: p in w.loops[l].active ==>
                  w.loops[l].active[p] < |w'.contexts| && w'.contexts[w.loops[l].active[p]].stopped)
            && (forall m :: m in w.loops ==> (Cancelled(w'.contexts, m) <==> Cancelled(w.contexts, m)))
            && (forall s :: s in w.streams ==> (Cancelled(w'.contexts, s) <==> Cancelled(w.contexts, s)))
  {
    assert LoopOk(w, l);
    forall p | p in w.loops[l].active ensures w.loops[l].active[p] < |w.contexts| {
      assert EntryOk(w, l, w.loops[l], p) && StreamOk(w, w.loops[l].active[p]);
    }
    forall m | m in w.loops ensures Cancelled(Step(w, Exit(l)).contexts, m) <==> Cancelled(w.contexts, m) {
      StepCancelsLoop(w, Exit(l), m);
    }
    forall s | s in w.streams ensures Cancelled(Step(w, Exit(l)).contexts, s) <==> Cancelled(w.contexts, s) {
      StepCancelsStream(w, Exit(l), s);
    }
  }

  /**
   Tick reconciliation: a tick is over only when the whole list has been gone through, and then the map's
   pods are exactly the Running pods of its list, pods there before and after keep the very same context,
   and every context this loop ever opened for a pod not in the map is cancelled.
   */
  lemma TickReconciles(w: World, l: Ctx)
    requires Inv(w) && l in w.loops && w.loops[l].phase.Spawning?
    ensures var loop, w' := w.loops[l], Step(w, TickEnd(l));
            if loop.phase.next < |loop.phase.running| then w' == w
            else
              && w'.loops[l].phase == Waiting
              && w'.loops[l].active.Keys == (set p | p in loop.phase.running)
              && (forall p :: p in loop.phase.before && p in w'.loops[l].active ==>
                    w'.loops[l].active[p] == loop.phase.before[p])
              && (forall s :: s in w'.streams && w'.streams[s].loop == l && w'.streams[s].pod !in w'.loops[l].active ==>
                    Cancelled(w'.contexts, s))
              && w'.contexts == w.contexts
  {
    assert LoopOk(w, l);
    forall s | s in w.streams && w.streams[s].loop == l && w.streams[s].pod !in w.loops[l].active
      ensures Cancelled(w.contexts, s)
    {
      assert StreamOk(w, s);
    }
  }

  // ----- the manager object -----

  /** An item of the pod list. */
  datatype Pod = Pod(name: string, running: bool)

  function RunningPods(items: seq<Pod>): seq<string> {
    if items == [] then []
    else
      var n := |items| - 1;
      RunningPods(items[..n]) + if items[n].running then [items[n].name] else []
  }

  lemma {:induction false} RunningPodsAre(items: seq<Pod>, p: string)
    ensures p in RunningPods(items) <==> exists i :: 0 <= i < |items| && items[i].running && items[i].name == p
  {
    if items != [] {
      var n := |items| - 1;
      RunningPodsAre(items[..n], p);
      assert forall i :: 0 <= i < n ==> items[..n][i] == items[i];
    }
  }

  method ListRunning(items: seq<Pod>) returns (running: seq<string>)
    ensures running == RunningPods(items)
  {
    running := [];
    for i := 0 to |items|
      invariant running == RunningPods(items[..i])
    {
      assert items[..i + 1][..i] == items[..i];
      if items[i].running {
        running := running + [items[i].name];
      }
    }
    assert items[..|items|] == items;
  }

  lemma TraceGrows(w: World, trace: seq<Action>, a: Action)
    ensures Exec(w, trace + [a]) == Step(Exec(w, trace), a)
  {
    RunGrows(Step, w, trace, a);
  }

  class MonitorManager {
    var contexts: seq<Context>
    var monitors: map<string, Ctx>
    var loops: map<Ctx, Loop>
    var streams: map<Ctx, PodStream>

    ghost function View(): World
      reads this
    {
      World(contexts, monitors, loops, streams)
    }

    ghost predicate Valid()
      reads this
    {
      Inv(View())
    }

    constructor ()
      ensures Valid() && View() == INITIAL
    {
      contexts := [Context(None, false)];
      monitors, loops, streams := map[], map[], map[];
    }

    method Cancel(c: Ctx)
      modifies this`contexts
      ensures View() == Halted(old(View()), {c})
    {
      if c < |contexts| {
        contexts := contexts[c := contexts[c].(stopped := true)];
      }
      assert contexts == Stopped(old(contexts), {c});
    }

    method WithCancel(parent: Ctx) returns (c: Ctx)
      modifies this`contexts
      ensures c == |old(contexts)| && contexts == old(contexts) + [Context(Some(parent), false)]
    {
      c := |contexts|;
      contexts := contexts + [Context(Some(parent), false)];
    }

    method StartOrUpdateMonitor(key: string)
      requires Valid()
      modifies this
      ensures Valid() && View() == Step(old(View()), Start(key))
      ensures key in monitors && monitors[key] in loops && monitors[key] !in old(loops)
      ensures loops[monitors[key]] == Loop(key, map[], Waiting)
      ensures Cancelled(contexts, monitors[key]) <==> old(Cancelled(contexts, ROOT))
      ensures forall s :: s in old(streams) ==>
                s in streams && old(streams[s].loop in loops) &&
                (Cancelled(contexts, s) <==> old(Cancelled(contexts, s) || KeyOf(View(), s) == key))
    {
      StepKeepsInv(View(), Start(key));
      StartRegistersFresh(View(), key);
      RestartIsExact(View(), key, Start(key));
      if key in monitors {
        Cancel(monitors[key]);
      }
      var c := WithCancel(ROOT);
      monitors := monitors[key := c];
      loops := loops[c := Loop(key, map[], Waiting)];
    }

    method StopMonitor(key: string)
      requires Valid()
      modifies this
      ensures Valid() && View() == Step(old(View()), Stop(key))
      ensures key !in monitors
      ensures forall k :: k != key ==> (k in monitors <==> k in old(monitors)) &&
                                       (k in monitors ==> monitors[k] == old(monitors)[k])
      ensures forall s :: s in old(streams) ==>
                s in streams && old(streams[s].loop in loops) &&
                (Cancelled(contexts, s) <==> old(Cancelled(contexts, s) || KeyOf(View(), s) == key))
    {
      StepKeepsInv(View(), Stop(key));
      RestartIsExact(View(), key, Stop(key));
      if key in monitors {
        Cancel(monitors[key]);
        monitors := monitors - {key};
      }
    }

    /** A loop that sees its context done stops every stream in its map and returns. */
    method ExitLoop(l: Ctx)
      requires Valid() && l in loops && loops[l].phase == Waiting && Cancelled(contexts, l)
      modifies this
      ensures Valid() && View() == Step(old(View()), Exit(l))
      ensures l in loops && loops[l].phase == Exited
      ensures forall p :: p in old(loops[l].active) ==>
                old(loops[l].active[p]) < |contexts| && contexts[old(loops[l].active[p])].stopped
      ensures forall s :: s in old(streams) ==> s in streams && (Cancelled(contexts, s) <==> old(Cancelled(contexts, s)))
    {
      StepKeepsInv(View(), Exit(l));
      ExitIsExact(View(), l);
      var all := loops[l].active.Values;
      var todo := all;
      assert contexts == Stopped(contexts, {});
      while todo != {}
        invariant View() == Halted(old(View()), all - todo)
        invariant todo <= all
        decreases todo
      {
        var c :| c in todo;
        ghost var done := all - todo;
        todo := todo - {c};
        Cancel(c);
        assert all - todo == done + {c};
        assert Stopped(Stopped(old(contexts), done), {c}) == Stopped(old(contexts), done + {c});
      }
      assert all - {} == all;
      loops := loops[l := loops[l].(phase := Exited)];
    }

    /** The atomic steps of a tick. Each extends the trace of actions taken since some earlier state. */

    method BeginTick(l: Ctx, running: seq<string>) returns (ghost trace: seq<Action>)
      requires Valid() && l in loops && loops[l].phase == Waiting
      modifies this
      ensures Valid() && View() == Exec(old(View()), trace)
      ensures l in loops && loops[l].active == old(loops[l].active)
      ensures loops[l].phase == Sweeping(running, old(loops[l].active)) && IsTickOf(l, running, trace)
    {
      StepKeepsInv(View(), TickBegin(l, running));
      TraceGrows(View(), [], TickBegin(l, running));
      trace := [] + [TickBegin(l, running)];
      loops := loops[l := loops[l].(phase := Sweeping(running, loops[l].active))];
    }

    method SweepPod(l: Ctx, p: string, ghost w0: World, ghost before: seq<Action>) returns (ghost trace: seq<Action>)
      requires Valid() && View() == Exec(w0, before)
      requires l in loops && loops[l].phase.Sweeping? && p in loops[l].active && p !in loops[l].phase.running
      requires IsTickOf(l, loops[l].phase.running, before)
      modifies this
      ensures Valid() && View() == Exec(w0, trace) && IsTickOf(l, old(loops[l].phase).running, trace)
      ensures l in loops && loops[l].phase == old(loops[l].phase) && loops[l].active == old(loops[l].active) - {p}
    {
      SweepKeepsInv(View(), l, p);
      TraceGrows(w0, before, Sweep(l, p));
      trace := before + [Sweep(l, p)];
      Cancel(loops[l].active[p]);
      loops := loops[l := loops[l].(active := loops[l].active - {p})];
    }

    method EndSweep(l: Ctx, ghost w0: World, ghost before: seq<Action>) returns (ghost trace: seq<Action>)
      requires Valid() && View() == Exec(w0, before)
      requires l in loops && loops[l].phase.Sweeping? && IsTickOf(l, loops[l].phase.running, before)
      requires forall p :: p in loops[l].active ==> p in loops[l].phase.running
      modifies this
      ensures Valid() && View() == Exec(w0, trace) && l in loops && IsTickOf(l, old(loops[l].phase).running, trace)
      ensures var was := old(loops[l].phase); loops[l].phase == Spawning(was.running, was.before, 0)
    {
      SweepEndKeepsInv(View(), l);
      TraceGrows(w0, before, SweepEnd(l));
      trace := before + [SweepEnd(l)];
      var phase := loops[l].phase;
      loops := loops[l := loops[l].(phase := Spawning(phase.running, phase.before, 0))];
    }

    method SpawnPod(l: Ctx, ghost w0: World, ghost before: seq<Action>) returns (ghost trace: seq<Action>)
      requires Valid() && View() == Exec(w0, before)
      requires l in loops && loops[l].phase.Spawning? && loops[l].phase.next < |loops[l].phase.running|
      requires IsTickOf(l, loops[l].phase.running, before)
      modifies this
      ensures Valid() && View() == Exec(w0, trace) && IsTickOf(l, old(loops[l].phase).running, trace)
      ensures l in loops && loops[l].phase == old(loops[l].phase).(next := old(loops[l].phase).next + 1)
    {
      SpawnKeepsInv(View(), l);
      TraceGrows(w0, before, Spawn(l));
      trace := before + [Spawn(l)];
      var loop := loops[l];
      var pod := loop.phase.running[loop.phase.next];
      var phase := loop.phase.(next := loop.phase.next + 1);
      if pod !in loop.active {
        var c := WithCancel(l);
        streams := streams[c := PodStream(l, pod)];
        loops := loops[l := loop.(phase := phase, active := loop.active[pod := c])];
      } else {
        loops := loops[l := loop.(phase := phase)];
      }
    }

    method EndTick(l: Ctx, ghost w0: World, ghost before: seq<Action>) returns (ghost trace: seq<Action>)
      requires Valid() && View() == Exec(w0, before)
      requires l in loops && loops[l].phase.Spawning? && loops[l].phase.next == |loops[l].phase.running|
      requires IsTickOf(l, loops[l].phase.running, before)
      modifies this
      ensures Valid() && View() == Exec(w0, trace) && IsTickOf(l, old(loops[l].phase).running, trace)
      ensures l in loops && loops[l].phase == Waiting && Reconciled(l, old(loops[l].phase))
    {
      TickReconciles(View(), l);
      StepKeepsInv(View(), TickEnd(l));
      TraceGrows(w0, before, TickEnd(l));
      trace := before + [TickEnd(l)];
      loops := loops[l := loops[l].(phase := Waiting)];
    }

    /** What a tick achieves, for the Running pods and the map recorded in its phase. */
    ghost predicate Reconciled(l: Ctx, phase: Phase)
      requires phase.Spawning? && l in loops
      reads this
    {
      && loops[l].active.Keys == (set p | p in phase.running)
      && (forall p :: p in phase.before && p in loops[l].active ==> loops[l].active[p] == phase.before[p])
      && (forall s :: s in streams && streams[s].loop == l && streams[s].pod !in loops[l].active ==>
            Cancelled(contexts, s))
    }

    /** Cancels and forgets every pod of the map that is not Running any more. */
    method SweepAll(l: Ctx, ghost w0: World, ghost start: seq<Action>) returns (ghost trace: seq<Action>)
      requires Valid() && View() == Exec(w0, start) && l in loops && loops[l].phase.Sweeping?
      requires IsTickOf(l, loops[l].phase.running, start)
      modifies this
      ensures Valid() && View() == Exec(w0, trace) && l in loops && IsTickOf(l, old(loops[l].phase).running, trace)
      ensures var was := old(loops[l].phase); loops[l].phase == Spawning(was.running, was.before, 0)
    {
      var phase := loops[l].phase;
      trace := start;
      var todo := loops[l].active.Keys;
      while todo != {}
        invariant Valid() && View() == Exec(w0, trace) && l in loops
        invariant loops[l].phase == phase && IsTickOf(l, phase.running, trace)
        invariant todo <= loops[l].active.Keys
        invariant forall p :: p in loops[l].active && p !in todo ==> p in phase.running
        decreases todo
      {
        var p :| p in todo;
        todo := todo - {p};
        if p !in phase.running {
          trace := SweepPod(l, p, w0, trace);
        }
      }
      trace := EndSweep(l, w0, trace);
    }

    /** Opens a stream for every Running pod of the list that has none, and ends the tick. */
    method SpawnAll(l: Ctx, ghost w0: World, ghost start: seq<Action>) returns (ghost trace: seq<Action>)
      requires Valid() && View() == Exec(w0, start)
      requires l in loops && loops[l].phase.Spawning? && loops[l].phase.next == 0
      requires IsTickOf(l, loops[l].phase.running, start)
      modifies this
      ensures Valid() && View() == Exec(w0, trace) && l in loops && loops[l].phase == Waiting
      ensures IsTickOf(l, old(loops[l].phase).running, trace)
      ensures var was := old(loops[l].phase); Reconciled(l, was.(next := |was.running|))
    {
      var phase := loops[l].phase;
      trace := start;
      for i := 0 to |phase.running|
        invariant Valid() && View() == Exec(w0, trace) && l in loops
        invariant loops[l].phase == phase.(next := i) && IsTickOf(l, phase.running, trace)
      {
        trace := SpawnPod(l, w0, trace);
      }
      trace := EndTick(l, w0, trace);
    }

    /** A whole tick with a successful list: one of the interleavings, with its outcome. */
    method Tick(l: Ctx, items: seq<Pod>) returns (ghost trace: seq<Action>)
      requires Valid() && l in loops && loops[l].phase == Waiting
      modifies this
      ensures Valid() && View() == Exec(old(View()), trace)
      ensures l in loops && loops[l].phase == Waiting
      ensures Reconciled(l, Spawning(RunningPods(items), old(loops[l].active), |RunningPods(items)|))
      ensures forall p :: p in loops[l].active <==>
                exists i :: 0 <= i < |items| && items[i].running && items[i].name == p
      ensures CancelsOnlyUnlisted(old(View()), View(), l, RunningPods(items))
    {
      var running := ListRunning(items);
      trace := BeginTick(l, running);
      trace := SweepAll(l, old(View()), trace);
      trace := SpawnAll(l, old(View()), trace);
      forall p ensures p in running <==> exists i :: 0 <= i < |items| && items[i].running && items[i].name == p {
        RunningPodsAre(items, p);
      }
      TickIsExact(old(View()), l, running, trace);
    }
  }
}
