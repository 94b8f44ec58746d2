/**
 The fan-out of one alert (internal/controller/monitorpod_controller.go:695-715): one sender goroutine
 per target, a wait group, and a buffered channel on which each successful sender puts one value
 (lines 477 and 616). The senders run concurrently with each other and with the launching loop.
 */
module FanOut {
  import opened Counting
  import opened Runs

  /** Sent: the value is in the channel, the deferred wg.Done has not run yet. */
  datatype Sender = Unborn | Sending | Sent | Done(ok: bool)

  /** The channel's capacity is |senders|; `sent` is its length. */
  datatype Fan = Fan(senders: seq<Sender>, launched: nat, wg: int, sent: nat, closed: bool, panicked: bool)

  datatype FanAction = Launch | Deliver(i: nat) | Fail(i: nat) | Finish(i: nat) | Close

  function Initial(n: nat): Fan {
    Fan(seq(n, _ => Unborn), 0, 0, 0, false, false)
  }

  /** A send on a full channel blocks, a send on a closed one panics. */
  function FanStep(f: Fan, a: FanAction): Fan {
    match a
    case Launch =>
      if f.launched >= |f.senders| then f
      else f.(senders := f.senders[f.launched := Sending], launched := f.launched + 1, wg := f.wg + 1)
    case Deliver(i) =>
      if i >= |f.senders| || f.senders[i] != Sending then f
      else if f.closed then f.(panicked := true)
      else if f.sent >= |f.senders| then f
      else f.(senders := f.senders[i := Sent], sent := f.sent + 1)
    case Fail(i) =>
      if i >= |f.senders| || f.senders[i] != Sending then f
      else f.(senders := f.senders[i := Done(false)], wg := f.wg - 1)
    case Finish(i) =>
      if i >= |f.senders| || f.senders[i] != Sent then f
      else f.(senders := f.senders[i := Done(true)], wg := f.wg - 1)
    case Close =>
      if f.launched < |f.senders| || f.wg != 0 || f.closed then f
      else f.(closed := true)
  }

  predicate Active(s: Sender) { s == Sending || s == Sent }

  predicate Succeeded(s: Sender) { s == Sent || s == Done(true) }

  ghost predicate FanInv(f: Fan) {
    && !f.panicked
    && f.launched <= |f.senders|
    && (forall i :: 0 <= i < |f.senders| ==> (f.senders[i] == Unborn <==> i >= f.launched))
    && f.wg == CountIf(f.senders, Active)
    && f.sent == CountIf(f.senders, Succeeded)
    && (f.closed ==> f.launched == |f.senders| && f.wg == 0)
  }

  lemma {:induction false} NobodyYet(n: nat, p: Sender -> bool)
    requires !p(Unborn)
    ensures CountIf(seq(n, _ => Unborn), p) == 0
  {
    if n > 0 {
      NobodyYet(n - 1, p);
      assert seq(n, _ => Unborn)[..n - 1] == seq(n - 1, _ => Unborn);
    }
  }

  lemma InitialFanInv(n: nat)
    ensures FanInv(Initial(n))
  {
    NobodyYet(n, Active);
    NobodyYet(n, Succeeded);
  }

  /** A sender that has not finished moves on. */
  lemma MoveKeepsInv(f: Fan, i: nat, to: Sender)
    requires FanInv(f) && i < |f.senders| && Active(f.senders[i]) && to != Unborn
    requires Succeeded(f.senders[i]) ==> Succeeded(to)
    ensures !f.closed && f.wg >= 1
    ensures FanInv(f.(senders := f.senders[i := to],
                      wg := if Active(to) then f.wg else f.wg - 1,
                      sent := if Succeeded(to) && !Succeeded(f.senders[i]) then f.sent + 1 else f.sent))
  {
    CountAll(f.senders, Active);
    CountUpdate(f.senders, i, to, Active);
    CountUpdate(f.senders, i, to, Succeeded);
  }

  lemma LaunchKeepsInv(f: Fan)
    requires FanInv(f) && f.launched < |f.senders|
    ensures FanInv(FanStep(f, Launch))
  {
    CountUpdate(f.senders, f.launched, Sending, Active);
    CountUpdate(f.senders, f.launched, Sending, Succeeded);
  }

  lemma FanStepKeepsInv(f: Fan, a: FanAction)
    requires FanInv(f)
    ensures FanInv(FanStep(f, a)) && |FanStep(f, a).senders| == |f.senders|
  {
    match a
    case Launch =>
      if f.launched < |f.senders| {
        LaunchKeepsInv(f);
      }
    case Deliver(i) =>
      if i < |f.senders| && f.senders[i] == Sending {
        MoveKeepsInv(f, i, Sent);
      }
    case Fail(i) =>
      if i < |f.senders| && f.senders[i] == Sending {
        MoveKeepsInv(f, i, Done(false));
      }
    case Finish(i) =>
      if i < |f.senders| && f.senders[i] == Sent {
        MoveKeepsInv(f, i, Done(true));
      }
    case Close =>
  }

  /** No send ever blocks or meets a closed channel. */
  lemma SendNeverBlocks(f: Fan, i: nat)
    requires FanInv(f) && i < |f.senders| && f.senders[i] == Sending
    ensures !f.closed && f.sent < |f.senders|
    ensures FanStep(f, Deliver(i)).senders[i] == Sent
  {
    CountAll(f.senders, Active);
    CountAll(f.senders, Succeeded);
  }

  predicate SucceededFinally(s: Sender) { s == Done(true) }

  /** When the channel is closed every sender is done, and its length counts the successful ones. */
  lemma ClosedMeansAllDone(f: Fan)
    requires FanInv(f) && f.closed
    ensures forall i :: 0 <= i < |f.senders| ==> f.senders[i].Done?
    ensures f.sent == CountIf(f.senders, SucceededFinally)
    ensures f.sent > 0 <==> exists i :: 0 <= i < |f.senders| && f.senders[i] == Done(true)
  {
    CountAll(f.senders, Active);
    assert forall i :: 0 <= i < |f.senders| ==> !Active(f.senders[i]);
    CountMonotone(f.senders, SucceededFinally, Succeeded);
    CountMonotone(f.senders, Succeeded, SucceededFinally);
    CountAll(f.senders, SucceededFinally);
  }

  predicate IsSending(s: Sender) { s == Sending }

  /** Work left: launches still to make, sends and exits still to happen, and the close. */
  function Remaining(f: Fan): int {
    3 * (|f.senders| - f.launched) + CountIf(f.senders, IsSending) + CountIf(f.senders, Active) +
    if f.closed then 0 else 1
  }

  /** Every action that does anything brings the close nearer. */
  lemma FanActionProgresses(f: Fan, a: FanAction)
    requires FanInv(f) && FanStep(f, a) != f
    ensures 0 <= Remaining(FanStep(f, a)) < Remaining(f)
  {
    FanStepKeepsInv(f, a);
    match a
    case Launch =>
      CountUpdate(f.senders, f.launched, Sending, Active);
      CountUpdate(f.senders, f.launched, Sending, IsSending);
    case Deliver(i) =>
      SendNeverBlocks(f, i);
      CountUpdate(f.senders, i, Sent, Active);
      CountUpdate(f.senders, i, Sent, IsSending);
    case Fail(i) =>
      CountUpdate(f.senders, i, Done(false), Active);
      CountUpdate(f.senders, i, Done(false), IsSending);
    case Finish(i) =>
      CountUpdate(f.senders, i, Done(true), Active);
      CountUpdate(f.senders, i, Done(true), IsSending);
    case Close =>
  }

  /** No deadlock: until the channel is closed some action can be taken, so the waiter proceeds. */
  lemma FanNeverStuck(f: Fan) returns (a: FanAction)
    requires FanInv(f) && !f.closed
    ensures FanStep(f, a) != f
  {
    CountAll(f.senders, Active);
    if f.launched < |f.senders| {
      a := Launch;
    } else if f.wg > 0 {
      var i :| 0 <= i < |f.senders| && Active(f.senders[i]);
      if f.senders[i] == Sending {
        SendNeverBlocks(f, i);
        a := Deliver(i);
      } else {
        a := Finish(i);
      }
    } else {
      a := Close;
    }
  }

  // ----- whole runs -----

  function Exec(n: nat, actions: seq<FanAction>): Fan {
    Run(FanStep, Initial(n), actions)
  }

  lemma {:induction false} ExecKeepsInv(n: nat, actions: seq<FanAction>)
    ensures FanInv(Exec(n, actions)) && |Exec(n, actions).senders| == n
  {
    if actions == [] {
      InitialFanInv(n);
    } else {
      ExecKeepsInv(n, actions[..|actions| - 1]);
      FanStepKeepsInv(Exec(n, actions[..|actions| - 1]), actions[|actions| - 1]);
    }
  }

  /**
   Safety of every interleaving of n senders with the launching loop and the waiter: nothing is sent on
   a closed or full channel, so no sender blocks or panics, and once the waiter has closed the channel
   every sender is done and the channel holds one value for each that succeeded.
   */
  lemma FanOutIsSafe(n: nat, actions: seq<FanAction>)
    ensures var f := Exec(n, actions);
            && |f.senders| == n && !f.panicked
            && (forall i :: 0 <= i < n && f.senders[i] == Sending ==>
                  !f.closed && f.sent < n && FanStep(f, Deliver(i)).senders[i] == Sent)
            && (f.closed ==>
                  && (forall i :: 0 <= i < n ==> f.senders[i].Done?)
                  && f.sent == CountIf(f.senders, SucceededFinally)
                  && (f.sent > 0 <==> exists i :: 0 <= i < n && f.senders[i] == Done(true)))
  {
    var f := Exec(n, actions);
    ExecKeepsInv(n, actions);
    forall i | 0 <= i < n && f.senders[i] == Sending
      ensures !f.closed && f.sent < n && FanStep(f, Deliver(i)).senders[i] == Sent
    {
      SendNeverBlocks(f, i);
    }
    if f.closed {
      ClosedMeansAllDone(f);
    }
  }

  /** Every action of the run did something. */
  ghost predicate Effective(n: nat, actions: seq<FanAction>) {
    forall k :: 0 <= k < |actions| ==> FanStep(Exec(n, actions[..k]), actions[k]) != Exec(n, actions[..k])
  }

  lemma EverythingRemains(n: nat)
    ensures Remaining(Initial(n)) == 3 * n + 1
  {
    NobodyYet(n, IsSending);
    NobodyYet(n, Active);
  }

  lemma {:induction false} EffectiveRunsSpend(n: nat, actions: seq<FanAction>)
    requires Effective(n, actions)
    ensures 0 <= Remaining(Exec(n, actions)) <= Remaining(Initial(n)) - |actions|
  {
    if actions == [] {
      EverythingRemains(n);
    } else {
      var k := |actions| - 1;
      var before, f := actions[..k], Exec(n, actions[..k]);
      assert Effective(n, before) by {
        assert forall j :: 0 <= j < k ==> before[..j] == actions[..j];
      }
      EffectiveRunsSpend(n, before);
      ExecKeepsInv(n, before);
      assert Exec(n, actions) == FanStep(f, actions[k]) && FanStep(f, actions[k]) != f;
      FanActionProgresses(f, actions[k]);
    }
  }

  /**
   The waiter gets through: no run has more than 3n + 1 effective actions, and it can go no further
   exactly if the channel is closed.
   */
  lemma FanOutEnds(n: nat, actions: seq<FanAction>)
    requires Effective(n, actions)
    ensures |actions| <= 3 * n + 1
    ensures (forall a :: FanStep(Exec(n, actions), a) == Exec(n, actions)) <==> Exec(n, actions).closed
  {
    EffectiveRunsSpend(n, actions);
    EverythingRemains(n);
    ExecKeepsInv(n, actions);
    var f := Exec(n, actions);
    if !f.closed {
      var a := FanNeverStuck(f);
    } else {
      ClosedMeansAllDone(f);
    }
  }
}
