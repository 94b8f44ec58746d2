/**
 The log stream of one pod (internal/controller/monitorpod_controller.go:290-368): a loop around a
 select over {context done, timer fired, read a line}, with a buffer, a flush routine and a rule scan.

 Scheduling is an input: each pass of the loop gets a Turn saying what was ready and what was picked.
 Regular expressions are arbitrary predicates; a multiline pattern that does not compile is SingleLine,
 and a rule regex that does not compile is a rule that matches nothing.
 */
module LogStream {
  import opened Wrappers
  import opened EventBatch

  datatype Mode = SingleLine | Multiline(matches: string -> bool, negate: bool)
  datatype Rule = Rule(name: string, matches: string -> bool)

  /** Idle: stopped, or already received. Fired: a value waits in the timer's channel. */
  datatype Timer = Idle | Armed | Fired

  /**
   One pass of the loop. `done` and `expired` are the state of the context and of an armed timer when
   the select looks; `preferTimer` is the coin toss when both cases are ready. The rest concerns the
   read made when neither is: it may end the stream, and an armed timer may run out while it blocks.
   */
  datatype Turn = Turn(done: bool, expired: bool, preferTimer: bool, scanFails: bool, expiredInScan: bool)

  datatype Stream = Stream(
    buffer: string,
    timer: Timer,
    closed: bool,
    events: seq<string>,   // flushed so far
    lines: seq<Line>,      // read so far
    cut: bool              // nothing has been buffered since the last flush
  )

  const INITIAL := Stream("", Idle, false, [], [], true)

  predicate StartsEvent(mode: Mode, line: string)
    requires mode.Multiline?
  {
    mode.matches(line) != mode.negate
  }

  function Flushed(s: Stream): Stream {
    s.(buffer := "", cut := true, events := if s.buffer == "" then s.events else s.events + [s.buffer])
  }

  function Appended(s: Stream, line: string): Stream {
    s.(buffer := if s.buffer == "" then line else s.buffer + "\n" + line,
       lines := s.lines + [Line(line, s.cut)],
       cut := false)
  }

  /** What becomes of a line. Reset arms the timer afresh and discards a pending firing. */
  function Taken(mode: Mode, s: Stream, line: string): Stream {
    match mode
    case SingleLine => Flushed(Appended(s, line))
    case Multiline(_, _) =>
      Appended(if StartsEvent(mode, line) then Flushed(s) else s, line).(timer := Armed)
  }

  /** The default case of the select. */
  function Read(mode: Mode, input: seq<string>, s: Stream, t: Turn): Stream {
    var timer := if s.timer == Armed && t.expiredInScan then Fired else s.timer;
    if t.scanFails || |s.lines| >= |input| then Flushed(s).(closed := true, timer := timer)
    else Taken(mode, s.(timer := timer), input[|s.lines|])
  }

  function Step(mode: Mode, input: seq<string>, s: Stream, t: Turn): Stream {
    var timer := if s.timer == Armed && t.expired then Fired else s.timer;
    if s.closed then s
    else if t.done && (timer != Fired || !t.preferTimer) then Flushed(s).(closed := true, timer := timer)
    else if timer == Fired then Flushed(s).(timer := Idle)
    else Read(mode, input, s.(timer := timer), t)
  }

  function Exec(mode: Mode, input: seq<string>, s: Stream, turns: seq<Turn>): Stream
    decreases |turns|
  {
    if turns == [] then s else Exec(mode, input, Step(mode, input, s, turns[0]), turns[1..])
  }

  // ----- rule scan -----

  datatype Dispatch = Dispatch(event: string, rule: nat)

  /** The first rule at or after `from` whose regex matches the event. */
  function FirstMatch(rules: seq<Rule>, event: string, from: nat): Option<nat>
    requires from <= |rules|
    decreases |rules| - from
  {
    if from == |rules| then None
    else if rules[from].matches(event) then Some(from)
    else FirstMatch(rules, event, from + 1)
  }

  /** The rule an event is dispatched under is the lowest-numbered one that matches, if any does. */
  lemma {:induction false} FirstMatchIsLowest(rules: seq<Rule>, event: string, from: nat)
    requires from <= |rules|
    ensures match FirstMatch(rules, event, from)
            case None => forall i :: from <= i < |rules| ==> !rules[i].matches(event)
            case Some(k) => from <= k < |rules| && rules[k].matches(event) &&
                            forall i :: from <= i < k ==> !rules[i].matches(event)
    decreases |rules| - from
  {
    if from < |rules| && !rules[from].matches(event) {
      FirstMatchIsLowest(rules, event, from + 1);
    }
  }

  /** Each event paired with its first matching rule, events without one left out. */
  function Dispatches(rules: seq<Rule>, events: seq<string>): seq<Dispatch> {
    if events == [] then []
    else
      var event := events[|events| - 1];
      var rule := FirstMatch(rules, event, 0);
      Dispatches(rules, events[..|events| - 1]) + if rule.Some? then [Dispatch(event, rule.value)] else []
  }

  // ----- the invariant: the loop is ahead of the batch by exactly one open segment -----

  ghost predicate Ahead(buffer: string, events: seq<string>, lines: seq<Line>, cut: bool) {
    if cut then buffer == "" && events == Events(lines)
    else
      var segs := Segments(lines);
      lines != [] && buffer == Render(segs[|segs| - 1]) && events == EventsOf(segs[..|segs| - 1])
  }

  /** What was read, where boundaries must lie, and when the timer is out of use. */
  ghost predicate Cuts(mode: Mode, input: seq<string>, lines: seq<Line>, timer: Timer, cut: bool) {
    && |lines| <= |input|
    && (forall i :: 0 <= i < |lines| ==> lines[i].text == input[i])
    && (lines == [] ==> cut)
    && match mode
       case SingleLine => cut && timer == Idle && forall i :: 0 <= i < |lines| ==> lines[i].cut
       case Multiline(_, _) => forall i :: 0 <= i < |lines| && StartsEvent(mode, lines[i].text) ==> lines[i].cut
  }

  ghost predicate Inv(mode: Mode, input: seq<string>, s: Stream) {
    && Ahead(s.buffer, s.events, s.lines, s.cut)
    && Cuts(mode, input, s.lines, s.timer, s.cut)
    && (s.closed ==> s.cut)
  }

  lemma FlushCatchesUp(s: Stream)
    requires Ahead(s.buffer, s.events, s.lines, s.cut)
    ensures Ahead("", Flushed(s).events, s.lines, true)
    ensures |s.events| <= |Flushed(s).events| <= |s.events| + (if s.buffer == "" then 0 else 1)
  {
    if !s.cut {
      var segs := Segments(s.lines);
      var last := segs[|segs| - 1];
      EventsOfConcat(segs[..|segs| - 1], [last]);
      assert segs == segs[..|segs| - 1] + [last];
      assert EventsOf([last]) == if Render(last) == "" then [] else [Render(last)];
    }
  }

  lemma AppendExtendsBatch(s: Stream, line: string)
    requires Ahead(s.buffer, s.events, s.lines, s.cut) && (s.lines == [] ==> s.cut)
    ensures var r := Appended(s, line); Ahead(r.buffer, r.events, r.lines, false)
  {
    var x := Line(line, s.cut);
    var before, segs := Segments(s.lines), Segments(s.lines + [x]);
    if s.lines == [] {
      assert s.lines + [x] == [x];
      assert segs[..0] == before;
    } else {
      SegmentsGrow(s.lines, x);
      assert segs[..|segs| - 1] == if s.cut then before else before[..|before| - 1];
    }
    if s.cut {
      assert segs[|segs| - 1] == [line];
      RenderGrows([], line);
      assert [] + [line] == [line];
    } else {
      RenderGrows(before[|before| - 1], line);
    }
  }

  lemma SingleCutsGrow(input: seq<string>, lines: seq<Line>)
    requires Cuts(SingleLine, input, lines, Idle, true) && |lines| < |input|
    ensures Cuts(SingleLine, input, lines + [Line(input[|lines|], true)], Idle, true)
  {
  }

  lemma SingleTakeKeepsInv(input: seq<string>, s: Stream)
    requires Inv(SingleLine, input, s) && |s.lines| < |input|
    ensures Inv(SingleLine, input, Flushed(Appended(s, input[|s.lines|])))
  {
    var r := Appended(s, input[|s.lines|]);
    AppendExtendsBatch(s, input[|s.lines|]);
    FlushCatchesUp(r);
    SingleCutsGrow(input, s.lines);
    assert Flushed(r).lines == r.lines && Flushed(r).timer == Idle;
  }

  lemma CutsGrow(mode: Mode, input: seq<string>, lines: seq<Line>, timer: Timer, cut: bool)
    requires mode.Multiline? && Cuts(mode, input, lines, timer, cut) && |lines| < |input|
    requires StartsEvent(mode, input[|lines|]) ==> cut
    ensures Cuts(mode, input, lines + [Line(input[|lines|], cut)], Armed, false)
  {
  }

  lemma AppendKeepsInv(mode: Mode, input: seq<string>, s: Stream)
    requires mode.Multiline? && Inv(mode, input, s) && !s.closed && |s.lines| < |input|
    requires StartsEvent(mode, input[|s.lines|]) ==> s.cut
    ensures Inv(mode, input, Appended(s, input[|s.lines|]).(timer := Armed))
  {
    AppendExtendsBatch(s, input[|s.lines|]);
    CutsGrow(mode, input, s.lines, s.timer, s.cut);
  }

  lemma TakeKeepsInv(mode: Mode, input: seq<string>, s: Stream)
    requires Inv(mode, input, s) && !s.closed && |s.lines| < |input|
    ensures Inv(mode, input, Taken(mode, s, input[|s.lines|]))
  {
    if mode.SingleLine? {
      SingleTakeKeepsInv(input, s);
    } else {
      FlushCatchesUp(s);
      AppendKeepsInv(mode, input, if StartsEvent(mode, input[|s.lines|]) then Flushed(s) else s);
    }
  }

  lemma StepKeepsInv(mode: Mode, input: seq<string>, s: Stream, t: Turn)
    requires Inv(mode, input, s)
    ensures Inv(mode, input, Step(mode, input, s, t))
  {
    var timer := if s.timer == Armed && t.expired then Fired else s.timer;
    FlushCatchesUp(s);
    if !s.closed && |s.lines| < |input| {
      TakeKeepsInv(mode, input, s.(timer := if timer == Armed && t.expiredInScan then Fired else timer));
    }
  }

  lemma {:induction false} ExecKeepsInv(mode: Mode, input: seq<string>, s: Stream, turns: seq<Turn>)
    requires Inv(mode, input, s)
    ensures Inv(mode, input, Exec(mode, input, s, turns))
    decreases |turns|
  {
    if turns != [] {
      StepKeepsInv(mode, input, s, turns[0]);
      ExecKeepsInv(mode, input, Step(mode, input, s, turns[0]), turns[1..]);
    }
  }

  // ----- where the boundaries lie -----

  /** An armed timer has run out when the select looks, and the select takes its case. */
  predicate TimesOut(t: Turn) {
    t.expired && (!t.done || t.preferTimer)
  }

  /** Some pass of an open stream found the timer run out when exactly i lines had been read. */
  predicate TimedOutAt(mode: Mode, input: seq<string>, s: Stream, turns: seq<Turn>, i: nat)
    decreases |turns|
  {
    turns != [] && !s.closed &&
    ((|s.lines| == i && TimesOut(turns[0])) || TimedOutAt(mode, input, Step(mode, input, s, turns[0]), turns[1..], i))
  }

  /** In an open multiline stream the timer is armed exactly while an event is under assembly. */
  predicate TimerFollowsCut(s: Stream) {
    s.closed || (s.timer == if s.cut then Idle else Armed)
  }

  /** What one pass does to the lines: nothing, or one more, cut off by a flush before it or by its own start. */
  lemma PassReads(mode: Mode, input: seq<string>, s: Stream, t: Turn)
    requires mode.Multiline? && TimerFollowsCut(s)
    ensures var r := Step(mode, input, s, t);
            && TimerFollowsCut(r)
            && (|r.lines| == |s.lines| ==> r.lines == s.lines)
            && (|r.lines| == |s.lines| && !r.closed ==> TimesOut(t) && r.cut)
            && (|r.lines| != |s.lines| ==>
                  && |s.lines| < |input| && !s.closed && !r.cut
                  && r.lines == s.lines + [Line(input[|s.lines|], s.cut || StartsEvent(mode, input[|s.lines|]))]
                  && (TimesOut(t) ==> s.cut))
  {
  }

  lemma {:induction false} TimeoutsComeLater(mode: Mode, input: seq<string>, s: Stream, turns: seq<Turn>, i: nat)
    requires mode.Multiline? && TimerFollowsCut(s) && i < |s.lines|
    ensures !TimedOutAt(mode, input, s, turns, i)
    decreases |turns|
  {
    if turns != [] {
      PassReads(mode, input, s, turns[0]);
      TimeoutsComeLater(mode, input, Step(mode, input, s, turns[0]), turns[1..], i);
    }
  }

  /** The boundaries a stream adds from some point on; the next line's may have been decided already. */
  lemma {:induction false} BoundariesFrom(mode: Mode, input: seq<string>, s: Stream, turns: seq<Turn>)
    requires mode.Multiline? && TimerFollowsCut(s) && |s.lines| <= |input| && (s.lines == [] ==> s.cut)
    ensures var r := Exec(mode, input, s, turns);
            && s.lines <= r.lines && |r.lines| <= |input|
            && forall i :: |s.lines| <= i < |r.lines| ==>
                 (r.lines[i].cut <==> || StartsEvent(mode, input[i])
                                      || (i > 0 && TimedOutAt(mode, input, s, turns, i))
                                      || (i == |s.lines| && s.cut))
    decreases |turns|
  {
    if turns != [] {
      var s', rest := Step(mode, input, s, turns[0]), turns[1..];
      PassReads(mode, input, s, turns[0]);
      BoundariesFrom(mode, input, s', rest);
      var r := Exec(mode, input, s', rest);
      if s'.closed {
        ClosedStays(mode, input, s', rest);
      } else if |s'.lines| == |s.lines| {
        assert forall i :: i > |s.lines| ==> TimedOutAt(mode, input, s, turns, i) == TimedOutAt(mode, input, s', rest, i);
      } else {
        TimeoutsComeLater(mode, input, s', rest, |s.lines|);
        assert r.lines[|s.lines|] == s'.lines[|s.lines|];
      }
    }
  }

  lemma {:induction false} NoExpiryNoTimeout(mode: Mode, input: seq<string>, s: Stream, turns: seq<Turn>, i: nat)
    requires forall j :: 0 <= j < |turns| ==> !turns[j].expired
    ensures !TimedOutAt(mode, input, s, turns, i)
    decreases |turns|
  {
    if turns != [] {
      NoExpiryNoTimeout(mode, input, Step(mode, input, s, turns[0]), turns[1..], i);
    }
  }

  /**
   Timeouts only add cuts. Under every schedule a line is cut off from the one before exactly if it
   matches the pattern (with negate: does not match it) or the timer had run out when a pass looked, all lines before it and no more being
   read. So without such an expiry the boundaries are the start lines.
   */
  lemma OnlyTimeoutsAddCuts(mode: Mode, input: seq<string>, turns: seq<Turn>)
    requires mode.Multiline?
    ensures var r := Exec(mode, input, INITIAL, turns);
            && |r.lines| <= |input|
            && (r.lines != [] ==> r.lines[0].cut)
            && (forall i :: 0 < i < |r.lines| ==>
                  (r.lines[i].cut <==>
                     mode.matches(input[i]) != mode.negate || TimedOutAt(mode, input, INITIAL, turns, i)))
            && ((forall j :: 0 <= j < |turns| ==> !turns[j].expired) ==>
                  forall i :: 0 < i < |r.lines| ==> (r.lines[i].cut <==> mode.matches(input[i]) != mode.negate))
  {
    BoundariesFrom(mode, input, INITIAL, turns);
    if forall j :: 0 <= j < |turns| ==> !turns[j].expired {
      forall i: nat ensures !TimedOutAt(mode, input, INITIAL, turns, i) {
        NoExpiryNoTimeout(mode, input, INITIAL, turns, i);
      }
    }
  }

  lemma {:induction false} TimerFollowsInRun(mode: Mode, input: seq<string>, turns: seq<Turn>)
    ensures TimerFollowsCut(Exec(mode, input, INITIAL, turns))
  {
    TimerFollowsFrom(mode, input, INITIAL, turns);
  }

  lemma {:induction false} TimerFollowsFrom(mode: Mode, input: seq<string>, s: Stream, turns: seq<Turn>)
    requires TimerFollowsCut(s) && (mode.SingleLine? ==> s.cut)
    ensures TimerFollowsCut(Exec(mode, input, s, turns))
    decreases |turns|
  {
    if turns != [] {
      TimerFollowsFrom(mode, input, Step(mode, input, s, turns[0]), turns[1..]);
    }
  }

  /**
   What a pass of a running stream comes to. It ends the stream exactly if the context is done, unless the
   select prefers an overdue flush, or if nothing is ready and the scanner fails or is at the end. It reads
   exactly one line if nothing is ready and there is one. Otherwise it flushes what is overdue, and goes on.
   */
  lemma PassOutcome(mode: Mode, input: seq<string>, turns: seq<Turn>, t: Turn)
    requires !Exec(mode, input, INITIAL, turns).closed
    ensures var s := Exec(mode, input, INITIAL, turns);
            var r, overdue := Step(mode, input, s, t), mode.Multiline? && !s.cut && t.expired;
            var idle := !t.done && !overdue;
            && (r.closed <==> || (t.done && !(overdue && t.preferTimer))
                              || (idle && (t.scanFails || |s.lines| == |input|)))
            && (|r.lines| == |s.lines| + 1 <==> idle && !t.scanFails && |s.lines| < |input|)
            && (|r.lines| != |s.lines| + 1 ==>
                  && r.lines == s.lines && r.buffer == ""
                  && r.events == if s.buffer == "" then s.events else s.events + [s.buffer])
  {
    ExecKeepsInv(mode, input, INITIAL, turns);
    TimerFollowsInRun(mode, input, turns);
  }

  // ----- main results -----

  /**
   The lines of the batch: the input, cut before each line that matches the pattern (with negate: each that
   does not), and wherever the timer ran out; before every line if there is no pattern.
   */
  ghost predicate IsCutAt(mode: Mode, input: seq<string>, turns: seq<Turn>, lines: seq<Line>) {
    && |lines| <= |input| && Texts(lines) == input[..|lines|]
    && (lines != [] ==> lines[0].cut)
    && forall i :: 0 < i < |lines| ==>
         (lines[i].cut <==>
            || mode.SingleLine?
            || mode.matches(input[i]) != mode.negate
            || TimedOutAt(mode, input, INITIAL, turns, i))
  }

  /**
   The assembler refines the batch. Under every schedule, a stream that has ended has flushed exactly
   the events of the lines it read: a prefix of the input, all of it unless the context was cancelled
   or the scanner failed, cut before every start line, where the timer ran out, and nowhere else; in
   single-line mode, before every line.
   */
  lemma AssemblerRefinesBatch(mode: Mode, input: seq<string>, turns: seq<Turn>)
    ensures var s := Exec(mode, input, INITIAL, turns);
            && IsCutAt(mode, input, turns, s.lines)
            && (s.closed ==> s.events == Events(s.lines) && s.buffer == "")
            && (s.closed && (forall i :: 0 <= i < |turns| ==> !turns[i].done && !turns[i].scanFails) ==>
                  Texts(s.lines) == input)
            && (mode.SingleLine? ==> s.events == NonEmpty(input[..|s.lines|]))
  {
    ExecKeepsInv(mode, input, INITIAL, turns);
    var s := Exec(mode, input, INITIAL, turns);
    assert Texts(s.lines) == input[..|s.lines|];
    if forall i :: 0 <= i < |turns| ==> !turns[i].done && !turns[i].scanFails {
      UndisturbedReadsAll(mode, input, INITIAL, turns);
    }
    if mode.SingleLine? {
      EveryLineItsOwnEvent(s.lines);
    } else {
      OnlyTimeoutsAddCuts(mode, input, turns);
    }
  }

  lemma {:induction false} UndisturbedReadsAll(mode: Mode, input: seq<string>, s: Stream, turns: seq<Turn>)
    requires Inv(mode, input, s) && (s.closed ==> |s.lines| == |input|)
    requires forall i :: 0 <= i < |turns| ==> !turns[i].done && !turns[i].scanFails
    ensures Exec(mode, input, s, turns).closed ==> |Exec(mode, input, s, turns).lines| == |input|
    decreases |turns|
  {
    if turns != [] {
      StepKeepsInv(mode, input, s, turns[0]);
      UndisturbedReadsAll(mode, input, Step(mode, input, s, turns[0]), turns[1..]);
    }
  }

  /** Conservation: no schedule loses, duplicates or reorders a nonempty line. */
  lemma StreamConservesLines(mode: Mode, input: seq<string>, turns: seq<Turn>)
    requires forall i :: 0 <= i < |input| ==> HasNoNewline(input[i])
    ensures var s := Exec(mode, input, INITIAL, turns);
            s.closed ==>
              && |s.lines| <= |input|
              && Flatten(SplitAll(s.events)) == Survivors(Segments(s.lines))
              && NonEmpty(Flatten(SplitAll(s.events))) == NonEmpty(input[..|s.lines|])
  {
    AssemblerRefinesBatch(mode, input, turns);
    var s := Exec(mode, input, INITIAL, turns);
    assert forall p :: p in Texts(s.lines) ==> p in input;
    EventsConserveLines(s.lines);
  }

  lemma PassBounds(mode: Mode, input: seq<string>, s: Stream, t: Turn)
    requires Inv(mode, input, s)
    ensures var r := Step(mode, input, s, t);
            && |r.lines| <= |s.lines| + 1
            && |r.events| <= |s.events| + 1
            && (t.done ==> r.lines == s.lines)
            && (t.done && !r.closed ==> r.buffer == "" && r.timer == Idle)
            && (t.done && s.timer == Idle ==> r.closed)
            && (s.buffer == "" && t.done ==> r.events == s.events)
            && (r.closed ==> r.buffer == "")
  {
    FlushCatchesUp(s);
    StepKeepsInv(mode, input, s, t);
  }

  /**
   A stream whose context is cancelled, caught at any point of its loop, reads at most one more line,
   flushes at most two more events and has ended after two further passes.
   */
  lemma CancelledStreamStops(mode: Mode, input: seq<string>, s: Stream, t: Turn, t1: Turn, t2: Turn)
    requires Inv(mode, input, s)
    requires t1.done && t2.done
    ensures var r := Exec(mode, input, s, [t, t1, t2]);
            r.closed && r.buffer == "" && |r.lines| <= |s.lines| + 1 && |r.events| <= |s.events| + 2
  {
    var a := Step(mode, input, s, t);
    var b := Step(mode, input, a, t1);
    PassBounds(mode, input, s, t);
    StepKeepsInv(mode, input, s, t);
    PassBounds(mode, input, a, t1);
    StepKeepsInv(mode, input, a, t1);
    PassBounds(mode, input, b, t2);
    ThreePasses(mode, input, s, t, t1, t2);
  }

  lemma ThreePasses(mode: Mode, input: seq<string>, s: Stream, t: Turn, t1: Turn, t2: Turn)
    ensures Exec(mode, input, s, [t, t1, t2]) ==
            Step(mode, input, Step(mode, input, Step(mode, input, s, t), t1), t2)
  {
    var a := Step(mode, input, s, t);
    var b := Step(mode, input, a, t1);
    assert [t, t1, t2][1..] == [t1, t2] && [t1, t2][1..] == [t2] && [t2][1..] == [];
    assert Exec(mode, input, a, [t1, t2]) == Exec(mode, input, b, [t2]);
    assert Exec(mode, input, b, [t2]) == Exec(mode, input, Step(mode, input, b, t2), []);
  }

  /** Two schedules that differ only in timers that run out while the reader is blocked. */
  ghost predicate SameOutsideScan(a: seq<Turn>, b: seq<Turn>) {
    |a| == |b| && forall i :: 0 <= i < |a| ==> a[i].(expiredInScan := b[i].expiredInScan) == b[i]
  }

  /** The same up to the timer, which no longer matters once a stream has ended. */
  predicate SameButTimerOfClosed(r: Stream, s: Stream) {
    r.(timer := s.timer) == s && (r.timer == s.timer || s.closed)
  }

  lemma PassIgnoresExpiryDuringRead(mode: Mode, input: seq<string>, r: Stream, s: Stream, a: Turn, b: Turn)
    requires Inv(mode, input, s) && SameButTimerOfClosed(r, s)
    requires a.(expiredInScan := b.expiredInScan) == b
    ensures SameButTimerOfClosed(Step(mode, input, r, a), Step(mode, input, s, b))
  {
  }

  /**
   The flush timer cannot fire into a blocked read: a timer that runs out while the scanner waits is
   armed afresh, its firing discarded, before the select looks again. So such expiries never change
   what is flushed, and the last event of a quiet stream waits in the buffer for the next line.
   */
  lemma {:induction false} ExpiryDuringReadIsInvisible(
    mode: Mode, input: seq<string>, r: Stream, s: Stream, a: seq<Turn>, b: seq<Turn>)
    requires Inv(mode, input, s) && SameButTimerOfClosed(r, s)
    requires SameOutsideScan(a, b)
    ensures SameButTimerOfClosed(Exec(mode, input, r, a), Exec(mode, input, s, b))
    decreases |a|
  {
    if a != [] {
      assert a[0].(expiredInScan := b[0].expiredInScan) == b[0];
      StepKeepsInv(mode, input, s, b[0]);
      PassIgnoresExpiryDuringRead(mode, input, r, s, a[0], b[0]);
      ExpiryDuringReadIsInvisible(mode, input,
        Step(mode, input, r, a[0]), Step(mode, input, s, b[0]), a[1..], b[1..]);
    }
  }

  // ----- the loop itself -----

  class PodLogStream {
    const mode: Mode
    const rules: seq<Rule>
    const input: seq<string>   // what the pod's log yields, line by line

    var position: nat
    var buffer: string
    var timer: Timer
    var closed: bool
    var dispatched: seq<Dispatch>
    ghost var events: seq<string>
    ghost var lines: seq<Line>
    ghost var cut: bool

    ghost function View(): Stream
      reads this
    {
      Stream(buffer, timer, closed, events, lines, cut)
    }

    ghost predicate Valid()
      reads this
    {
      && Inv(mode, input, View())
      && position == |lines|
      && dispatched == Dispatches(rules, events)
    }

    constructor (mode: Mode, rules: seq<Rule>, input: seq<string>)
      ensures Valid() && View() == INITIAL
      ensures this.mode == mode && this.rules == rules && this.input == input
    {
      this.mode, this.rules, this.input := mode, rules, input;
      position, buffer, timer, closed, dispatched := 0, "", Idle, false, [];
      events, lines, cut := [], [], true;
    }

    /** Scans the rules in order and launches one dispatch, for the first that matches. */
    method ProcessBuffer()
      requires dispatched == Dispatches(rules, events)
      modifies this`buffer, this`dispatched, this`events, this`cut
      ensures View() == Flushed(old(View()))
      ensures dispatched == Dispatches(rules, events)
    {
      if |buffer| > 0 {
        var event := buffer;
        ghost var flushed := events + [event];
        assert flushed[..|events|] == events;
        for i := 0 to |rules|
          invariant dispatched == old(dispatched)
          invariant FirstMatch(rules, event, i) == FirstMatch(rules, event, 0)
        {
          if rules[i].matches(event) {
            dispatched := dispatched + [Dispatch(event, i)];
            break;
          }
        }
        buffer := "";
        events := flushed;
      }
      cut := true;
    }

    /** The default case of the select. */
    method Scan(t: Turn)
      requires position == |lines| && dispatched == Dispatches(rules, events)
      modifies this
      ensures View() == Read(mode, input, old(View()), t)
      ensures position == |lines| && dispatched == Dispatches(rules, events)
    {
      if timer == Armed && t.expiredInScan {
        timer := Fired;
      }
      ghost var s := View();
      if t.scanFails || position >= |input| {
        ProcessBuffer();
        closed := true;
        return;
      }
      var line := input[position];
      position := position + 1;
      Take(line);
      assert View() == Taken(mode, s, line);
    }

    method Take(line: string)
      requires dispatched == Dispatches(rules, events)
      modifies this`buffer, this`dispatched, this`events, this`lines, this`cut, this`timer
      ensures View() == Taken(mode, old(View()), line)
      ensures dispatched == Dispatches(rules, events)
    {
      if mode.SingleLine? {
        Append(line);
        ProcessBuffer();
        return;
      }
      var isNewEvent := mode.matches(line) != mode.negate;
      if isNewEvent {
        ProcessBuffer();
      }
      Append(line);
      timer := Armed;
    }

    /** Adds a line to the event under assembly. */
    method Append(line: string)
      modifies this`buffer, this`lines, this`cut
      ensures View() == Appended(old(View()), line)
    {
      if |buffer| > 0 {
        buffer := buffer + "\n";
      } else {
        assert buffer + line == line;
      }
      buffer := buffer + line;
      lines, cut := lines + [Line(line, cut)], false;
    }

    /** One pass of the loop. */
    method Pass(t: Turn)
      requires Valid() && !closed
      modifies this
      ensures Valid() && View() == Step(mode, input, old(View()), t)
    {
      StepKeepsInv(mode, input, View(), t);
      Select(t);
    }

    /** The select statement and the case it picks. */
    method Select(t: Turn)
      requires position == |lines| && dispatched == Dispatches(rules, events) && !closed
      modifies this
      ensures View() == Step(mode, input, old(View()), t)
      ensures position == |lines| && dispatched == Dispatches(rules, events)
    {
      if timer == Armed && t.expired {
        timer := Fired;
      }
      if t.done && (timer != Fired || !t.preferTimer) {
        ProcessBuffer();
        closed := true;
      } else if timer == Fired {
        timer := Idle;
        ProcessBuffer();
      } else {
        Scan(t);
      }
    }

    /** The loop, until the stream ends or the schedule does. */
    method Run(turns: seq<Turn>)
      requires Valid() && View() == INITIAL
      modifies this
      ensures Valid() && View() == Exec(mode, input, INITIAL, turns)
      ensures IsCutAt(mode, input, turns, lines) && |lines| == position
      ensures closed ==> dispatched == Dispatches(rules, Events(lines))
    {
      var i := 0;
      while i < |turns| && !closed
        invariant 0 <= i <= |turns|
        invariant Valid()
        invariant Exec(mode, input, View(), turns[i..]) == Exec(mode, input, INITIAL, turns)
      {
        Pass(turns[i]);
        assert turns[i..][1..] == turns[i + 1..];
        i := i + 1;
      }
      ClosedStays(mode, input, View(), turns[i..]);
      AssemblerRefinesBatch(mode, input, turns);
    }
  }

  lemma {:induction false} ClosedStays(mode: Mode, input: seq<string>, s: Stream, turns: seq<Turn>)
    requires s.closed || turns == []
    ensures Exec(mode, input, s, turns) == s
    decreases |turns|
  {
    if turns != [] {
      ClosedStays(mode, input, s, turns[1..]);
    }
  }
}
