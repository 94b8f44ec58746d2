/**
 The batch meaning of multiline assembly: how a sequence of log lines, with marked cut points, becomes
 a sequence of events. Nothing here mentions a buffer or a timer; LogStream is proved against it.
 */
module EventBatch {
  /** A line as it was read. `cut` says that an event boundary lies just before it. */
  datatype Line = Line(text: string, cut: bool)

  function Texts(lines: seq<Line>): (r: seq<string>)
    ensures |r| == |lines|
    ensures forall i :: 0 <= i < |lines| ==> r[i] == lines[i].text
  {
    if lines == [] then [] else [lines[0].text] + Texts(lines[1..])
  }

  /** A line put in front of segments: it joins the first one unless a boundary lies between. */
  function Prepend(t: string, cut: bool, s: seq<seq<string>>): (r: seq<seq<string>>)
    requires s != []
    ensures r != []
  {
    if cut then [[t]] + s else [[t] + s[0]] + s[1..]
  }

  /** The lines grouped into the stretches between boundaries. */
  function Segments(lines: seq<Line>): (r: seq<seq<string>>)
    ensures r == [] <==> lines == []
  {
    if lines == [] then []
    else if |lines| == 1 then [[lines[0].text]]
    else Prepend(lines[0].text, lines[1].cut, Segments(lines[1..]))
  }

  /** Empty lines at the head of a segment carry nothing. */
  function DropLeadingEmpty(seg: seq<string>): seq<string> {
    if seg != [] && seg[0] == "" then DropLeadingEmpty(seg[1..]) else seg
  }

  function Join(parts: seq<string>): string {
    if parts == [] then ""
    else if |parts| == 1 then parts[0]
    else parts[0] + "\n" + Join(parts[1..])
  }

  function Render(seg: seq<string>): string {
    Join(DropLeadingEmpty(seg))
  }

  function IfNonEmpty(text: string): seq<string> {
    if text == "" then [] else [text]
  }

  /** The nonempty renderings, in order. */
  function EventsOf(segments: seq<seq<string>>): seq<string> {
    if segments == [] then []
    else IfNonEmpty(Render(segments[0])) + EventsOf(segments[1..])
  }

  function Events(lines: seq<Line>): seq<string> {
    EventsOf(Segments(lines))
  }

  // ----- growing a batch by one line -----

  function Grow(s: seq<seq<string>>, x: Line): seq<seq<string>>
    requires s != []
  {
    if x.cut then s + [[x.text]] else s[..|s| - 1] + [s[|s| - 1] + [x.text]]
  }

  lemma {:induction false} SegmentsGrow(lines: seq<Line>, x: Line)
    requires lines != []
    ensures Segments(lines) != []
    ensures Segments(lines + [x]) == Grow(Segments(lines), x)
  {
    var all, rest := lines + [x], lines[1..];
    assert all[1..] == rest + [x] && all[0] == lines[0];
    if rest == [] {
      assert all[1..] == [x];
      assert Segments([x]) == [[x.text]];
    } else {
      SegmentsGrow(rest, x);
      assert all[1] == lines[1];
      PrependAgrees(lines[0].text, lines[1].cut, Segments(rest), x);
    }
  }

  lemma PrependAgrees(t: string, cut: bool, s: seq<seq<string>>, x: Line)
    requires s != []
    ensures Prepend(t, cut, Grow(s, x)) == Grow(Prepend(t, cut, s), x)
  {
    if !cut && !x.cut && |s| == 1 {
      assert [t] + (s[0] + [x.text]) == ([t] + s[0]) + [x.text];
    }
  }

  lemma ConcatIsAssociative<T>(a: seq<T>, b: seq<T>, c: seq<T>)
    ensures a + (b + c) == (a + b) + c
  {
  }

  lemma {:induction false} EventsOfConcat(a: seq<seq<string>>, b: seq<seq<string>>)
    ensures EventsOf(a + b) == EventsOf(a) + EventsOf(b)
  {
    if a == [] {
      assert a + b == b;
    } else {
      assert (a + b)[1..] == a[1..] + b && (a + b)[0] == a[0];
      var head := IfNonEmpty(Render(a[0]));
      EventsOfConcat(a[1..], b);
      ConcatIsAssociative(head, EventsOf(a[1..]), EventsOf(b));
    }
  }

  lemma {:induction false} JoinGrows(parts: seq<string>, t: string)
    ensures parts != [] ==> Join(parts + [t]) == Join(parts) + "\n" + t
  {
    if |parts| > 1 {
      JoinGrows(parts[1..], t);
      assert (parts + [t])[1..] == parts[1..] + [t];
    }
  }

  lemma {:induction false} DropGrows(seg: seq<string>, t: string)
    ensures DropLeadingEmpty(seg) == [] ==> DropLeadingEmpty(seg + [t]) == DropLeadingEmpty([t])
    ensures DropLeadingEmpty(seg) != [] ==> DropLeadingEmpty(seg + [t]) == DropLeadingEmpty(seg) + [t]
    ensures DropLeadingEmpty(seg) != [] ==> DropLeadingEmpty(seg)[0] != ""
  {
    if seg == [] {
      assert seg + [t] == [t];
    } else if seg[0] == "" {
      DropGrows(seg[1..], t);
      assert (seg + [t])[1..] == seg[1..] + [t];
    }
  }

  /** Rendering is what appending to a buffer computes, a separator going in only after content. */
  lemma RenderGrows(seg: seq<string>, t: string)
    ensures Render(seg + [t]) == if Render(seg) == "" then t else Render(seg) + "\n" + t
  {
    DropGrows(seg, t);
    JoinGrows(DropLeadingEmpty(seg), t);
  }

  // ----- the round trip -----

  predicate HasNoNewline(s: string) {
    '\n' !in s
  }

  /** Cutting a text at its newlines. */
  function Split(s: string): seq<string> {
    if s == "" then [""]
    else if s[0] == '\n' then [""] + Split(s[1..])
    else
      var rest := Split(s[1..]);
      if rest == [] then [[s[0]]] else [[s[0]] + rest[0]] + rest[1..]
  }

  function Flatten(parts: seq<seq<string>>): seq<string> {
    if parts == [] then [] else parts[0] + Flatten(parts[1..])
  }

  function SplitAll(events: seq<string>): seq<seq<string>> {
    if events == [] then [] else [Split(events[0])] + SplitAll(events[1..])
  }

  /** The lines that made it into some event, in order. */
  function Survivors(segments: seq<seq<string>>): seq<string> {
    if segments == [] then [] else DropLeadingEmpty(segments[0]) + Survivors(segments[1..])
  }

  function NonEmpty(texts: seq<string>): seq<string> {
    if texts == [] then [] else IfNonEmpty(texts[0]) + NonEmpty(texts[1..])
  }

  lemma {:induction false} SplitPrefix(line: string, s: string)
    requires HasNoNewline(line)
    ensures Split(line) == [line]
    ensures Split(line + "\n" + s) == [line] + Split(s)
  {
    var whole := line + "\n" + s;
    if line == "" {
      assert whole == ['\n'] + s;
      assert whole[1..] == s;
    } else {
      SplitPrefix(line[1..], s);
      assert whole[1..] == line[1..] + "\n" + s;
      assert [line[0]] + line[1..] == line;
      assert Split(whole) == [[line[0]] + line[1..]] + Split(s);
    }
  }

  lemma {:induction false} SplitJoin(parts: seq<string>)
    requires parts != []
    requires forall p :: p in parts ==> HasNoNewline(p)
    ensures Split(Join(parts)) == parts
  {
    if |parts| == 1 {
      SplitPrefix(parts[0], "");
    } else {
      SplitJoin(parts[1..]);
      SplitPrefix(parts[0], Join(parts[1..]));
    }
  }

  lemma {:induction false} DropKeepsLines(seg: seq<string>)
    ensures forall p :: p in DropLeadingEmpty(seg) ==> p in seg
    ensures NonEmpty(DropLeadingEmpty(seg)) == NonEmpty(seg)
    ensures Render(seg) == "" <==> DropLeadingEmpty(seg) == []
  {
    DropGrows(seg, "");
    if seg != [] && seg[0] == "" {
      DropKeepsLines(seg[1..]);
    } else if |seg| > 1 {
      assert |Join(seg)| >= |seg[0]|;
    }
  }

  /** Round trip: cutting the events at their newlines gives back exactly the surviving lines. */
  lemma {:induction false} EventsSplitBack(segments: seq<seq<string>>)
    requires forall seg, p :: seg in segments && p in seg ==> HasNoNewline(p)
    ensures Flatten(SplitAll(EventsOf(segments))) == Survivors(segments)
  {
    if segments != [] {
      EventsSplitBack(segments[1..]);
      var seg := segments[0];
      DropKeepsLines(seg);
      if Render(seg) != "" {
        SplitJoin(DropLeadingEmpty(seg));
        var events := [Render(seg)] + EventsOf(segments[1..]);
        assert events[1..] == EventsOf(segments[1..]);
        assert SplitAll(events) == [Split(Render(seg))] + SplitAll(EventsOf(segments[1..]));
      } else {
        assert EventsOf(segments) == EventsOf(segments[1..]);
      }
    }
  }

  lemma {:induction false} NonEmptyConcat(a: seq<string>, b: seq<string>)
    ensures NonEmpty(a + b) == NonEmpty(a) + NonEmpty(b)
  {
    if a == [] {
      assert a + b == b;
    } else {
      assert (a + b)[1..] == a[1..] + b && (a + b)[0] == a[0];
      calc {
        NonEmpty(a + b);
        IfNonEmpty(a[0]) + NonEmpty(a[1..] + b);
        { NonEmptyConcat(a[1..], b); }
        IfNonEmpty(a[0]) + (NonEmpty(a[1..]) + NonEmpty(b));
        { ConcatIsAssociative(IfNonEmpty(a[0]), NonEmpty(a[1..]), NonEmpty(b)); }
        NonEmpty(a) + NonEmpty(b);
      }
    }
  }

  lemma {:induction false} SurvivorsKeepNonEmpty(segments: seq<seq<string>>)
    ensures NonEmpty(Survivors(segments)) == NonEmpty(Flatten(segments))
  {
    if segments != [] {
      SurvivorsKeepNonEmpty(segments[1..]);
      DropKeepsLines(segments[0]);
      NonEmptyConcat(DropLeadingEmpty(segments[0]), Survivors(segments[1..]));
      NonEmptyConcat(segments[0], Flatten(segments[1..]));
    }
  }

  lemma FlattenPrepend(t: string, cut: bool, s: seq<seq<string>>)
    requires s != []
    ensures Flatten(Prepend(t, cut, s)) == [t] + Flatten(s)
  {
    if cut {
      assert ([[t]] + s)[1..] == s;
    } else {
      assert Prepend(t, cut, s)[1..] == s[1..];
      assert [t] + (s[0] + Flatten(s[1..])) == ([t] + s[0]) + Flatten(s[1..]);
    }
  }

  lemma {:induction false} FlattenHasAll(segments: seq<seq<string>>)
    ensures forall seg, p :: seg in segments && p in seg ==> p in Flatten(segments)
  {
    if segments != [] {
      FlattenHasAll(segments[1..]);
      assert forall seg :: seg in segments ==> seg == segments[0] || seg in segments[1..];
    }
  }

  lemma {:induction false} SegmentsPartition(lines: seq<Line>)
    ensures Flatten(Segments(lines)) == Texts(lines)
  {
    if |lines| == 1 {
      assert Texts(lines) == [lines[0].text] + Texts([]);
      assert Flatten([[lines[0].text]]) == [lines[0].text] + Flatten([]);
    } else if lines != [] {
      SegmentsPartition(lines[1..]);
      FlattenPrepend(lines[0].text, lines[1].cut, Segments(lines[1..]));
    }
  }

  /**
   Conservation. However the cut points fall, cutting the events at newlines yields the lines read
   except some empty ones, and every nonempty line is there, once, in order.
   */
  lemma EventsConserveLines(lines: seq<Line>)
    requires forall p :: p in Texts(lines) ==> HasNoNewline(p)
    ensures Flatten(SplitAll(Events(lines))) == Survivors(Segments(lines))
    ensures NonEmpty(Flatten(SplitAll(Events(lines)))) == NonEmpty(Texts(lines))
  {
    SegmentsPartition(lines);
    FlattenHasAll(Segments(lines));
    EventsSplitBack(Segments(lines));
    SurvivorsKeepNonEmpty(Segments(lines));
  }

  /** With a boundary before every line, the events are the nonempty lines. */
  lemma {:induction false} EveryLineItsOwnEvent(lines: seq<Line>)
    requires forall i :: 0 <= i < |lines| ==> lines[i].cut
    ensures Events(lines) == NonEmpty(Texts(lines))
  {
    if lines != [] {
      EveryLineItsOwnEvent(lines[1..]);
      var rest := if |lines| == 1 then [] else Segments(lines[1..]);
      assert Segments(lines) == [[lines[0].text]] + rest;
      assert Segments(lines)[1..] == rest;
      assert EventsOf(rest) == Events(lines[1..]);
      assert Texts(lines)[1..] == Texts(lines[1..]);
      DropKeepsLines([lines[0].text]);
    }
  }
}
