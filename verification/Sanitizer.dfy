/**
 sanitizeForKubernetes (internal/controller/monitorpod_controller.go:370-383): lowercase, replace each run
 of other characters by one hyphen, trim hyphens, cut at 63. Lowercasing is any per-character map that
 leaves the permitted characters alone.
 */
module Sanitizer {

  const MAX_LENGTH := 63

  predicate Alphanumeric(c: char) {
    'a' <= c <= 'z' || '0' <= c <= '9'
  }

  predicate Permitted(c: char) {
    Alphanumeric(c) || c == '-'
  }

  ghost predicate KeepsPermitted(lower: char -> char) {
    forall c :: Permitted(c) ==> lower(c) == c
  }

  function Lowered(s: string, lower: char -> char): (r: string)
    ensures |r| == |s| && forall i :: 0 <= i < |s| ==> r[i] == lower(s[i])
  {
    seq(|s|, i requires 0 <= i < |s| => lower(s[i]))
  }

  /** What one character contributes to the replacement. */
  function Image(c: char, inRun: bool): string {
    if Permitted(c) then [c] else if inRun then "" else "-"
  }

  /** Replaces every maximal run of characters that are not permitted by one hyphen. */
  function Replaced(s: string, inRun: bool): string {
    if s == "" then ""
    else Image(s[0], inRun) + Replaced(s[1..], !Permitted(s[0]))
  }

  function TrimLeft(s: string): string {
    if s != "" && s[0] == '-' then TrimLeft(s[1..]) else s
  }

  function TrimRight(s: string): string {
    if s != "" && s[|s| - 1] == '-' then TrimRight(s[..|s| - 1]) else s
  }

  function Trimmed(s: string): string {
    TrimRight(TrimLeft(s))
  }

  function Truncated(s: string): string {
    if |s| > MAX_LENGTH then s[..MAX_LENGTH] else s
  }

  function Sanitize(name: string, lower: char -> char): string {
    Truncated(Trimmed(Replaced(Lowered(name, lower), false)))
  }

  /** Section 2.1 of RFC 1123, in lower case: letters, digits and hyphens, no hyphen at either end. */
  predicate ValidLabel(s: string) {
    && 1 <= |s| <= MAX_LENGTH
    && (forall i :: 0 <= i < |s| ==> Permitted(s[i]))
    && s[0] != '-' && s[|s| - 1] != '-'
  }

  predicate AllPermitted(s: string) {
    forall i :: 0 <= i < |s| ==> Permitted(s[i])
  }

  predicate HasAlphanumeric(s: string) {
    exists i :: 0 <= i < |s| && Alphanumeric(s[i])
  }

  lemma ConcatFacts(a: string, b: string)
    ensures AllPermitted(a + b) <==> AllPermitted(a) && AllPermitted(b)
    ensures HasAlphanumeric(a + b) <==> HasAlphanumeric(a) || HasAlphanumeric(b)
  {
    var s := a + b;
    assert forall i :: 0 <= i < |a| ==> s[i] == a[i];
    assert forall i :: 0 <= i < |b| ==> s[|a| + i] == b[i];
    if HasAlphanumeric(s) {
      var i :| 0 <= i < |s| && Alphanumeric(s[i]);
      assert i >= |a| ==> s[i] == b[i - |a|];
    }
    if AllPermitted(s) {
      assert forall i :: 0 <= i < |a| ==> Permitted(s[i]);
      forall i | 0 <= i < |b| ensures Permitted(b[i]) {
        assert s[|a| + i] == b[i];
      }
    }
  }

  lemma SingleFacts(c: char)
    ensures AllPermitted([c]) <==> Permitted(c)
    ensures HasAlphanumeric([c]) <==> Alphanumeric(c)
  {
    assert [c][0] == c;
  }

  lemma ImageFacts(c: char, inRun: bool)
    ensures AllPermitted(Image(c, inRun))
    ensures HasAlphanumeric(Image(c, inRun)) <==> Alphanumeric(c)
  {
    SingleFacts(c);
    SingleFacts('-');
  }

  lemma {:induction false} ReplacedIsPermitted(s: string, inRun: bool)
    ensures AllPermitted(Replaced(s, inRun))
    ensures HasAlphanumeric(Replaced(s, inRun)) <==> HasAlphanumeric(s)
    ensures AllPermitted(s) ==> Replaced(s, inRun) == s
  {
    if s != "" {
      var head, rest, next := Image(s[0], inRun), s[1..], !Permitted(s[0]);
      ReplacedIsPermitted(rest, next);
      assert s == [s[0]] + rest && Replaced(s, inRun) == head + Replaced(rest, next);
      SingleFacts(s[0]);
      ImageFacts(s[0], inRun);
      ConcatFacts([s[0]], rest);
      ConcatFacts(head, Replaced(rest, next));
    }
  }

  lemma {:induction false} TrimLeftFacts(s: string)
    ensures AllPermitted(s) ==> AllPermitted(TrimLeft(s))
    ensures TrimLeft(s) != "" ==> TrimLeft(s)[0] != '-'
    ensures HasAlphanumeric(TrimLeft(s)) <==> HasAlphanumeric(s)
  {
    if s != "" && s[0] == '-' {
      TrimLeftFacts(s[1..]);
      assert s == [s[0]] + s[1..];
      SingleFacts(s[0]);
      ConcatFacts([s[0]], s[1..]);
    }
  }

  lemma {:induction false} TrimRightFacts(s: string)
    ensures TrimRight(s) <= s
    ensures AllPermitted(s) ==> AllPermitted(TrimRight(s))
    ensures TrimRight(s) != "" ==> TrimRight(s)[|TrimRight(s)| - 1] != '-'
    ensures HasAlphanumeric(TrimRight(s)) <==> HasAlphanumeric(s)
  {
    if s != "" && s[|s| - 1] == '-' {
      var n := |s| - 1;
      TrimRightFacts(s[..n]);
      assert s == s[..n] + [s[n]];
      SingleFacts(s[n]);
      ConcatFacts(s[..n], [s[n]]);
    }
  }

  // ----- what becomes of the text -----

  predicate NonePermitted(s: string) {
    forall i :: 0 <= i < |s| ==> !Permitted(s[i])
  }

  lemma {:induction false} RunBecomesHyphen(run: string, b: string, inRun: bool)
    requires NonePermitted(run)
    ensures Replaced(run + b, inRun) == (if inRun || run == "" then "" else "-") + Replaced(b, inRun || run != "")
  {
    if run == "" {
      assert run + b == b;
    } else {
      assert (run + b)[1..] == run[1..] + b && (run + b)[0] == run[0];
      RunBecomesHyphen(run[1..], b, true);
    }
  }

  lemma {:induction false} ReplacedConcat(a: string, x: string, inRun: bool)
    requires a != "" && Permitted(a[|a| - 1])
    ensures Replaced(a + x, inRun) == Replaced(a, inRun) + Replaced(x, false)
  {
    var head, next := Image(a[0], inRun), !Permitted(a[0]);
    assert (a + x)[1..] == a[1..] + x && (a + x)[0] == a[0];
    if |a| == 1 {
      assert a[1..] + x == x;
    } else {
      ReplacedConcat(a[1..], x, next);
      assert head + (Replaced(a[1..], next) + Replaced(x, false)) == (head + Replaced(a[1..], next)) + Replaced(x, false);
    }
  }

  /** Every maximal run of characters that are not permitted, wherever it stands, becomes one hyphen. */
  lemma RunsAreReplaced(a: string, run: string, b: string)
    requires a == "" || Permitted(a[|a| - 1])
    requires run != "" && NonePermitted(run)
    requires b == "" || Permitted(b[0])
    ensures Replaced(a + run + b, false) == Replaced(a, false) + "-" + Replaced(b, false)
  {
    RunBecomesHyphen(run, b, false);
    assert a + run + b == a + (run + b);
    if a == "" {
      assert a + (run + b) == run + b;
    } else {
      ReplacedConcat(a, run + b, false);
    }
  }

  predicate AllHyphens(s: string) {
    forall i :: 0 <= i < |s| ==> s[i] == '-'
  }

  lemma {:induction false} TrimLeftTakesHyphens(s: string)
    ensures |TrimLeft(s)| <= |s| && s[|s| - |TrimLeft(s)|..] == TrimLeft(s)
    ensures AllHyphens(s[..|s| - |TrimLeft(s)|])
  {
    if s != "" && s[0] == '-' {
      TrimLeftTakesHyphens(s[1..]);
      var k := |s| - |TrimLeft(s)|;
      assert s[..k] == [s[0]] + s[1..][..k - 1];
    }
  }

  lemma {:induction false} TrimRightTakesHyphens(s: string)
    ensures TrimRight(s) <= s && AllHyphens(s[|TrimRight(s)|..])
  {
    if s != "" && s[|s| - 1] == '-' {
      var n := |s| - 1;
      TrimRightTakesHyphens(s[..n]);
      assert s[|TrimRight(s)|..] == s[..n][|TrimRight(s)|..] + [s[n]];
    }
  }

  /** Trimming takes hyphens off the two ends, and nothing else. */
  lemma TrimmingTakesHyphens(s: string) returns (left: string, right: string)
    ensures s == left + Trimmed(s) + right && AllHyphens(left) && AllHyphens(right)
  {
    var l := TrimLeft(s);
    TrimLeftTakesHyphens(s);
    TrimRightTakesHyphens(l);
    left, right := s[..|s| - |l|], l[|Trimmed(s)|..];
    assert s == left + l && l == Trimmed(s) + right;
  }

  /** What the trimmed string is before the length is looked at. */
  lemma TrimmedFacts(name: string, lower: char -> char)
    ensures var t := Trimmed(Replaced(Lowered(name, lower), false));
            && AllPermitted(t)
            && (t == "" <==> !HasAlphanumeric(Lowered(name, lower)))
            && (t != "" ==> t[0] != '-' && t[|t| - 1] != '-')
  {
    var r := Replaced(Lowered(name, lower), false);
    ReplacedIsPermitted(Lowered(name, lower), false);
    TrimLeftFacts(r);
    TrimRightFacts(TrimLeft(r));
    var t := Trimmed(r);
    assert t != "" ==> Alphanumeric(t[0]);
  }

  /**
   For every name: at most 63 characters, all permitted, no leading hyphen, empty exactly if lowercasing
   leaves no letter or digit. Trimming comes before truncation, so the result is a valid label exactly
   if it is nonempty and does not happen to be cut behind a hyphen.
   */
  lemma SanitizedShape(name: string, lower: char -> char)
    ensures var r, t := Sanitize(name, lower), Trimmed(Replaced(Lowered(name, lower), false));
            && r <= t && |r| == (if |t| < 63 then |t| else 63)
            && (forall i :: 0 <= i < |r| ==> 'a' <= r[i] <= 'z' || '0' <= r[i] <= '9' || r[i] == '-')
            && (r != "" ==> r[0] != '-')
            && (r == "" <==> forall i :: 0 <= i < |name| ==>
                               !('a' <= lower(name[i]) <= 'z' || '0' <= lower(name[i]) <= '9'))
            && (ValidLabel(r) <==> r != "" && !(|t| > 63 && t[62] == '-'))
  {
    TrimmedFacts(name, lower);
    var l, r := Lowered(name, lower), Sanitize(name, lower);
    assert forall i :: 0 <= i < |r| ==> Permitted(r[i]);
    assert forall i :: 0 <= i < |name| ==> l[i] == lower(name[i]);
    if HasAlphanumeric(l) {
      var i :| 0 <= i < |l| && Alphanumeric(l[i]);
      assert l[i] == lower(name[i]);
    }
  }

  lemma {:induction false} TrimmingCleanText(s: string)
    requires s == "" || s[0] != '-'
    ensures Trimmed(s) == TrimRight(s)
    ensures s != "" && s[|s| - 1] != '-' ==> Trimmed(s) == s
  {
  }

  /** A text of permitted characters is only trimmed and cut. */
  lemma PermittedIsKept(s: string, lower: char -> char)
    requires KeepsPermitted(lower) && AllPermitted(s) && |s| <= MAX_LENGTH && (s == "" || s[0] != '-')
    ensures Sanitize(s, lower) == TrimRight(s)
  {
    assert Lowered(s, lower) == s;
    ReplacedIsPermitted(s, false);
    TrimmingCleanText(s);
    TrimRightFacts(s);
  }

  /** Sanitizing twice reaches a fixed point that is empty or a valid label. */
  lemma SanitizingTwiceSettles(name: string, lower: char -> char)
    requires KeepsPermitted(lower)
    ensures var r := Sanitize(Sanitize(name, lower), lower);
            (r == "" || ValidLabel(r)) && Sanitize(r, lower) == r
    ensures Sanitize(Sanitize(name, lower), lower) <= Sanitize(name, lower)
  {
    var once := Sanitize(name, lower);
    SanitizedShape(name, lower);
    PermittedIsKept(once, lower);
    var twice := TrimRight(once);
    TrimRightFacts(once);
    PermittedIsKept(twice, lower);
    TrimRightFacts(twice);
  }

  /** A name whose sanitized form is no valid label: 62 letters, a separator, a letter. */
  lemma TruncationMayLeaveHyphen(lower: char -> char)
    requires KeepsPermitted(lower)
    ensures var name := seq(62, _ => 'a') + "-b";
            !ValidLabel(Sanitize(name, lower)) && Sanitize(name, lower) != ""
  {
    var name := seq(62, _ => 'a') + "-b";
    assert Lowered(name, lower) == name;
    ReplacedIsPermitted(name, false);
    TrimmingCleanText(name);
    assert name[|name| - 1] == 'b';
    assert Sanitize(name, lower)[62] == '-';
  }
}
