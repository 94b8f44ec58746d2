/**
 The in-memory rate limiter (internal/controller/monitorpod_controller.go:71-79 and 106-125).

 The limiter keeps one counter and one timestamp per key. A call reads the clock up to twice, once to
 age the entry and once to stamp it, both inside the critical section. Times and durations are
 unbounded integers (nanoseconds in the Go program).
 */
module RateLimiter {
  import opened Wrappers

  datatype Info = Info(count: int, lastSentAt: int)

  /** One call of Allow with the two clock readings it makes. */
  datatype Call = Call(key: string, limit: int, period: int, checkedAt: int, stampedAt: int)

  type Table = map<string, Info>

  function Lookup(data: Table, key: string): Option<Info> {
    if key in data then Some(data[key]) else None
  }

  /** The entry as the call sees it: a stale entry has been deleted. */
  function Aged(entry: Option<Info>, c: Call): Option<Info> {
    if entry.Some? && c.checkedAt - entry.value.lastSentAt > c.period then None else entry
  }

  predicate Permits(entry: Option<Info>, c: Call) {
    var live := Aged(entry, c);
    live.None? || live.value.count < c.limit
  }

  function Updated(data: Table, c: Call): Table {
    var entry := Lookup(data, c.key);
    if !Permits(entry, c) then data
    else if Aged(entry, c).None? then data[c.key := Info(1, c.stampedAt)]
    else data[c.key := Info(entry.value.count + 1, c.stampedAt)]
  }

  /** The table after a whole history of calls. */
  function Replay(calls: seq<Call>): Table {
    if calls == [] then map[]
    else Updated(Replay(calls[..|calls| - 1]), calls[|calls| - 1])
  }

  /** The decision on the i-th call of a history. */
  predicate Allowed(calls: seq<Call>, i: nat)
    requires i < |calls|
  {
    Permits(Lookup(Replay(calls[..i]), calls[i].key), calls[i])
  }

  /** The critical sections are serialised and the clock never goes back. */
  ghost predicate Clocked(calls: seq<Call>) {
    && (forall i :: 0 <= i < |calls| ==> calls[i].checkedAt <= calls[i].stampedAt)
    && (forall i, j :: 0 <= i < j < |calls| ==> calls[i].stampedAt <= calls[j].checkedAt)
  }

  /** The number of allowed calls on a key stamped within [lo, hi]. */
  function AllowedIn(calls: seq<Call>, key: string, lo: int, hi: int): nat {
    if calls == [] then 0
    else
      var n := |calls| - 1;
      AllowedIn(calls[..n], key, lo, hi) +
      if calls[n].key == key && Allowed(calls, n) && lo <= calls[n].stampedAt <= hi then 1 else 0
  }

  // ----- the limiter object -----

  class InMemoryRateLimiter {
    var data: map<string, Info>
    ghost var calls: seq<Call>

    ghost predicate Valid()
      reads this
    {
      data == Replay(calls)
    }

    constructor ()
      ensures Valid() && calls == []
    {
      data := map[];
      calls := [];
    }

    method Allow(key: string, limit: int, period: int, checkedAt: int, stampedAt: int) returns (ok: bool)
      requires Valid()
      modifies this
      ensures Valid()
      ensures calls == old(calls) + [Call(key, limit, period, checkedAt, stampedAt)]
      ensures ok == Allowed(calls, |old(calls)|)
      ensures forall k :: k != key ==> Lookup(data, k) == Lookup(old(data), k)
    {
      ghost var c := Call(key, limit, period, checkedAt, stampedAt);
      calls := calls + [c];
      assert calls[..|old(calls)|] == old(calls);
      var known := key in data;
      var info := if known then data[key] else Info(0, 0);
      if known && checkedAt - info.lastSentAt > period {
        data := data - {key};
        known := false;
      }
      if !known {
        data := data[key := Info(1, stampedAt)];
        assert data == Updated(old(data), c);
        return true;
      }
      if info.count >= limit {
        return false;
      }
      data := data[key := Info(info.count + 1, stampedAt)];
      return true;
    }
  }

  // ----- what an entry remembers -----

  /** An entry holds the stamp of the last allowed call on its key, and counts only allowed calls. */
  lemma {:induction false} EntryIsLastAllowed(calls: seq<Call>, key: string)
    ensures Lookup(Replay(calls), key).None? ==>
              forall i :: 0 <= i < |calls| && calls[i].key == key ==> !Allowed(calls, i)
    ensures Lookup(Replay(calls), key).Some? ==>
              var e := Lookup(Replay(calls), key).value;
              && 1 <= e.count
              && exists i :: && 0 <= i < |calls| && calls[i].key == key && Allowed(calls, i)
                             && e.lastSentAt == calls[i].stampedAt
                             && forall j :: i < j < |calls| && calls[j].key == key ==> !Allowed(calls, j)
  {
    if calls != [] {
      var n := |calls| - 1;
      var before := calls[..n];
      EntryIsLastAllowed(before, key);
      assert forall i :: 0 <= i < n ==> calls[..i] == before[..i];
      assert forall i :: 0 <= i < n ==> Allowed(calls, i) == Allowed(before, i);
      if calls[n].key == key && Allowed(calls, n) {
        assert Lookup(Replay(calls), key).value.lastSentAt == calls[n].stampedAt;
      } else {
        assert Lookup(Replay(calls), key) == Lookup(Replay(before), key);
      }
    }
  }

  // ----- the sliding-window bound -----

  /** Every call on the key promises at most `limit` per at least `period`. */
  ghost predicate Restrained(calls: seq<Call>, key: string, limit: int, period: int) {
    forall i :: 0 <= i < |calls| && calls[i].key == key ==> calls[i].limit <= limit && calls[i].period >= period
  }

  /** The count w of a window's allowed calls, against the entry. */
  predicate Covers(e: Option<Info>, limit: int, lo: int, hi: int, w: nat) {
    && w <= limit
    && (w > 0 ==> e.Some? && lo <= e.value.lastSentAt && (e.value.lastSentAt <= hi ==> e.value.count >= w))
  }

  /** One more allowed call: if it falls in the window, the entry before it had not been aged away. */
  lemma AllowedCallCovers(e: Option<Info>, c: Call, limit: int, period: int, lo: int, hi: int, w: nat)
    requires Covers(e, limit, lo, hi, w) && Permits(e, c)
    requires c.limit <= limit && c.period >= period && limit >= 1 && hi - lo <= period
    requires c.checkedAt <= c.stampedAt && (e.Some? ==> e.value.count >= 1 && e.value.lastSentAt <= c.checkedAt)
    ensures var after := if Aged(e, c).None? then Info(1, c.stampedAt) else Info(e.value.count + 1, c.stampedAt);
            Covers(Some(after), limit, lo, hi, w + if lo <= c.stampedAt <= hi then 1 else 0)
  {
  }

  /** The burst counter dominates the calls of the window for as long as the burst reaches into it. */
  lemma {:induction false} BurstCoversWindow(calls: seq<Call>, key: string, limit: int, period: int, lo: int, hi: int)
    requires Clocked(calls) && Restrained(calls, key, limit, period)
    requires limit >= 1 && hi - lo <= period
    ensures Covers(Lookup(Replay(calls), key), limit, lo, hi, AllowedIn(calls, key, lo, hi))
  {
    if calls != [] {
      var n := |calls| - 1;
      var before := calls[..n];
      BurstCoversWindow(before, key, limit, period, lo, hi);
      EntryIsLastAllowed(before, key);
      if calls[n].key == key && Allowed(calls, n) {
        AllowedCallCovers(Lookup(Replay(before), key), calls[n], limit, period, lo, hi, AllowedIn(before, key, lo, hi));
      } else {
        assert Lookup(Replay(calls), key) == Lookup(Replay(before), key);
      }
    }
  }

  /**
   Main result. Although only one count and one timestamp are stored, no window of length at most
   `period` contains more than `limit` allowed calls on a key.
   */
  lemma SlidingWindowBound(calls: seq<Call>, key: string, limit: int, period: int, lo: int, hi: int)
    requires Clocked(calls) && Restrained(calls, key, limit, period)
    requires limit >= 1 && hi - lo <= period
    ensures AllowedIn(calls, key, lo, hi) <= limit
  {
    BurstCoversWindow(calls, key, limit, period, lo, hi);
  }

  lemma {:induction false} WindowsAdd(calls: seq<Call>, key: string, lo: int, mid: int, hi: int)
    requires lo <= mid <= hi
    ensures AllowedIn(calls, key, lo, hi) == AllowedIn(calls, key, lo, mid - 1) + AllowedIn(calls, key, mid, hi)
  {
    if calls != [] {
      WindowsAdd(calls[..|calls| - 1], key, lo, mid, hi);
    }
  }

  lemma AtLeastOne(k: int, d: int)
    requires k >= 1 && d >= 1
    ensures k * d >= d
  {
  }

  lemma QuotientIsUnique(d: int, q1: int, r1: int, q2: int, r2: int)
    requires 0 <= r1 < d && 0 <= r2 < d && q1 * d + r1 == q2 * d + r2
    ensures q1 == q2
  {
    assert (q1 - q2) * d == r2 - r1;
    if q1 > q2 {
      AtLeastOne(q1 - q2, d);
      assert false;
    } else if q1 < q2 {
      assert (q2 - q1) * d == r1 - r2;
      AtLeastOne(q2 - q1, d);
      assert false;
    }
  }

  lemma OneMorePeriod(length: int, period: int)
    requires period >= 1
    ensures length / period == (length - period) / period + 1
  {
    var q, r := length / period, length % period;
    var p, t := (length - period) / period, (length - period) % period;
    assert (p + 1) * period == p * period + period;
    QuotientIsUnique(period, q, r, p + 1, t);
  }

  lemma OneMoreBurst(limit: int, windows: int)
    ensures limit * (windows + 1) == limit * windows + limit
  {
  }

  /** One burst for a stretch shorter than the period, and one more for every period beyond. */
  function RunBudget(limit: int, period: int, length: nat): int
    requires period >= 1
    decreases length
  {
    if length < period then limit else RunBudget(limit, period, length - period) + limit
  }

  /** The number of bursts in it. */
  function Bursts(period: int, length: nat): int
    requires period >= 1
    decreases length
  {
    if length < period then 1 else Bursts(period, length - period) + 1
  }

  lemma {:induction false} BurstsIsQuotient(period: int, length: nat)
    requires period >= 1
    ensures Bursts(period, length) == length / period + 1
    decreases length
  {
    if length < period {
      assert length / period == 0;
    } else {
      BurstsIsQuotient(period, length - period);
      OneMorePeriod(length, period);
    }
  }

  lemma {:induction false} RunBudgetIsProduct(limit: int, period: int, length: nat)
    requires period >= 1
    ensures RunBudget(limit, period, length) == limit * Bursts(period, length)
    decreases length
  {
    if length >= period {
      RunBudgetIsProduct(limit, period, length - period);
      OneMoreBurst(limit, Bursts(period, length - period));
    }
  }

  lemma RunBudgetClosedForm(limit: int, period: int, length: nat)
    requires period >= 1
    ensures RunBudget(limit, period, length) == limit * (length / period + 1)
  {
    BurstsIsQuotient(period, length);
    RunBudgetIsProduct(limit, period, length);
  }

  lemma {:induction false} RunStaysInBudget(calls: seq<Call>, key: string, limit: int, period: int, lo: int, length: nat)
    requires Clocked(calls) && Restrained(calls, key, limit, period)
    requires limit >= 1 && period >= 1
    ensures AllowedIn(calls, key, lo, lo + length) <= RunBudget(limit, period, length)
    decreases length
  {
    if length < period {
      SlidingWindowBound(calls, key, limit, period, lo, lo + length);
    } else {
      WindowsAdd(calls, key, lo, lo + period, lo + length);
      SlidingWindowBound(calls, key, limit, period, lo, lo + period - 1);
      RunStaysInBudget(calls, key, limit, period, lo + period, length - period);
    }
  }

  /** The long-run rate: over any stretch of length `length`, at most limit * (length div period + 1). */
  lemma LongRunBound(calls: seq<Call>, key: string, limit: int, period: int, lo: int, length: nat)
    requires Clocked(calls) && Restrained(calls, key, limit, period)
    requires limit >= 1 && period >= 1
    ensures AllowedIn(calls, key, lo, lo + length) <= limit * (length / period + 1)
  {
    RunStaysInBudget(calls, key, limit, period, lo, length);
    RunBudgetClosedForm(limit, period, length);
  }

  /** No starvation: a call more than its period after every allowed call on the key is allowed. */
  lemma IdleKeyIsServed(calls: seq<Call>, i: nat)
    requires i < |calls|
    requires forall j :: 0 <= j < i && calls[j].key == calls[i].key && Allowed(calls, j) ==>
                           calls[i].checkedAt - calls[j].stampedAt > calls[i].period
    ensures Allowed(calls, i)
  {
    EntryIsLastAllowed(calls[..i], calls[i].key);
    assert forall j :: 0 <= j < i ==> calls[..i][..j] == calls[..j];
  }

  // ----- what a denial means -----

  /** The j-th call is the last one on the key that was allowed. */
  ghost predicate LastAllowed(calls: seq<Call>, key: string, j: nat) {
    && j < |calls| && calls[j].key == key && Allowed(calls, j)
    && forall m :: j < m < |calls| && calls[m].key == key ==> !Allowed(calls, m)
  }

  predicate InPeriod(c: Call, previous: Call) {
    c.checkedAt - previous.stampedAt <= c.period
  }

  /** The last |js| allowed calls on the key, each but the first made within its own period of the one before. */
  ghost predicate IsBurst(calls: seq<Call>, key: string, js: seq<nat>)
    decreases |js|
  {
    js != [] &&
    var k := |js| - 1;
    LastAllowed(calls, key, js[k]) &&
    (k > 0 ==> IsBurst(calls[..js[k]], key, js[..k]) && InPeriod(calls[js[k]], calls[js[k - 1]]))
  }

  lemma {:induction false} UnservedKeepsEntry(calls: seq<Call>, key: string, k: nat)
    requires k <= |calls|
    requires forall m :: k <= m < |calls| && calls[m].key == key ==> !Allowed(calls, m)
    ensures Lookup(Replay(calls), key) == Lookup(Replay(calls[..k]), key)
  {
    if k < |calls| {
      var before := calls[..|calls| - 1];
      assert forall m :: 0 <= m < |before| ==> before[..m] == calls[..m];
      assert before[..k] == calls[..k];
      UnservedKeepsEntry(before, key, k);
    } else {
      assert calls[..k] == calls;
    }
  }

  /** The entry is the one its last allowed call left. */
  lemma EntryAfterLastAllowed(calls: seq<Call>, key: string, j: nat)
    requires LastAllowed(calls, key, j)
    ensures Lookup(Replay(calls), key) == Lookup(Updated(Replay(calls[..j]), calls[j]), key)
  {
    UnservedKeepsEntry(calls, key, j + 1);
    assert calls[..j + 1][..j] == calls[..j];
  }

  /** The counter is at least the length of any burst that ends in the last allowed call. */
  lemma {:induction false} BurstIsCounted(calls: seq<Call>, key: string, js: seq<nat>)
    requires IsBurst(calls, key, js)
    ensures var e := Lookup(Replay(calls), key);
            e.Some? && e.value.count >= |js| && e.value.lastSentAt == calls[js[|js| - 1]].stampedAt
    decreases |js|
  {
    var k := |js| - 1;
    EntryAfterLastAllowed(calls, key, js[k]);
    if k > 0 {
      BurstIsCounted(calls[..js[k]], key, js[..k]);
    } else {
      EntryIsLastAllowed(calls[..js[k]], key);
    }
  }

  /** And there is a burst of every length up to the counter. */
  lemma {:induction false} CountIsABurst(calls: seq<Call>, key: string, n: nat) returns (js: seq<nat>)
    requires Lookup(Replay(calls), key).Some? && 1 <= n <= Lookup(Replay(calls), key).value.count
    ensures IsBurst(calls, key, js) && |js| == n
  {
    EntryIsLastAllowed(calls, key);
    var j :| 0 <= j < |calls| && calls[j].key == key && Allowed(calls, j) &&
             forall m :: j < m < |calls| && calls[m].key == key ==> !Allowed(calls, m);
    EntryAfterLastAllowed(calls, key, j);
    if n == 1 {
      js := [j];
    } else {
      var before := calls[..j];
      assert calls[j].key == key;
      var earlier := CountIsABurst(before, key, n - 1);
      BurstIsCounted(before, key, earlier);
      js := earlier + [j];
      assert js[..n - 1] == earlier;
    }
  }

  /**
   A call is denied exactly if a burst of at least `limit` allowed calls on its key, each made within its
   own period of the one before, ends within the call's period.
   */
  lemma DenialIsJustified(calls: seq<Call>, i: nat)
    requires i < |calls|
    ensures !Allowed(calls, i) <==>
            exists js :: IsBurst(calls[..i], calls[i].key, js) && |js| >= calls[i].limit &&
                         InPeriod(calls[i], calls[js[|js| - 1]])
  {
    var before, c := calls[..i], calls[i];
    if !Allowed(calls, i) {
      EntryIsLastAllowed(before, c.key);
      var js := CountIsABurst(before, c.key, Lookup(Replay(before), c.key).value.count);
      BurstIsCounted(before, c.key, js);
    }
    if js :| IsBurst(before, c.key, js) && |js| >= c.limit && InPeriod(c, calls[js[|js| - 1]]) {
      BurstIsCounted(before, c.key, js);
    }
  }

  // ----- denied calls -----

  function Decisions(calls: seq<Call>): (r: seq<bool>)
    ensures |r| == |calls|
  {
    if calls == [] then []
    else
      var before, c := calls[..|calls| - 1], calls[|calls| - 1];
      Decisions(before) + [Permits(Lookup(Replay(before), c.key), c)]
  }

  /** The elements of s whose mark is set. */
  function Select<T>(s: seq<T>, keep: seq<bool>): seq<T>
    requires |s| == |keep|
  {
    if s == [] then []
    else
      var n := |s| - 1;
      Select(s[..n], keep[..n]) + if keep[n] then [s[n]] else []
  }

  lemma {:induction false} DecisionsAreAllowed(calls: seq<Call>, i: nat)
    requires i < |calls|
    ensures Decisions(calls)[i] == Allowed(calls, i)
  {
    var before := calls[..|calls| - 1];
    if i < |before| {
      DecisionsAreAllowed(before, i);
      assert before[..i] == calls[..i];
    }
  }

  /** Appending a call to two histories that agree on its key makes the same decision in both. */
  lemma HistoryGrows(calls: seq<Call>, c: Call)
    ensures Replay(calls + [c]) == Updated(Replay(calls), c)
    ensures Decisions(calls + [c]) == Decisions(calls) + [Permits(Lookup(Replay(calls), c.key), c)]
  {
    assert (calls + [c])[..|calls|] == calls;
  }

  lemma SelectGrows<T>(s: seq<T>, x: T, keep: seq<bool>, k: bool)
    requires |s| == |keep|
    ensures Select(s + [x], keep + [k]) == if k then Select(s, keep) + [x] else Select(s, keep)
  {
    assert (s + [x])[..|s|] == s && (keep + [k])[..|s|] == keep;
  }

  /** Denied calls are invisible: striking out any of them changes no other decision and no state. */
  lemma {:induction false} DeniedCallsAreInvisible(calls: seq<Call>, keep: seq<bool>)
    requires |keep| == |calls|
    requires forall i :: 0 <= i < |calls| && !keep[i] ==> !Decisions(calls)[i]
    ensures Replay(Select(calls, keep)) == Replay(calls)
    ensures Decisions(Select(calls, keep)) == Select(Decisions(calls), keep)
  {
    if calls == [] {
      assert Select(calls, keep) == [] && Select(Decisions(calls), keep) == [];
    } else {
      var n := |calls| - 1;
      var before, marks, c, k := calls[..n], keep[..n], calls[n], keep[n];
      assert calls == before + [c] && keep == marks + [k];
      var kept, p := Select(before, marks), Permits(Lookup(Replay(before), c.key), c);
      HistoryGrows(before, c);
      assert forall i :: 0 <= i < n ==> Decisions(calls)[i] == Decisions(before)[i];
      DeniedCallsAreInvisible(before, marks);
      SelectGrows(before, c, marks, k);
      SelectGrows(Decisions(before), p, marks, k);
      HistoryGrows(kept, c);
      assert Decisions(calls)[n] == p;
    }
  }

  function OnKey(calls: seq<Call>, key: string): (r: seq<bool>)
    ensures |r| == |calls|
  {
    if calls == [] then []
    else OnKey(calls[..|calls| - 1], key) + [calls[|calls| - 1].key == key]
  }

  /** Adding one call to two histories that agree on the key: the same entry, the same decision. */
  lemma SameEntryDecidesAlike(mine: seq<Call>, calls: seq<Call>, key: string, c: Call)
    requires Lookup(Replay(mine), key) == Lookup(Replay(calls), key)
    ensures c.key == key ==>
              && Permits(Lookup(Replay(mine), c.key), c) == Permits(Lookup(Replay(calls), c.key), c)
              && Lookup(Updated(Replay(mine), c), key) == Lookup(Updated(Replay(calls), c), key)
    ensures c.key != key ==> Lookup(Updated(Replay(calls), c), key) == Lookup(Replay(calls), key)
  {
  }

  /** The shared limiter is a product: one key's calls fare as with a limiter of their own. */
  lemma {:induction false} KeysAreIndependent(calls: seq<Call>, key: string)
    ensures Lookup(Replay(Select(calls, OnKey(calls, key))), key) == Lookup(Replay(calls), key)
    ensures Decisions(Select(calls, OnKey(calls, key))) == Select(Decisions(calls), OnKey(calls, key))
  {
    if calls == [] {
      assert Select(calls, OnKey(calls, key)) == [] && Select(Decisions(calls), OnKey(calls, key)) == [];
    } else {
      var n := |calls| - 1;
      var before, c := calls[..n], calls[n];
      var marks, k := OnKey(before, key), c.key == key;
      var mine, p := Select(before, marks), Permits(Lookup(Replay(before), c.key), c);
      assert calls == before + [c] && OnKey(calls, key) == marks + [k];
      assert Replay(calls) == Updated(Replay(before), c) && Decisions(calls) == Decisions(before) + [p];
      KeysAreIndependent(before, key);
      SelectGrows(before, c, marks, k);
      SelectGrows(Decisions(before), p, marks, k);
      SameEntryDecidesAlike(mine, before, key, c);
      HistoryGrows(mine, c);
    }
  }

  // ----- the key a dispatch uses (internal/controller/monitorpod_controller.go:624) -----

  function RateKey(namespace: string, monitor: string, rule: string): string {
    namespace + "/" + monitor + "/" + rule
  }

  lemma {:induction false} FirstSlashSplits(a: string, b: string, x: string, y: string)
    requires '/' !in a && '/' !in b
    requires a + "/" + x == b + "/" + y
    ensures a == b && x == y
  {
    var s := a + "/" + x;
    assert s[|a|] == '/' && s[|b|] == '/';
    assert |a| == |b| by {
      assert forall i :: 0 <= i < |a| ==> s[i] == a[i];
      assert forall i :: 0 <= i < |b| ==> s[i] == b[i];
    }
    assert a == s[..|a|] && b == s[..|b|];
    assert x == s[|a| + 1..] && y == s[|b| + 1..];
  }

  /** Rule names may contain slashes; namespaces and resource names may not. */
  lemma RateKeyIsInjective(ns1: string, mon1: string, rule1: string, ns2: string, mon2: string, rule2: string)
    requires '/' !in ns1 && '/' !in mon1 && '/' !in ns2 && '/' !in mon2
    ensures RateKey(ns1, mon1, rule1) == RateKey(ns2, mon2, rule2) <==> ns1 == ns2 && mon1 == mon2 && rule1 == rule2
  {
    if RateKey(ns1, mon1, rule1) == RateKey(ns2, mon2, rule2) {
      assert RateKey(ns1, mon1, rule1) == ns1 + "/" + (mon1 + "/" + rule1);
      assert RateKey(ns2, mon2, rule2) == ns2 + "/" + (mon2 + "/" + rule2);
      FirstSlashSplits(ns1, ns2, mon1 + "/" + rule1, mon2 + "/" + rule2);
      FirstSlashSplits(mon1, mon2, rule1, rule2);
    }
  }
}
