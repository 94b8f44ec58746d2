/**
 The AlertRecord cleaner (internal/controller/alertrecord_cleaner.go:36-83): every Interval it lists the
 records and deletes, by name, those whose time to live is over. Others create and delete records all
 the while, also between the list and a delete.
 */
module RecordCleaner {
  /** The TTL annotation: absent, unparsable, or a duration (which may be negative). */
  datatype Ttl = NoTtl | BadTtl | For(duration: int)

  /** `uid` tells apart two records that had the same name at different times. */
  datatype Record = Record(uid: nat, created: int, ttl: Ttl)

  type Store = map<string, Record>

  datatype Item = Item(name: string, record: Record)

  /** Strictly after creation plus TTL. */
  predicate Expired(r: Record, now: int) {
    r.ttl.For? && now > r.created + r.ttl.duration
  }

  /** Handling a listed record deletes what now stands under its name. */
  predicate Hits(store: Store, item: Item, now: int, deleteFails: bool) {
    Expired(item.record, now) && !deleteFails && item.name in store
  }

  function Visited(store: Store, item: Item, now: int, deleteFails: bool): Store {
    if Hits(store, item, now, deleteFails) then store - {item.name} else store
  }

  /**
   What happens around the i-th record of a cycle: the store as others have left it, the clock as read,
   and whether a delete request fails.
   */
  datatype Turn = Turn(store: Store, now: int, deleteFails: bool)

  datatype Removal = Removal(name: string, listed: Record, removed: Record, now: int)

  predicate Removes(listed: seq<Item>, turns: seq<Turn>, i: nat)
    requires i < |listed| == |turns|
  {
    Hits(turns[i].store, listed[i], turns[i].now, turns[i].deleteFails)
  }

  function RemovalOf(listed: seq<Item>, turns: seq<Turn>, i: nat): Removal
    requires i < |listed| == |turns| && Removes(listed, turns, i)
  {
    Removal(listed[i].name, listed[i].record, turns[i].store[listed[i].name], turns[i].now)
  }

  /** The store as the cycle leaves it after its i-th record. */
  function After(listed: seq<Item>, turns: seq<Turn>, i: nat): Store
    requires i < |listed| == |turns|
  {
    Visited(turns[i].store, listed[i], turns[i].now, turns[i].deleteFails)
  }

  /** What a cycle removes from the first n listed records on. */
  function Removals(listed: seq<Item>, turns: seq<Turn>, n: nat): seq<Removal>
    requires n <= |listed| == |turns|
  {
    if n == 0 then []
    else Removals(listed, turns, n - 1) + if Removes(listed, turns, n - 1) then [RemovalOf(listed, turns, n - 1)] else []
  }

  class AlertRecordCleaner {
    var store: Store
    ghost var removals: seq<Removal>

    constructor (store: Store)
      ensures this.store == store && removals == []
    {
      this.store := store;
      removals := [];
    }

    /** One cycle over a list, others writing to the store before each record is looked at. */
    method Cleanup(listed: seq<Item>, turns: seq<Turn>)
      requires |turns| == |listed|
      modifies this
      ensures removals == old(removals) + Removals(listed, turns, |listed|)
      ensures store == if listed == [] then old(store) else After(listed, turns, |listed| - 1)
      ensures forall k :: |old(removals)| <= k < |removals| ==>
                removals[k].listed.ttl.For? &&
                removals[k].now > removals[k].listed.created + removals[k].listed.ttl.duration
    {
      for i := 0 to |listed|
        invariant removals == old(removals) + Removals(listed, turns, i)
        invariant store == if i == 0 then old(store) else After(listed, turns, i - 1)
      {
        store := turns[i].store;
        var item := listed[i];
        if !item.record.ttl.For? {
          continue;
        }
        var expirationTime := item.record.created + item.record.ttl.duration;
        if turns[i].now > expirationTime {
          if !turns[i].deleteFails && item.name in store {
            removals := removals + [Removal(item.name, item.record, store[item.name], turns[i].now)];
            store := store - {item.name};
          }
        }
      }
      RemovesOnlyExpired(listed, turns, |listed|);
      forall k | |old(removals)| <= k < |removals|
        ensures removals[k] in Removals(listed, turns, |listed|)
      {
        assert removals[k] == Removals(listed, turns, |listed|)[k - |old(removals)|];
      }
    }

    /** The ticker loop, until the context is done: no cycle runs once it is. */
    method Start(wakes: seq<Wake>)
      requires forall w :: w in wakes && w.Tick? ==> |w.turns| == |w.listed|
      modifies this
      ensures removals == old(removals) + RemovalsOf(wakes)
      ensures forall k :: |old(removals)| <= k < |removals| ==>
                removals[k].listed.ttl.For? &&
                removals[k].now > removals[k].listed.created + removals[k].listed.ttl.duration
    {
      var i := 0;
      assert wakes[0..] == wakes;
      while i < |wakes| && !wakes[i].Done?
        invariant 0 <= i <= |wakes|
        invariant removals + RemovalsOf(wakes[i..]) == old(removals) + RemovalsOf(wakes)
      {
        assert wakes[i..][0] == wakes[i] && wakes[i..][1..] == wakes[i + 1..];
        ghost var was := removals;
        Cleanup(wakes[i].listed, wakes[i].turns);
        ghost var now := Removals(wakes[i].listed, wakes[i].turns, |wakes[i].listed|);
        assert was + (now + RemovalsOf(wakes[i + 1..])) == removals + RemovalsOf(wakes[i + 1..]);
        i := i + 1;
      }
      assert RemovalsOf(wakes[i..]) == [] && removals + [] == removals;
      CyclesRemoveOnlyExpired(wakes);
      forall k | |old(removals)| <= k < |removals|
        ensures removals[k] in RemovalsOf(wakes)
      {
        assert removals[k] == RemovalsOf(wakes)[k - |old(removals)|];
      }
    }
  }

  /** What the cleaner's select finds ready. */
  datatype Wake = Done | Tick(listed: seq<Item>, turns: seq<Turn>)

  /** What the cycles up to the end of the context remove. */
  function RemovalsOf(wakes: seq<Wake>): seq<Removal>
    requires forall w :: w in wakes && w.Tick? ==> |w.turns| == |w.listed|
  {
    if wakes == [] || wakes[0].Done? then []
    else Removals(wakes[0].listed, wakes[0].turns, |wakes[0].listed|) + RemovalsOf(wakes[1..])
  }

  // ----- safety -----

  /** No name was given to another record between the list and the delete. */
  ghost predicate NamesNotReused(listed: seq<Item>, turns: seq<Turn>)
    requires |listed| == |turns|
  {
    forall i :: 0 <= i < |listed| && listed[i].name in turns[i].store ==>
                  turns[i].store[listed[i].name] == listed[i].record
  }

  /** The name of the i-th listed record now stands for another one, which is not expired. */
  predicate ReusedByLiving(listed: seq<Item>, turns: seq<Turn>, i: nat)
    requires i < |listed| == |turns| && listed[i].name in turns[i].store
  {
    turns[i].store[listed[i].name] != listed[i].record && !Expired(turns[i].store[listed[i].name], turns[i].now)
  }

  /**
   Whoever else writes meanwhile: a removal follows a listed record that had a parsable TTL and had
   outlived it. The record removed is that one, and so expired, as long as names are not reused; and
   all removed records are expired exactly if no name is reused by a living record.
   */
  lemma {:induction false} RemovesOnlyExpired(listed: seq<Item>, turns: seq<Turn>, n: nat)
    requires n <= |listed| == |turns|
    ensures forall r :: r in Removals(listed, turns, n) ==>
              r.listed.ttl.For? && r.now > r.listed.created + r.listed.ttl.duration
    ensures NamesNotReused(listed, turns) ==> forall r :: r in Removals(listed, turns, n) ==> r.removed == r.listed
    ensures (forall r :: r in Removals(listed, turns, n) ==>
               r.removed.ttl.For? && r.now > r.removed.created + r.removed.ttl.duration) <==>
            forall i :: 0 <= i < n && Removes(listed, turns, i) ==> !ReusedByLiving(listed, turns, i)
  {
    if n > 0 {
      var before := Removals(listed, turns, n - 1);
      RemovesOnlyExpired(listed, turns, n - 1);
      if Removes(listed, turns, n - 1) {
        var r := RemovalOf(listed, turns, n - 1);
        assert Removals(listed, turns, n) == before + [r];
        assert r in Removals(listed, turns, n);
        assert forall q :: q in before ==> q in Removals(listed, turns, n);
        assert ReusedByLiving(listed, turns, n - 1) <==> !Expired(r.removed, r.now);
      } else {
        assert Removals(listed, turns, n) == before;
      }
    }
  }

  lemma {:induction false} CyclesRemoveOnlyExpired(wakes: seq<Wake>)
    requires forall w :: w in wakes && w.Tick? ==> |w.turns| == |w.listed|
    ensures forall r :: r in RemovalsOf(wakes) ==>
              r.listed.ttl.For? && r.now > r.listed.created + r.listed.ttl.duration
  {
    if wakes != [] && wakes[0].Tick? {
      RemovesOnlyExpired(wakes[0].listed, wakes[0].turns, |wakes[0].listed|);
      CyclesRemoveOnlyExpired(wakes[1..]);
    }
  }

  /** And no listed record whose time is over when its turn comes is passed over, if its delete goes through. */
  lemma {:induction false} RemovesEveryExpired(listed: seq<Item>, turns: seq<Turn>, n: nat, i: nat)
    requires i < n <= |listed| == |turns|
    requires listed[i].record.ttl.For? && turns[i].now > listed[i].record.created + listed[i].record.ttl.duration
    requires !turns[i].deleteFails && listed[i].name in turns[i].store
    ensures Removal(listed[i].name, listed[i].record, turns[i].store[listed[i].name], turns[i].now)
            in Removals(listed, turns, n)
  {
    if i < n - 1 {
      RemovesEveryExpired(listed, turns, n - 1, i);
    }
  }

  /** The delete names the record but not its identity: a fresh record under the name goes instead. */
  lemma ReusedNameLosesFreshRecord()
    ensures var listed := [Item("r", Record(1, 0, For(10)))];
            var turns := [Turn(map["r" := Record(2, 20, For(10))], 21, false)];
            var removals := Removals(listed, turns, 1);
            |removals| == 1 && removals[0].removed.ttl == For(10) && removals[0].now <= removals[0].removed.created + 10
  {
    var listed := [Item("r", Record(1, 0, For(10)))];
    var turns := [Turn(map["r" := Record(2, 20, For(10))], 21, false)];
    assert Removals(listed, turns, 0) == [];
  }

  // ----- a cycle nobody disturbs -----

  ghost predicate IsListed(listed: seq<Item>, n: string) {
    exists i :: 0 <= i < |listed| && listed[i].name == n
  }

  ghost predicate IsListOf(store: Store, listed: seq<Item>) {
    && (forall n {:trigger IsListed(listed, n)} :: n in store ==> IsListed(listed, n))
    && (forall i :: 0 <= i < |listed| ==> listed[i].name in store && store[listed[i].name] == listed[i].record)
  }

  /** The store when k listed records have been handled. */
  function Left(store: Store, listed: seq<Item>, turns: seq<Turn>, k: nat): Store
    requires k <= |listed| == |turns|
  {
    if k == 0 then store else After(listed, turns, k - 1)
  }

  /** The list is the store, and only the cycle's own deletes, all of which succeed, touch it. */
  ghost predicate Undisturbed(store: Store, listed: seq<Item>, turns: seq<Turn>) {
    && |listed| == |turns|
    && IsListOf(store, listed)
    && forall i :: 0 <= i < |turns| ==> !turns[i].deleteFails && turns[i].store == Left(store, listed, turns, i)
  }

  /** One of the first k listed records has that name and was expired when its turn came. */
  ghost predicate TakenWithin(listed: seq<Item>, turns: seq<Turn>, k: nat, n: string)
    requires k <= |listed| == |turns|
  {
    exists j :: 0 <= j < k && listed[j].name == n && Expired(listed[j].record, turns[j].now)
  }

  lemma {:induction false} UndisturbedPrefix(store: Store, listed: seq<Item>, turns: seq<Turn>, k: nat, n: string)
    requires Undisturbed(store, listed, turns) && k <= |listed|
    ensures n in Left(store, listed, turns, k) <==> n in store && !TakenWithin(listed, turns, k, n)
    ensures n in Left(store, listed, turns, k) ==> Left(store, listed, turns, k)[n] == store[n]
  {
    if k > 0 {
      UndisturbedPrefix(store, listed, turns, k - 1, n);
      assert turns[k - 1].store == Left(store, listed, turns, k - 1);
    }
  }

  /**
   Left alone, a cycle that lasts from `from` to `to` removes every record expired when it starts and
   none that is not expired when it ends; so exactly the expired ones if it takes no time.
   */
  lemma UndisturbedCycle(store: Store, listed: seq<Item>, turns: seq<Turn>, from: int, to: int)
    requires Undisturbed(store, listed, turns)
    requires from <= to && forall i :: 0 <= i < |turns| ==> from <= turns[i].now <= to
    ensures var left := Left(store, listed, turns, |listed|);
            && (forall n :: n in left ==>
                  n in store && left[n] == store[n] &&
                  !(store[n].ttl.For? && from > store[n].created + store[n].ttl.duration))
            && (forall n :: n in store && !(store[n].ttl.For? && to > store[n].created + store[n].ttl.duration) ==>
                  n in left)
  {
    forall n | n in store ensures IsListed(listed, n) {
    }
    forall n {
      UndisturbedPrefix(store, listed, turns, |listed|, n);
    }
  }

  // ----- cycles among other writers -----

  /**
   What happens to the store over time. A cycle is a Begin, which fixes the list, and a Visit for each
   listed record; anything may happen in between. Begin stands for the moment that the list reflects.
   */
  datatype Op =
    | Created(name: string, record: Record, at: int)
    | Dropped(name: string, at: int)
    | Begin(listed: seq<Item>, at: int)
    | Visit(deleteFails: bool, at: int)

  /**
   `storedAt` remembers when a record came in; the timestamp in it may be older. `start` is when the
   latest cycle began, `rest` what it has yet to visit.
   */
  datatype History = History(store: Store, storedAt: map<string, int>, clock: int, start: int, rest: seq<Item>)

  /** The process starts, over whatever is stored. */
  function Initial(store: Store, now: int): History {
    History(store, map n | n in store :: now, now, now, [])
  }

  function Happened(h: History, op: Op): History {
    match op
    case Created(name, record, at) =>
      if name in h.store then h.(clock := at)
      else h.(store := h.store[name := record], storedAt := h.storedAt[name := at], clock := at)
    case Dropped(name, at) =>
      h.(store := h.store - {name}, clock := at)
    case Begin(listed, at) =>
      if h.rest != [] then h.(clock := at) else h.(rest := listed, start := at, clock := at)
    case Visit(deleteFails, at) =>
      if h.rest == [] then h.(clock := at)
      else h.(store := Visited(h.store, h.rest[0], at, deleteFails), rest := h.rest[1..], clock := at)
  }

  function Run(h: History, ops: seq<Op>): History {
    if ops == [] then h else Happened(Run(h, ops[..|ops| - 1]), ops[|ops| - 1])
  }

  /** Time goes on, and a cycle begins after the last is over, with a list of the store. */
  ghost predicate Possible(h: History, op: Op) {
    h.clock <= op.at && (op.Begin? ==> h.rest == [] && IsListOf(h.store, op.listed))
  }

  ghost predicate Feasible(h: History, ops: seq<Op>) {
    ops == [] || (Feasible(h, ops[..|ops| - 1]) && Possible(Run(h, ops[..|ops| - 1]), ops[|ops| - 1]))
  }

  // ----- safety over runs -----

  /** A record whose name waits in the list is the listed one, or came in after the cycle began. */
  ghost predicate ListedOrNew(h: History, item: Item) {
    item.name in h.store ==>
      h.store[item.name] == item.record || (item.name in h.storedAt && h.storedAt[item.name] >= h.start)
  }

  ghost predicate Dated(h: History) {
    h.start <= h.clock && forall n :: n in h.store ==> n in h.storedAt
  }

  lemma {:induction false} ListStaysTrue(store: Store, now: int, ops: seq<Op>)
    requires Feasible(Initial(store, now), ops)
    ensures var h := Run(Initial(store, now), ops); Dated(h) && forall i :: 0 <= i < |h.rest| ==> ListedOrNew(h, h.rest[i])
  {
    if ops != [] {
      ListStaysTrue(store, now, ops[..|ops| - 1]);
      var h := Run(Initial(store, now), ops[..|ops| - 1]);
      assert forall i :: 0 <= i < |h.rest| ==> ListedOrNew(h, h.rest[i]);
    }
  }

  /**
   A cycle spares the living. Whoever else writes meanwhile: a record that was there when the cycle
   began is taken at its turn exactly if its TTL is parsable and over by then. A record taken before its
   time, or without a TTL, is one that took over the name of an expired record while the cycle was on.
   */
  lemma CyclesSpareTheLiving(store: Store, now: int, ops: seq<Op>, deleteFails: bool, at: int, name: string)
    requires Feasible(Initial(store, now), ops) && name in Run(Initial(store, now), ops).store
    ensures var h := Run(Initial(store, now), ops);
            var gone := name !in Happened(h, Visit(deleteFails, at)).store;
            && name in h.storedAt
            && (h.storedAt[name] < h.start ==>
                  (gone <==>
                     (&& h.rest != [] && h.rest[0].name == name && !deleteFails
                      && h.store[name].ttl.For? && at > h.store[name].created + h.store[name].ttl.duration)))
            && (gone && !(h.store[name].ttl.For? && at > h.store[name].created + h.store[name].ttl.duration) ==>
                  && h.storedAt[name] >= h.start && h.rest[0].record != h.store[name]
                  && h.rest[0].record.ttl.For? && at > h.rest[0].record.created + h.rest[0].record.ttl.duration)
  {
    ListStaysTrue(store, now, ops);
    var h := Run(Initial(store, now), ops);
    assert h.rest != [] ==> ListedOrNew(h, h.rest[0]);
  }

  // ----- the deadline -----

  function Max(a: int, b: int): int {
    if a < b then b else a
  }

  /** When a record with a TTL is to go: when that is over, or when it came in if that was later. */
  function Due(h: History, n: string): int
    requires n in h.store && n in h.storedAt && h.store[n].ttl.For?
  {
    Max(h.store[n].created + h.store[n].ttl.duration, h.storedAt[n])
  }

  /** No record fell due before the latest cycle began, unless the cycle has yet to visit it. */
  ghost predicate DueLater(h: History, n: string)
    requires n in h.store && n in h.storedAt
  {
    h.store[n].ttl.For? ==> Due(h, n) >= h.start || Item(n, h.store[n]) in h.rest
  }

  ghost predicate NothingForgotten(h: History) {
    Dated(h) && forall n :: n in h.store ==> DueLater(h, n)
  }

  predicate DeletesSucceed(ops: seq<Op>) {
    forall i :: 0 <= i < |ops| ==> !(ops[i].Visit? && ops[i].deleteFails)
  }

  lemma StepForgetsNothing(h: History, op: Op)
    requires NothingForgotten(h) && Possible(h, op) && !(op.Visit? && op.deleteFails)
    ensures NothingForgotten(Happened(h, op))
  {
    var h' := Happened(h, op);
    forall n | n in h'.store ensures DueLater(h', n) {
      if n in h.store {
        assert DueLater(h, n);
        if op.Begin? {
          assert IsListed(op.listed, n);
        }
      }
    }
  }

  lemma {:induction false} RunForgetsNothing(store: Store, now: int, ops: seq<Op>)
    requires Feasible(Initial(store, now), ops) && DeletesSucceed(ops)
    ensures NothingForgotten(Run(Initial(store, now), ops))
  {
    if ops == [] {
      assert forall n :: n in store ==> DueLater(Initial(store, now), n);
    } else {
      RunForgetsNothing(store, now, ops[..|ops| - 1]);
      StepForgetsNothing(Run(Initial(store, now), ops[..|ops| - 1]), ops[|ops| - 1]);
    }
  }

  /** When a cycle is over, no record is left that was due before it began, however long it took. */
  lemma CompletedCycleLeavesNothingDue(store: Store, now: int, ops: seq<Op>, name: string)
    requires Feasible(Initial(store, now), ops) && DeletesSucceed(ops)
    requires var h := Run(Initial(store, now), ops); h.rest == [] && name in h.store && h.store[name].ttl.For?
    ensures var h := Run(Initial(store, now), ops); name in h.storedAt && Due(h, name) >= h.start
  {
    RunForgetsNothing(store, now, ops);
    assert DueLater(Run(Initial(store, now), ops), name);
  }

  /** The next cycle begins at most `interval` after the last one did, and each takes at most `length`. */
  predicate OnTime(h: History, op: Op, interval: int, length: int) {
    op.at <= h.start + if h.rest == [] then interval else length
  }

  ghost predicate Timely(h: History, ops: seq<Op>, interval: int, length: int) {
    ops == [] || (Timely(h, ops[..|ops| - 1], interval, length) &&
                  OnTime(Run(h, ops[..|ops| - 1]), ops[|ops| - 1], interval, length))
  }

  ghost predicate WithinInterval(h: History, n: string, interval: int)
    requires n in h.store && n in h.storedAt
  {
    h.store[n].ttl.For? ==> h.start <= Due(h, n) + interval
  }

  /** The clock against the latest cycle, and the latest cycle against what is due. */
  ghost predicate OnSchedule(h: History, interval: int, length: int) {
    && NothingForgotten(h)
    && h.clock <= h.start + (if h.rest == [] then Max(interval, length) else length)
    && forall n :: n in h.store ==> WithinInterval(h, n, interval)
  }

  lemma StepStaysOnSchedule(h: History, op: Op, interval: int, length: int)
    requires OnSchedule(h, interval, length) && interval >= 0 && length >= 0
    requires Possible(h, op) && !(op.Visit? && op.deleteFails) && OnTime(h, op, interval, length)
    ensures OnSchedule(Happened(h, op), interval, length)
  {
    var h' := Happened(h, op);
    StepForgetsNothing(h, op);
    forall n | n in h'.store ensures WithinInterval(h', n, interval) {
      if n in h.store {
        assert WithinInterval(h, n, interval) && DueLater(h, n);
      }
    }
  }

  lemma {:induction false} RunStaysOnSchedule(store: Store, now: int, ops: seq<Op>, interval: int, length: int)
    requires Feasible(Initial(store, now), ops) && DeletesSucceed(ops)
    requires interval >= 0 && length >= 0 && Timely(Initial(store, now), ops, interval, length)
    ensures OnSchedule(Run(Initial(store, now), ops), interval, length)
  {
    if ops == [] {
      RunForgetsNothing(store, now, ops);
    } else {
      RunStaysOnSchedule(store, now, ops[..|ops| - 1], interval, length);
      StepStaysOnSchedule(Run(Initial(store, now), ops[..|ops| - 1]), ops[|ops| - 1], interval, length);
    }
  }

  /**
   Deadline. With cycles at most `interval` apart and deletes that succeed, a record is removed by a cycle
   that begins no later than `interval` after its time to live ended (or after it came in, if later): it is
   not there any more once that cycle is over or a later one has begun, and so never longer than that
   and the length of a cycle.
   */
  lemma NoRecordOverstays(store: Store, now: int, ops: seq<Op>, interval: int, length: int, name: string)
    requires Feasible(Initial(store, now), ops) && DeletesSucceed(ops)
    requires interval >= 0 && length >= 0 && Timely(Initial(store, now), ops, interval, length)
    requires var h := Run(Initial(store, now), ops); name in h.store && h.store[name].ttl.For?
    ensures var h := Run(Initial(store, now), ops);
            && name in h.storedAt
            && h.start <= Due(h, name) + interval
            && (h.rest == [] ==> h.start <= Due(h, name))
            && h.clock <= Due(h, name) + interval + length
  {
    RunStaysOnSchedule(store, now, ops, interval, length);
    var h := Run(Initial(store, now), ops);
    assert DueLater(h, name) && WithinInterval(h, name, interval);
  }
}
