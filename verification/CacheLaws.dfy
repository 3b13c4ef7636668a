/** The LRU cache against a plain map, over all sequences of operations. */
module CacheLaws {
  import opened Messages
  import opened Cache
  import opened Sequences

  /** `plain` is what an unbounded cache would hold; `lastUse` the time of every key's last
      write or hit. */
  datatype World = World(store: Store, plain: map<string, Entry>, lastUse: map<string, nat>, clock: nat)

  datatype Op =
    | Get(key: string, now: int)
    | Set(key: string, entry: Entry)
    | Delete(key: string)
    | Invalidate(tags: seq<string>)

  function Start(): World {
    World(Store([], map[]), map[], map[], 0)
  }

  function Used(w: World, key: string): World {
    w.(lastUse := w.lastUse[key := w.clock])
  }

  function PlainTagged(plain: map<string, Entry>, tags: seq<string>): set<string> {
    set k | k in plain && exists t :: t in tags && t in plain[k].tags
  }

  function Next(w: World, maxEntries: nat, op: Op): World {
    var w' := match op
      case Get(key, now) =>
        var v := if Live(w.store, key, now) then Used(w, key) else w;
        v.(store := AfterGet(w.store, key, now),
           plain := if key in w.plain && w.plain[key].expiresAt <= now then w.plain - {key} else w.plain)
      case Set(key, e) =>
        Used(w, key).(store := AfterSet(w.store, maxEntries, key, e), plain := w.plain[key := e])
      case Delete(key) => w.(store := Dropped(w.store, {key}), plain := w.plain - {key})
      case Invalidate(tags) =>
        w.(store := Dropped(w.store, Tagged(w.store, tags)), plain := w.plain - PlainTagged(w.plain, tags));
    w'.(clock := w.clock + 1)
  }

  function After(w: World, maxEntries: nat, ops: seq<Op>): World
    decreases |ops|
  {
    if ops == [] then w else After(Next(w, maxEntries, ops[0]), maxEntries, ops[1..])
  }

  /** The keys used after the last use of `key`. */
  function UsedSince(lastUse: map<string, nat>, key: string): set<string> {
    set k | k in lastUse && key in lastUse && lastUse[k] > lastUse[key]
  }

  // ---------------------------------------------------------------- invariant

  /** The order of the store is the order of last use. */
  ghost predicate ByLastUse(order: seq<string>, lastUse: map<string, nat>) {
    && (forall k :: k in order ==> k in lastUse)
    && forall i, j :: 0 <= i < j < |order| ==> lastUse[order[i]] < lastUse[order[j]]
  }

  ghost predicate Invariant(w: World, maxEntries: nat) {
    && Coherent(w.store) && |w.store.order| <= maxEntries
    && ByLastUse(w.store.order, w.lastUse)
    && (forall k :: k in w.store.items ==> k in w.plain && w.plain[k] == w.store.items[k])
    && (forall k :: k in w.plain ==> k in w.lastUse)
    && (forall k :: k in w.lastUse ==> w.lastUse[k] < w.clock)
    && (forall k :: k in w.plain && k !in w.store.items ==> |UsedSince(w.lastUse, k)| >= maxEntries)
  }

  lemma {:induction false} WithoutKeepsOrder(order: seq<string>, gone: set<string>, lastUse: map<string, nat>)
    requires ByLastUse(order, lastUse)
    ensures ByLastUse(Without(order, gone), lastUse)
  {
    if order != [] {
      OthersAreLater(order, gone, lastUse);
      WithoutKeepsOrder(order[1..], gone, lastUse);
    }
  }

  lemma {:induction false} OthersAreLater(order: seq<string>, gone: set<string>, lastUse: map<string, nat>)
    requires order != [] && ByLastUse(order, lastUse)
    ensures ByLastUse(order[1..], lastUse)
    ensures forall k <- Without(order[1..], gone) :: k in lastUse && lastUse[order[0]] < lastUse[k]
  {
    assert forall i :: 0 <= i < |order| - 1 ==> order[1..][i] == order[i + 1];
    WithoutFacts(order[1..], gone);
    hide Without, Distinct;
    forall k | k in order[1..]
      ensures k in lastUse && lastUse[order[0]] < lastUse[k]
    {
      var i :| 0 <= i < |order| - 1 && order[1..][i] == k;
      assert order[i + 1] == k;
    }
  }

  /** Moving a key to the end at a new time keeps the order. */
  lemma {:induction false} TouchKeepsOrder(order: seq<string>, key: string, lastUse: map<string, nat>, clock: nat)
    requires ByLastUse(order, lastUse) && forall k :: k in lastUse ==> lastUse[k] < clock
    ensures ByLastUse(Without(order, {key}) + [key], lastUse[key := clock])
  {
    WithoutKeepsOrder(order, {key}, lastUse);
    WithoutFacts(order, {key});
    var rest := Without(order, {key});
    assert forall i :: 0 <= i < |rest| ==> rest[i] in rest && rest[i] != key;
  }

  /** Using a key never shrinks what was used since another key's last use. */
  lemma {:induction false} UseGrowsOthers(lastUse: map<string, nat>, key: string, clock: nat, k: string)
    requires k in lastUse && k != key && forall j :: j in lastUse ==> lastUse[j] < clock
    ensures UsedSince(lastUse, k) <= UsedSince(lastUse[key := clock], k)
    ensures |UsedSince(lastUse, k)| <= |UsedSince(lastUse[key := clock], k)|
  {
    var a, b := UsedSince(lastUse, k), UsedSince(lastUse[key := clock], k);
    assert a <= b;
    assert b == a + (b - a);
  }

  // ---------------------------------------------------------------- eviction

  /** Everything after the first key of the order was used since it was. */
  lemma {:induction false} OthersUsedSince(order: seq<string>, lastUse: map<string, nat>)
    requires order != [] && Distinct(order) && ByLastUse(order, lastUse)
    ensures |UsedSince(lastUse, order[0])| >= |order| - 1
  {
    var rest := order[1..];
    assert forall i :: 0 <= i < |rest| ==> rest[i] == order[i + 1];
    DistinctCount(rest);
    var newer := set k | k in rest;
    var used := UsedSince(lastUse, order[0]);
    assert order[0] in order;
    assert newer <= used;
    assert used == newer + (used - newer);
  }

  ghost predicate Bounded(s: Store, plain: map<string, Entry>, lastUse: map<string, nat>, maxEntries: nat) {
    && Coherent(s) && ByLastUse(s.order, lastUse)
    && (forall k :: k in s.items ==> k in plain && plain[k] == s.items[k])
    && (forall k :: k in plain ==> k in lastUse)
    && (forall k :: k in plain && k !in s.items ==> |UsedSince(lastUse, k)| >= maxEntries)
  }

  lemma {:induction false} EvictOneKeepsBounded(
    s: Store, plain: map<string, Entry>, lastUse: map<string, nat>, maxEntries: nat)
    requires Bounded(s, plain, lastUse, maxEntries) && |s.order| > maxEntries
    ensures Bounded(Store(s.order[1..], s.items - {s.order[0]}), plain, lastUse, maxEntries)
  {
    var t := Store(s.order[1..], s.items - {s.order[0]});
    OldestIsFirst(s);
    DropKeepsCoherent(s, {s.order[0]});
    OthersUsedSince(s.order, lastUse);
    assert forall i :: 0 <= i < |t.order| ==> t.order[i] == s.order[i + 1];
    hide UsedSince, Without, Coherent;
  }

  lemma {:induction false} EvictKeepsBounded(
    s: Store, plain: map<string, Entry>, lastUse: map<string, nat>, maxEntries: nat)
    requires Bounded(s, plain, lastUse, maxEntries)
    ensures Bounded(Evicted(s, maxEntries), plain, lastUse, maxEntries)
    ensures |Evicted(s, maxEntries).order| <= maxEntries
    decreases |s.order|
  {
    hide Bounded;
    if |s.order| > maxEntries {
      EvictOneKeepsBounded(s, plain, lastUse, maxEntries);
      EvictKeepsBounded(Store(s.order[1..], s.items - {s.order[0]}), plain, lastUse, maxEntries);
    }
  }

  // ---------------------------------------------------------------- steps

  lemma {:induction false} InsertIsBounded(w: World, maxEntries: nat, key: string, e: Entry)
    requires Invariant(w, maxEntries)
    ensures Bounded(Store(Without(w.store.order, {key}) + [key], w.store.items[key := e]),
                    w.plain[key := e], w.lastUse[key := w.clock], maxEntries)
  {
    hide Without, Distinct, UsedSince;
    InsertKeepsCoherent(w.store, key, e);
    TouchKeepsOrder(w.store.order, key, w.lastUse, w.clock);
    forall k | k in w.plain && k != key && k !in w.store.items
      ensures |UsedSince(w.lastUse[key := w.clock], k)| >= maxEntries
    {
      UseGrowsOthers(w.lastUse, key, w.clock, k);
    }
  }

  lemma {:induction false} SetKeepsInvariant(w: World, maxEntries: nat, op: Op)
    requires Invariant(w, maxEntries) && op.Set?
    ensures Invariant(Next(w, maxEntries, op), maxEntries)
  {
    hide Without, Distinct, UsedSince, Evicted, ByLastUse;
    InsertIsBounded(w, maxEntries, op.key, op.entry);
    EvictKeepsBounded(Store(Without(w.store.order, {op.key}) + [op.key], w.store.items[op.key := op.entry]),
                      w.plain[op.key := op.entry], w.lastUse[op.key := w.clock], maxEntries);
  }

  lemma {:induction false} DropKeepsInvariant(w: World, maxEntries: nat, gone: set<string>, plainGone: set<string>)
    requires Invariant(w, maxEntries)
    requires forall k :: k in gone && k in w.plain ==> k in plainGone || k !in w.store.items
    requires forall k :: k in plainGone && k in w.store.items ==> k in gone
    ensures Invariant(w.(store := Dropped(w.store, gone), plain := w.plain - plainGone, clock := w.clock + 1),
                      maxEntries)
  {
    hide Without, Distinct, UsedSince, ByLastUse;
    DropKeepsCoherent(w.store, gone);
    WithoutKeepsOrder(w.store.order, gone, w.lastUse);
  }

  lemma {:induction false} HitKeepsInvariant(w: World, maxEntries: nat, key: string, now: int)
    requires Invariant(w, maxEntries) && Live(w.store, key, now)
    ensures Invariant(Next(w, maxEntries, Get(key, now)), maxEntries)
  {
    hide Without, Distinct, UsedSince;
    TouchKeepsCoherent(w.store, key);
    TouchKeepsOrder(w.store.order, key, w.lastUse, w.clock);
    forall k | k in w.plain && k !in w.store.items
      ensures |UsedSince(w.lastUse[key := w.clock], k)| >= maxEntries
    {
      UseGrowsOthers(w.lastUse, key, w.clock, k);
    }
  }

  lemma {:induction false} MissKeepsInvariant(w: World, maxEntries: nat, key: string, now: int)
    requires Invariant(w, maxEntries) && !Live(w.store, key, now)
    ensures Invariant(Next(w, maxEntries, Get(key, now)), maxEntries)
  {
    hide Distinct, UsedSince, ByLastUse;
    var gone := if key in w.store.items then {key} else {};
    var plainGone := if key in w.plain && w.plain[key].expiresAt <= now then {key} else {};
    DropKeepsInvariant(w, maxEntries, gone, plainGone);
    if key !in w.store.items {
      WithoutNothing(w.store.order, {});
      assert w.store.items - {} == w.store.items;
    }
    assert w.plain - {} == w.plain;
  }

  lemma {:induction false} StepKeepsInvariant(w: World, maxEntries: nat, op: Op)
    requires Invariant(w, maxEntries)
    ensures Invariant(Next(w, maxEntries, op), maxEntries)
  {
    match op
    case Get(key, now) =>
      if Live(w.store, key, now) {
        HitKeepsInvariant(w, maxEntries, key, now);
      } else {
        MissKeepsInvariant(w, maxEntries, key, now);
      }
    case Set(_, _) => SetKeepsInvariant(w, maxEntries, op);
    case Delete(key) =>
      hide Invariant;
      DropKeepsInvariant(w, maxEntries, {key}, {key});
    case Invalidate(tags) =>
      hide Distinct, UsedSince, ByLastUse, Without;
      DropKeepsInvariant(w, maxEntries, Tagged(w.store, tags), PlainTagged(w.plain, tags));
  }

  lemma {:induction false} RunKeepsInvariant(w: World, maxEntries: nat, ops: seq<Op>)
    requires Invariant(w, maxEntries)
    ensures Invariant(After(w, maxEntries, ops), maxEntries)
    decreases |ops|
  {
    hide Invariant, Next;
    if ops != [] {
      StepKeepsInvariant(w, maxEntries, ops[0]);
      RunKeepsInvariant(Next(w, maxEntries, ops[0]), maxEntries, ops[1..]);
    }
  }

  // ---------------------------------------------------------------- theorem

  function Found(s: Store, key: string, now: int): Option<string> {
    if Live(s, key, now) then Some(s.items[key].value) else None
  }

  /** After any operations: a hit returns the value a plain map holds, and a value the plain map
      holds is missed only if at least `maxEntries` other keys were used since its last use. */
  lemma {:induction false} AgreesWithPlainMap(maxEntries: nat, ops: seq<Op>, key: string, now: int)
    ensures var w := After(Start(), maxEntries, ops);
      var held := if key in w.plain && w.plain[key].expiresAt > now then Some(w.plain[key].value) else None;
      && |w.store.items.Keys| <= maxEntries
      && (Found(w.store, key, now).Some? ==> Found(w.store, key, now) == held)
      && (Found(w.store, key, now) != held ==> |UsedSince(w.lastUse, key)| >= maxEntries)
      && key !in UsedSince(w.lastUse, key)
  {
    RunKeepsInvariant(Start(), maxEntries, ops);
    var w := After(Start(), maxEntries, ops);
    DistinctCount(w.store.order);
    assert w.store.items.Keys == set k | k in w.store.order;
  }
}
