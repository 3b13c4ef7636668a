/** The bounded LRU cache with expiry and tags. */
module Cache {
  import opened Messages
  import opened Sequences

  datatype Entry = Entry(expiresAt: int, value: string, tags: seq<string>)

  type TagIndex = map<string, set<string>>

  /** `order` lists the keys from least to most recently used. */
  datatype Store = Store(order: seq<string>, items: map<string, Entry>)

  // ---------------------------------------------------------------- ordered keys

  /** The order with some keys taken out. */
  function Without(order: seq<string>, gone: set<string>): seq<string> {
    if order == [] then []
    else if order[0] in gone then Without(order[1..], gone)
    else [order[0]] + Without(order[1..], gone)
  }

  lemma {:induction false} WithoutFacts(order: seq<string>, gone: set<string>)
    ensures forall k :: k in Without(order, gone) <==> k in order && k !in gone
    ensures Distinct(order) ==> Distinct(Without(order, gone))
    ensures |Without(order, gone)| <= |order|
  {
    if order != [] {
      WithoutFacts(order[1..], gone);
      if Distinct(order) {
        assert forall i :: 0 <= i < |order| - 1 ==> order[1..][i] == order[i + 1];
        assert order[0] !in order[1..];
      }
    }
  }

  lemma {:induction false} WithoutTwice(order: seq<string>, a: set<string>, b: set<string>)
    ensures Without(Without(order, a), b) == Without(order, a + b)
  {
    if order != [] {
      WithoutTwice(order[1..], a, b);
      if order[0] !in a {
        var rest := Without(order[1..], a);
        assert ([order[0]] + rest)[1..] == rest;
      }
    }
  }

  lemma {:induction false} WithoutNothing(order: seq<string>, gone: set<string>)
    requires forall k :: k in gone ==> k !in order
    ensures Without(order, gone) == order
  {
    if order != [] {
      assert order[0] in order;
      WithoutNothing(order[1..], gone);
    }
  }

  // ---------------------------------------------------------------- the tag index

  function AllTags(items: map<string, Entry>): set<string> {
    set k, t | k in items && t in items[k].tags :: t
  }

  function Carriers(items: map<string, Entry>, tag: string): set<string> {
    set k | k in items && tag in items[k].tags
  }

  /** The keys that carry a tag, for every tag that some key carries. */
  function IndexOf(items: map<string, Entry>): TagIndex {
    map t | t in AllTags(items) :: Carriers(items, t)
  }

  /** The key forgotten under some tags; tags left empty disappear. */
  function Forgotten(index: TagIndex, key: string, tags: seq<string>): TagIndex {
    map t | t in index && (t in tags ==> index[t] - {key} != {}) ::
      if t in tags then index[t] - {key} else index[t]
  }

  function Remembered(index: TagIndex, key: string, tags: seq<string>): TagIndex {
    map t | t in index.Keys + (set x | x in tags) ::
      (if t in index then index[t] else {}) + (if t in tags then {key} else {})
  }

  lemma {:induction false} ForgetOneMore(index: TagIndex, key: string, tags: seq<string>, tag: string)
    ensures var f := Forgotten(index, key, tags);
      Forgotten(index, key, tags + [tag]) ==
        if tag !in f then f else if f[tag] - {key} == {} then f - {tag} else f[tag := f[tag] - {key}]
  {
    var f, g := Forgotten(index, key, tags), Forgotten(index, key, tags + [tag]);
    assert forall t :: t in tags + [tag] <==> t in tags || t == tag;
    if tag in index {
      assert (index[tag] - {key}) - {key} == index[tag] - {key};
    }
    assert forall t :: t in g ==> t in f;
    assert forall t :: t != tag ==> (t in g <==> t in f);
    assert forall t :: t != tag && t in g ==> g[t] == f[t];
  }

  lemma {:induction false} RememberNone(index: TagIndex, key: string)
    ensures Remembered(index, key, []) == index
  {
    var r := Remembered(index, key, []);
    assert index.Keys + (set x | x in []) == index.Keys;
    assert forall t :: t in index ==> r[t] == index[t] + {} == index[t];
  }

  lemma {:induction false} RememberOneMore(index: TagIndex, key: string, tags: seq<string>, tag: string)
    ensures var f := Remembered(index, key, tags);
      Remembered(index, key, tags + [tag]) == f[tag := (if tag in f then f[tag] else {}) + {key}]
  {
    var f, g := Remembered(index, key, tags), Remembered(index, key, tags + [tag]);
    assert forall t :: t in tags + [tag] <==> t in tags || t == tag;
    assert forall t :: t in g <==> t in f || t == tag;
    assert forall t :: t != tag && t in g ==> g[t] == f[t];
    var held := if tag in index then index[tag] else {};
    assert g[tag] == held + {key};
    assert (held + if tag in tags then {key} else {}) + {key} == held + {key};
  }

  method RemoveTags(index: TagIndex, key: string, tags: seq<string>) returns (r: TagIndex)
    ensures r == Forgotten(index, key, tags)
  {
    r := index;
    assert r == Forgotten(index, key, []);
    for i := 0 to |tags|
      invariant r == Forgotten(index, key, tags[..i])
    {
      var tag := tags[i];
      assert tags[..i + 1] == tags[..i] + [tag];
      ForgetOneMore(index, key, tags[..i], tag);
      if tag in r {
        var members := r[tag] - {key};
        if members == {} {
          r := r - {tag};
        } else {
          r := r[tag := members];
        }
      }
    }
    assert tags[..|tags|] == tags;
  }

  method AddTags(index: TagIndex, key: string, tags: seq<string>) returns (r: TagIndex)
    ensures r == Remembered(index, key, tags)
  {
    r := index;
    RememberNone(index, key);
    for i := 0 to |tags|
      invariant r == Remembered(index, key, tags[..i])
    {
      assert tags[..i + 1] == tags[..i] + [tags[i]];
      RememberOneMore(index, key, tags[..i], tags[i]);
      r := r[tags[i] := (if tags[i] in r then r[tags[i]] else {}) + {key}];
    }
    assert tags[..|tags|] == tags;
  }

  lemma {:induction false} ForgettingIndexes(items: map<string, Entry>, key: string)
    requires key in items
    ensures Forgotten(IndexOf(items), key, items[key].tags) == IndexOf(items - {key})
  {
    var less, index := items - {key}, Forgotten(IndexOf(items), key, items[key].tags);
    forall t
      ensures Carriers(less, t) == Carriers(items, t) - {key}
    {
    }
    forall t
      ensures t in index <==> t in IndexOf(less)
    {
      TagInIndex(items, t);
      TagInIndex(less, t);
    }
    forall t | t in index
      ensures index[t] == IndexOf(less)[t]
    {
    }
  }

  lemma {:induction false} TagInIndex(items: map<string, Entry>, t: string)
    ensures t in IndexOf(items) <==> Carriers(items, t) != {}
  {
    if Carriers(items, t) != {} {
      var k :| k in Carriers(items, t);
      assert k in items && t in items[k].tags;
      assert t in AllTags(items);
    }
    if t in AllTags(items) {
      var k :| k in items && t in items[k].tags;
      assert k in Carriers(items, t);
    }
  }

  lemma {:induction false} RememberingIndexes(items: map<string, Entry>, key: string, e: Entry)
    requires key !in items
    ensures Remembered(IndexOf(items), key, e.tags) == IndexOf(items[key := e])
  {
    var more, index := items[key := e], Remembered(IndexOf(items), key, e.tags);
    forall t
      ensures Carriers(more, t) == Carriers(items, t) + if t in e.tags then {key} else {}
    {
    }
    forall t
      ensures t in index <==> t in IndexOf(more)
    {
      TagInIndex(items, t);
      TagInIndex(more, t);
    }
    forall t | t in index
      ensures index[t] == IndexOf(more)[t]
    {
      TagInIndex(items, t);
    }
  }

  // ---------------------------------------------------------------- operations on values

  function Dropped(s: Store, gone: set<string>): Store {
    Store(Without(s.order, gone), s.items - gone)
  }

  function Touched(s: Store, key: string): Store {
    s.(order := Without(s.order, {key}) + [key])
  }

  function Evicted(s: Store, maxEntries: nat): Store
    decreases |s.order|
  {
    if |s.order| <= maxEntries then s
    else Evicted(Store(s.order[1..], s.items - {s.order[0]}), maxEntries)
  }

  predicate Live(s: Store, key: string, now: int) {
    key in s.items && s.items[key].expiresAt > now
  }

  function AfterGet(s: Store, key: string, now: int): Store {
    if key !in s.items then s
    else if !Live(s, key, now) then Dropped(s, {key})
    else Touched(s, key)
  }

  function AfterSet(s: Store, maxEntries: nat, key: string, e: Entry): Store {
    Evicted(Store(Without(s.order, {key}) + [key], s.items[key := e]), maxEntries)
  }

  function Tagged(s: Store, tags: seq<string>): set<string> {
    set k | k in s.items && exists t :: t in tags && t in s.items[k].tags
  }

  // ---------------------------------------------------------------- the cache object

  /** The keys in order are exactly the keys stored, each once. */
  ghost predicate Coherent(s: Store) {
    Distinct(s.order) && forall k :: k in s.order <==> k in s.items
  }

  class InMemoryCacheStore {
    const maxEntries: nat
    var order: seq<string>
    var items: map<string, Entry>
    var tags: TagIndex

    function Value(): Store
      reads this
    {
      Store(order, items)
    }

    ghost predicate Valid()
      reads this
    {
      Coherent(Value()) && |order| <= maxEntries && tags == IndexOf(items)
    }

    constructor (maxEntries: nat)
      ensures Valid() && Value() == Store([], map[]) && this.maxEntries == maxEntries
    {
      this.maxEntries, order, items, tags := maxEntries, [], map[], map[];
    }

    /** Takes one key out of the three fields. */
    method Pop(key: string)
      requires key in items && tags == IndexOf(items)
      modifies this`order, this`items, this`tags
      ensures Value() == Dropped(old(Value()), {key}) && tags == IndexOf(items)
    {
      ForgettingIndexes(items, key);
      tags := RemoveTags(tags, key, items[key].tags);
      order, items := Without(order, {key}), items - {key};
    }

    method Get(key: string, now: int) returns (r: Option<string>)
      requires Valid()
      modifies this`order, this`items, this`tags
      ensures Valid() && Value() == AfterGet(old(Value()), key, now)
      ensures r == if Live(old(Value()), key, now) then Some(old(items)[key].value) else None
    {
      hide Without, Distinct, IndexOf;
      DropKeepsCoherent(Value(), {key});
      TouchKeepsCoherent(Value(), key);
      if key !in items {
        return None;
      }
      if items[key].expiresAt <= now {
        Pop(key);
        return None;
      }
      order := Without(order, {key}) + [key];
      return Some(items[key].value);
    }

    method Set(key: string, value: string, ttl: int, entryTags: seq<string>, now: int)
      requires Valid()
      modifies this`order, this`items, this`tags
      ensures Valid()
      ensures Value() == AfterSet(old(Value()), maxEntries, key, Entry(now + ttl, value, entryTags))
    {
      hide Without, Distinct, IndexOf;
      DropKeepsCoherent(Value(), {key});
      ghost var before := Value();
      if key in items {
        Pop(key);
      } else {
        WithoutNothing(order, {key});
      }
      var e := Entry(now + ttl, value, entryTags);
      assert Value() == Dropped(before, {key});
      RememberingIndexes(items, key, e);
      tags := AddTags(tags, key, entryTags);
      order, items := order + [key], items[key := e];
      assert items == before.items[key := e];
      InsertKeepsCoherent(before, key, e);
      ghost var full := Value();
      while |order| > maxEntries
        invariant Coherent(Value()) && tags == IndexOf(items)
        invariant Evicted(Value(), maxEntries) == Evicted(full, maxEntries)
        decreases |order|
      {
        OldestIsFirst(Value());
        DropKeepsCoherent(Value(), {order[0]});
        Pop(order[0]);
      }
    }

    method Delete(key: string)
      requires Valid()
      modifies this`order, this`items, this`tags
      ensures Valid() && Value() == Dropped(old(Value()), {key})
    {
      hide Without, Distinct, IndexOf;
      DropKeepsCoherent(Value(), {key});
      if key in items {
        Pop(key);
      } else {
        WithoutNothing(order, {key});
        assert items - {key} == items;
      }
    }

    /** Removes and counts exactly the entries that carry one of the tags. */
    method InvalidateTags(dropTags: seq<string>) returns (count: nat)
      requires Valid()
      modifies this`order, this`items, this`tags
      ensures Valid()
      ensures Value() == Dropped(old(Value()), Tagged(old(Value()), dropTags))
      ensures count == |Tagged(old(Value()), dropTags)|
    {
      var keys: set<string> := {};
      for i := 0 to |dropTags|
        invariant Valid() && Value() == old(Value())
        invariant keys == Tagged(Value(), dropTags[..i])
      {
        assert dropTags[..i + 1] == dropTags[..i] + [dropTags[i]];
        TagInIndex(items, dropTags[i]);
        keys := keys + if dropTags[i] in tags then tags[dropTags[i]] else {};
      }
      assert dropTags[..|dropTags|] == dropTags;
      count := |keys|;
      PopAll(keys);
    }

    method PopAll(keys: set<string>)
      requires Valid() && keys <= items.Keys
      modifies this`order, this`items, this`tags
      ensures Valid() && Value() == Dropped(old(Value()), keys)
    {
      hide Without, Distinct, IndexOf;
      ghost var before := Value();
      var left := keys;
      WithoutNothing(order, {});
      assert items - {} == items && keys - left == {};
      while left != {}
        invariant left <= keys && tags == IndexOf(items)
        invariant Value() == Dropped(before, keys - left)
        decreases |left|
      {
        var key :| key in left;
        Pop(key);
        WithoutTwice(before.order, keys - left, {key});
        assert (keys - left) + {key} == keys - (left - {key});
        left := left - {key};
      }
      assert keys - left == keys;
      DropKeepsCoherent(before, keys);
    }
  }

  lemma {:induction false} DropKeepsCoherent(s: Store, gone: set<string>)
    requires Coherent(s)
    ensures Coherent(Dropped(s, gone)) && |Dropped(s, gone).order| <= |s.order|
  {
    hide Without, Distinct;
    WithoutFacts(s.order, gone);
  }

  lemma {:induction false} TouchKeepsCoherent(s: Store, key: string)
    requires Coherent(s)
    ensures key in s.items ==> Coherent(Touched(s, key)) && |Touched(s, key).order| == |s.order|
  {
    if key in s.items {
      hide Without, Distinct;
      WithoutFacts(s.order, {key});
      DistinctSnoc(Without(s.order, {key}), key);
      WithoutOneCounts(s.order, key);
    }
  }

  lemma {:induction false} WithoutOneCounts(order: seq<string>, key: string)
    requires Distinct(order) && key in order
    ensures |Without(order, {key})| == |order| - 1
  {
    assert forall i :: 0 <= i < |order| - 1 ==> order[1..][i] == order[i + 1];
    if order[0] == key {
      WithoutNothing(order[1..], {key});
    } else {
      WithoutOneCounts(order[1..], key);
    }
  }

  lemma {:induction false} InsertKeepsCoherent(s: Store, key: string, e: Entry)
    requires Coherent(s)
    ensures Coherent(Store(Without(s.order, {key}) + [key], s.items[key := e]))
  {
    hide Without, Distinct;
    WithoutFacts(s.order, {key});
    DistinctSnoc(Without(s.order, {key}), key);
  }

  lemma {:induction false} OldestIsFirst(s: Store)
    requires Coherent(s) && |s.order| > 0
    ensures s.order[0] in s.items
    ensures Dropped(s, {s.order[0]}) == Store(s.order[1..], s.items - {s.order[0]})
  {
    var rest := s.order[1..];
    assert s.order[0] in s.order;
    assert forall i :: 0 <= i < |rest| ==> rest[i] == s.order[i + 1];
    WithoutNothing(rest, {s.order[0]});
  }
}
