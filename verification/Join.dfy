/** `join_results`: a hash join with a declared relationship. */
module Join {
  import opened Messages

  /** A row; the value None is null. */
  type Row<V> = map<string, Option<V>>

  /** An input of the node: a list of rows, or anything else. */
  datatype Table<V> = Rows(rows: seq<Row<V>>) | Other

  datatype Relationship = OneToOne | ManyToOne | OneToMany | ManyToMany

  datatype JoinError = Unusable | FanOut

  /** A missing key counts as null. */
  function KeyOf<V>(row: Row<V>, keys: seq<string>): seq<Option<V>> {
    seq(|keys|, i requires 0 <= i < |keys| => if keys[i] in row then row[keys[i]] else None)
  }

  /** The left row, with what the right row adds outside the join keys. */
  function Merge<V>(row: Row<V>, match_: Row<V>, keys: seq<string>): Row<V> {
    row + (match_ - set k | k in keys)
  }

  // ---------------------------------------------------------------- the nested-loop reference

  function Matches<V(==)>(row: Row<V>, right: seq<Row<V>>, keys: seq<string>): seq<Row<V>> {
    if right == [] then []
    else
      (if KeyOf(right[0], keys) == KeyOf(row, keys) then [right[0]] else [])
      + Matches(row, right[1..], keys)
  }

  function JoinRow<V(==)>(row: Row<V>, right: seq<Row<V>>, keys: seq<string>): seq<Row<V>> {
    var ms := Matches(row, right, keys);
    if ms == [] then [row]
    else seq(|ms|, i requires 0 <= i < |ms| => Merge(row, ms[i], keys))
  }

  function LeftJoin<V(==)>(left: seq<Row<V>>, right: seq<Row<V>>, keys: seq<string>): seq<Row<V>> {
    if left == [] then [] else JoinRow(left[0], right, keys) + LeftJoin(left[1..], right, keys)
  }

  /** Two right rows share a key. */
  ghost predicate FansOut<V>(right: seq<Row<V>>, keys: seq<string>) {
    exists i, j :: 0 <= i < j < |right| && KeyOf(right[i], keys) == KeyOf(right[j], keys)
  }

  // ---------------------------------------------------------------- the hash index

  /** The index holds, under each key that occurs, the rows with that key in order. */
  ghost predicate Indexes<V>(index: map<seq<Option<V>>, seq<Row<V>>>, right: seq<Row<V>>, keys: seq<string>) {
    && (forall key :: key in index ==> index[key] != [] && index[key] == WithKey(right, keys, key))
    && (forall i :: 0 <= i < |right| ==> KeyOf(right[i], keys) in index)
  }

  function WithKey<V(==)>(right: seq<Row<V>>, keys: seq<string>, key: seq<Option<V>>): seq<Row<V>> {
    if right == [] then []
    else
      WithKey(right[..|right| - 1], keys, key)
      + if KeyOf(right[|right| - 1], keys) == key then [right[|right| - 1]] else []
  }

  lemma {:induction false} WithKeyAppend<V>(
    a: seq<Row<V>>, b: seq<Row<V>>, keys: seq<string>, key: seq<Option<V>>)
    ensures WithKey(a + b, keys, key) == WithKey(a, keys, key) + WithKey(b, keys, key)
  {
    if b == [] {
      assert a + b == a;
    } else {
      assert (a + b)[..|a + b| - 1] == a + b[..|b| - 1];
      WithKeyAppend(a, b[..|b| - 1], keys, key);
    }
  }

  lemma {:induction false} MatchesIsWithKey<V>(row: Row<V>, right: seq<Row<V>>, keys: seq<string>)
    ensures Matches(row, right, keys) == WithKey(right, keys, KeyOf(row, keys))
  {
    if right != [] {
      MatchesIsWithKey(row, right[1..], keys);
      assert right == [right[0]] + right[1..];
      WithKeyAppend([right[0]], right[1..], keys, KeyOf(row, keys));
      assert [right[0]][..0] == [];
    }
  }

  lemma {:induction false} NotIndexed<V>(right: seq<Row<V>>, keys: seq<string>, key: seq<Option<V>>)
    requires forall i :: 0 <= i < |right| ==> KeyOf(right[i], keys) != key
    ensures WithKey(right, keys, key) == []
  {
    if right != [] {
      NotIndexed(right[..|right| - 1], keys, key);
    }
  }

  lemma {:induction false} FewWithKey<V>(right: seq<Row<V>>, keys: seq<string>, key: seq<Option<V>>)
    ensures |WithKey(right, keys, key)| > 1 ==> FansOut(right, keys)
    ensures |WithKey(right, keys, key)| > 0 ==>
              exists i :: 0 <= i < |right| && KeyOf(right[i], keys) == key
  {
    if right != [] {
      var front, last := right[..|right| - 1], |right| - 1;
      FewWithKey(front, keys, key);
      if FansOut(front, keys) {
        var i, j :| 0 <= i < j < |front| && KeyOf(front[i], keys) == KeyOf(front[j], keys);
        assert KeyOf(right[i], keys) == KeyOf(right[j], keys);
      }
      if |WithKey(front, keys, key)| > 0 {
        var i :| 0 <= i < |front| && KeyOf(front[i], keys) == key;
        assert KeyOf(right[i], keys) == key;
        if KeyOf(right[last], keys) == key {
          assert KeyOf(right[i], keys) == KeyOf(right[last], keys);
        }
      }
    }
  }

  lemma {:induction false} ManyWithKey<V>(right: seq<Row<V>>, keys: seq<string>, i: nat, j: nat)
    requires i < j < |right| && KeyOf(right[i], keys) == KeyOf(right[j], keys)
    ensures |WithKey(right, keys, KeyOf(right[i], keys))| > 1
  {
    var key := KeyOf(right[i], keys);
    assert right == right[..i] + [right[i]] + right[i + 1..j] + [right[j]] + right[j + 1..];
    assert [right[i]][..0] == [] && [right[j]][..0] == [];
    WithKeyAppend(right[..i] + [right[i]] + right[i + 1..j] + [right[j]], right[j + 1..], keys, key);
    WithKeyAppend(right[..i] + [right[i]] + right[i + 1..j], [right[j]], keys, key);
    WithKeyAppend(right[..i] + [right[i]], right[i + 1..j], keys, key);
    WithKeyAppend(right[..i], [right[i]], keys, key);
  }

  method BuildIndex<V(==)>(right: seq<Row<V>>, keys: seq<string>)
    returns (index: map<seq<Option<V>>, seq<Row<V>>>)
    ensures Indexes(index, right, keys)
  {
    index := map[];
    for i := 0 to |right|
      invariant Indexes(index, right[..i], keys)
    {
      var row := right[i];
      var key := KeyOf(row, keys);
      assert right[..i + 1] == right[..i] + [row];
      assert right[..i + 1][..i] == right[..i];
      if key !in index {
        assert forall j :: 0 <= j < i ==> KeyOf(right[..i][j], keys) in index;
        NotIndexed(right[..i], keys, key);
        index := index[key := [row]];
      } else {
        index := index[key := index[key] + [row]];
      }
    }
    assert right[..|right|] == right;
  }

  method AnyFanOut<V(==)>(
    index: map<seq<Option<V>>, seq<Row<V>>>, ghost right: seq<Row<V>>, ghost keys: seq<string>)
    returns (found: bool)
    requires Indexes(index, right, keys)
    ensures found <==> FansOut(right, keys)
  {
    hide WithKey, KeyOf;
    found := exists key :: key in index && |index[key]| > 1;
    if found {
      ghost var key :| key in index && |index[key]| > 1;
      FewWithKey(right, keys, key);
    } else if FansOut(right, keys) {
      ghost var i, j :| 0 <= i < j < |right| && KeyOf(right[i], keys) == KeyOf(right[j], keys);
      ManyWithKey(right, keys, i, j);
    }
  }

  /** The output rows of one left row, given the right rows that share its key. */
  method JoinOne<V(==)>(row: Row<V>, matches: seq<Row<V>>, keys: seq<string>, ghost right: seq<Row<V>>)
    returns (rows: seq<Row<V>>)
    requires matches == Matches(row, right, keys)
    ensures rows == JoinRow(row, right, keys)
  {
    hide Matches, Merge;
    if matches == [] {
      return [row];
    }
    rows := [];
    for j := 0 to |matches|
      invariant rows == JoinRow(row, right, keys)[..j]
    {
      rows := rows + [Merge(row, matches[j], keys)];
    }
  }

  /** The join refuses exactly an input that is no list, a missing key list or a forbidden fan-out,
      and otherwise is the order-preserving nested-loop left join. */
  method JoinResults<V(==)>(l: Table<V>, r: Table<V>, keys: seq<string>, relationship: Relationship)
    returns (result: Result<seq<Row<V>>, JoinError>)
    ensures l.Other? || r.Other? || keys == [] ==> result == Err(Unusable)
    ensures l.Rows? && r.Rows? && keys != [] ==>
      var forbidden := relationship in {OneToOne, ManyToOne} && FansOut(r.rows, keys);
      result == if forbidden then Err(FanOut) else Ok(LeftJoin(l.rows, r.rows, keys))
  {
    hide Indexes, FansOut, JoinRow, Matches, KeyOf;
    if l.Other? || r.Other? || keys == [] {
      return Err(Unusable);
    }
    var left, right := l.rows, r.rows;
    var index := BuildIndex(right, keys);
    if relationship == OneToOne || relationship == ManyToOne {
      var fansOut := AnyFanOut(index, right, keys);
      if fansOut {
        return Err(FanOut);
      }
    }
    var output: seq<Row<V>> := [];
    for i := 0 to |left|
      invariant output + LeftJoin(left[i..], right, keys) == LeftJoin(left, right, keys)
    {
      var key := KeyOf(left[i], keys);
      LookupFindsMatches(index, left[i], right, keys);
      var rows := JoinOne(left[i], if key in index then index[key] else [], keys, right);
      assert left[i..][1..] == left[i + 1..];
      output := output + rows;
    }
    assert left[|left|..] == [];
    assert output + [] == output == LeftJoin(left, right, keys);
    result := Ok(output);
  }

  lemma {:induction false} LookupFindsMatches<V>(
    index: map<seq<Option<V>>, seq<Row<V>>>, row: Row<V>, right: seq<Row<V>>, keys: seq<string>)
    requires Indexes(index, right, keys)
    ensures Matches(row, right, keys) ==
            if KeyOf(row, keys) in index then index[KeyOf(row, keys)] else []
  {
    var key := KeyOf(row, keys);
    MatchesIsWithKey(row, right, keys);
    if key !in index {
      NotIndexed(right, keys, key);
    }
  }

  /** Without fan-out the join has one output row per left row, which keeps every left value and
      takes the join keys from the left. */
  lemma {:induction false} AcceptedJoinKeepsRows<V>(left: seq<Row<V>>, right: seq<Row<V>>, keys: seq<string>)
    requires !FansOut(right, keys)
    ensures |LeftJoin(left, right, keys)| == |left|
    ensures forall i :: 0 <= i < |left| ==>
      var row := LeftJoin(left, right, keys)[i];
      || row == left[i]
      || exists m :: m in right && KeyOf(m, keys) == KeyOf(left[i], keys) && row == Merge(left[i], m, keys)
  {
    if left != [] {
      AcceptedJoinKeepsRows(left[1..], right, keys);
      var ms := Matches(left[0], right, keys);
      MatchesIsWithKey(left[0], right, keys);
      FewWithKey(right, keys, KeyOf(left[0], keys));
      MatchesMatch(left[0], right, keys);
      assert |ms| <= 1;
      assert |JoinRow(left[0], right, keys)| == 1;
      if ms != [] {
        assert ms[0] in right && KeyOf(ms[0], keys) == KeyOf(left[0], keys);
        assert JoinRow(left[0], right, keys)[0] == Merge(left[0], ms[0], keys);
      }
    }
  }

  // ---------------------------------------------------------------- what the output holds

  /** The value of a column, null if it is missing. */
  function ColumnOf<V>(row: Row<V>, k: string): Option<V> {
    if k in row then row[k] else None
  }

  ghost predicate SameKey<V>(l: Row<V>, r: Row<V>, keys: seq<string>) {
    forall k <- keys :: ColumnOf(l, k) == ColumnOf(r, k)
  }

  /** Column by column: a join key is the left row's, any other column is the right row's if it has
      it, and the left row's otherwise. */
  ghost predicate JoinedFrom<V>(row: Row<V>, l: Row<V>, r: Row<V>, keys: seq<string>) {
    && (forall k :: k in row <==> k in l || (k in r && k !in keys))
    && (forall k <- row :: row[k] == if k in r && k !in keys then r[k] else l[k])
  }

  lemma {:induction false} KeyMeans<V>(l: Row<V>, r: Row<V>, keys: seq<string>)
    ensures KeyOf(l, keys) == KeyOf(r, keys) <==> SameKey(l, r, keys)
  {
    if KeyOf(l, keys) == KeyOf(r, keys) {
      forall k | k in keys
        ensures ColumnOf(l, k) == ColumnOf(r, k)
      {
        var i :| 0 <= i < |keys| && keys[i] == k;
        assert KeyOf(l, keys)[i] == KeyOf(r, keys)[i];
      }
    } else {
      var i :| 0 <= i < |keys| && KeyOf(l, keys)[i] != KeyOf(r, keys)[i];
      assert ColumnOf(l, keys[i]) != ColumnOf(r, keys[i]);
    }
  }

  lemma {:induction false} MergeMeans<V>(l: Row<V>, r: Row<V>, keys: seq<string>)
    ensures JoinedFrom(Merge(l, r, keys), l, r, keys)
  {
  }

  /** Where the matches come from: the right rows from `start` on with the same key, in order. */
  lemma {:induction false} MatchesAre<V>(row: Row<V>, right: seq<Row<V>>, keys: seq<string>, start: nat)
    returns (at: seq<nat>)
    requires start <= |right|
    ensures |at| == |Matches(row, right[start..], keys)|
    ensures forall p :: 0 <= p < |at| ==>
      start <= at[p] < |right| && Matches(row, right[start..], keys)[p] == right[at[p]]
    ensures forall p, q :: 0 <= p < q < |at| ==> at[p] < at[q]
    ensures forall j :: start <= j < |right| ==> (j in at <==> SameKey(row, right[j], keys))
    decreases |right| - start
  {
    if start == |right| {
      at := [];
    } else {
      var rest := MatchesAre(row, right, keys, start + 1);
      assert right[start..][1..] == right[start + 1..] && right[start..][0] == right[start];
      KeyMeans(right[start], row, keys);
      hide KeyOf, SameKey;
      SameKeySymmetric(right[start], row, keys);
      at := (if KeyOf(right[start], keys) == KeyOf(row, keys) then [start] else []) + rest;
    }
  }

  lemma {:induction false} SameKeySymmetric<V>(l: Row<V>, r: Row<V>, keys: seq<string>)
    ensures SameKey(l, r, keys) <==> SameKey(r, l, keys)
  {
  }

  /** The output of one left row: the row itself if no right row shares its key, and otherwise one joined
      row for each right row that does, in their order. */
  lemma {:induction false} JoinRowMeans<V>(row: Row<V>, right: seq<Row<V>>, keys: seq<string>)
    returns (at: seq<nat>)
    ensures forall p :: 0 <= p < |at| ==> at[p] < |right|
    ensures forall p, q :: 0 <= p < q < |at| ==> at[p] < at[q]
    ensures forall j :: 0 <= j < |right| ==> (j in at <==> SameKey(row, right[j], keys))
    ensures at == [] ==> JoinRow(row, right, keys) == [row]
    ensures at != [] ==>
      && |JoinRow(row, right, keys)| == |at|
      && forall p :: 0 <= p < |at| ==> JoinedFrom(JoinRow(row, right, keys)[p], row, right[at[p]], keys)
  {
    at := MatchesAre(row, right, keys, 0);
    assert right[0..] == right;
    hide Matches, SameKey, Merge, JoinedFrom;
    forall p | 0 <= p < |at|
      ensures JoinedFrom(Merge(row, right[at[p]], keys), row, right[at[p]], keys)
    {
      MergeMeans(row, right[at[p]], keys);
    }
  }

  /** The output of the join is that of its left rows, one after the other. */
  lemma {:induction false} JoinGoesRowByRow<V>(a: seq<Row<V>>, row: Row<V>, right: seq<Row<V>>, keys: seq<string>)
    ensures LeftJoin(a + [row], right, keys) == LeftJoin(a, right, keys) + JoinRow(row, right, keys)
  {
    hide JoinRow;
    if a == [] {
      assert a + [row] == [row] && [row][1..] == [];
    } else {
      assert (a + [row])[1..] == a[1..] + [row];
      JoinGoesRowByRow(a[1..], row, right, keys);
    }
  }

  lemma {:induction false} MatchesMatch<V>(row: Row<V>, right: seq<Row<V>>, keys: seq<string>)
    ensures forall m :: m in Matches(row, right, keys) ==> m in right && KeyOf(m, keys) == KeyOf(row, keys)
  {
    if right != [] {
      MatchesMatch(row, right[1..], keys);
    }
  }
}
