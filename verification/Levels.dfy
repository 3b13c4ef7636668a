/** Ranks and levels of an acyclic dependency graph. */
module Levels {
  import opened Dag
  import opened Sequences

  /** A number for every node, smaller for what it depends on. */
  ghost predicate Ranked(d: Dependencies, rank: map<string, nat>) {
    && rank.Keys == d.Keys
    && forall a, b :: Edge(d, a, b) ==> b in d && rank[b] < rank[a]
  }

  /** Outside a set that is closed under dependencies there is a node just above it. */
  lemma {:induction false} FindReady(d: Dependencies, done: set<string>, path: seq<string>) returns (n: string)
    requires Closed(d) && Acyclic(d)
    requires Path(d, path) && Distinct(path)
    requires forall i :: 0 <= i < |path| ==> path[i] in d && path[i] !in done
    ensures n in d && n !in done && forall b :: Edge(d, n, b) ==> b in done
    decreases |d.Keys| - |path|
  {
    n := path[|path| - 1];
    if !forall b :: Edge(d, n, b) ==> b in done {
      var b :| Edge(d, n, b) && b !in done;
      PathExtends(d, path, b);
      if b in path {
        CycleClosed(d, path, b);
      } else {
        DistinctSnoc(path, b);
        DistinctCount(path + [b]);
        Contained(Elements(path + [b]), d.Keys);
        n := FindReady(d, done, path + [b]);
      }
    }
  }

  lemma {:induction false} Contained(small: set<string>, large: set<string>)
    requires small <= large
    ensures |small| <= |large|
  {
    assert large == small + (large - small);
  }

  lemma {:induction false} ExtendRank(d: Dependencies, rank: map<string, nat>) returns (full: map<string, nat>)
    requires Closed(d) && Acyclic(d)
    requires rank.Keys <= d.Keys
    requires forall a, b :: a in rank && Edge(d, a, b) ==> b in rank && rank[b] < rank[a]
    requires forall a :: a in rank ==> rank[a] < |rank.Keys|
    ensures Ranked(d, full)
    decreases |d.Keys| - |rank.Keys|
  {
    Contained(rank.Keys, d.Keys);
    if d.Keys - rank.Keys == {} {
      assert rank.Keys == d.Keys;
      full := rank;
    } else {
      var x :| x in d.Keys - rank.Keys;
      var n := FindReady(d, rank.Keys, [x]);
      var more := rank[n := |rank.Keys|];
      assert more.Keys == rank.Keys + {n};
      Contained(more.Keys, d.Keys);
      full := ExtendRank(d, more);
    }
  }

  lemma {:induction false} AcyclicHasRank(d: Dependencies)
    requires Closed(d) && Acyclic(d)
    ensures exists rank :: Ranked(d, rank)
  {
    var rank := ExtendRank(d, map[]);
  }

  ghost function RankOf(d: Dependencies): (rank: map<string, nat>)
    requires Closed(d) && Acyclic(d)
    ensures Ranked(d, rank)
  {
    AcyclicHasRank(d);
    var rank :| Ranked(d, rank);
    rank
  }

  // ---------------------------------------------------------------- longest dependency chains

  ghost function Level(d: Dependencies, n: string): nat
    requires Closed(d) && Acyclic(d) && n in d
    decreases RankOf(d)[n], |d[n]| + 1
  {
    HighestOf(d, n, |d[n]|)
  }

  /** One more than the highest level among the first `k` dependencies, or 0 without any. */
  ghost function HighestOf(d: Dependencies, n: string, k: nat): nat
    requires Closed(d) && Acyclic(d) && n in d && k <= |d[n]|
    decreases RankOf(d)[n], k
  {
    if k == 0 then 0
    else
      assert Edge(d, n, d[n][k - 1]);
      var rest, here := HighestOf(d, n, k - 1), Level(d, d[n][k - 1]) + 1;
      if rest < here then here else rest
  }

  lemma {:induction false} HighestFacts(d: Dependencies, n: string, k: nat)
    requires Closed(d) && Acyclic(d) && n in d && k <= |d[n]|
    ensures forall i :: 0 <= i < k ==> d[n][i] in d && Level(d, d[n][i]) < HighestOf(d, n, k)
    ensures HighestOf(d, n, k) > 0 ==>
              exists i :: 0 <= i < k && d[n][i] in d && Level(d, d[n][i]) + 1 == HighestOf(d, n, k)
  {
    if k > 0 {
      HighestFacts(d, n, k - 1);
      assert Edge(d, n, d[n][k - 1]);
    }
  }

  /** A dependency is on a lower level, and unless a node depends on nothing some dependency is
      exactly one level below it. */
  lemma {:induction false} LevelFacts(d: Dependencies, n: string)
    requires Closed(d) && Acyclic(d) && n in d
    ensures forall b :: Edge(d, n, b) ==> b in d && Level(d, b) < Level(d, n)
    ensures Level(d, n) > 0 ==> exists b :: Edge(d, n, b) && b in d && Level(d, b) + 1 == Level(d, n)
  {
    HighestFacts(d, n, |d[n]|);
    forall b | Edge(d, n, b)
      ensures b in d && Level(d, b) < Level(d, n)
    {
      var i :| 0 <= i < |d[n]| && d[n][i] == b;
    }
    if Level(d, n) > 0 {
      var i :| 0 <= i < |d[n]| && d[n][i] in d && Level(d, d[n][i]) + 1 == HighestOf(d, n, |d[n]|);
      assert Edge(d, n, d[n][i]);
    }
  }

  /** No chain of dependencies from a node is longer than its level. */
  lemma {:induction false} ChainsAreShort(d: Dependencies, p: seq<string>)
    requires Closed(d) && Acyclic(d) && Path(d, p) && p[0] in d
    ensures |p| - 1 <= Level(d, p[0])
  {
    hide Level, Acyclic;
    if |p| > 1 {
      assert Edge(d, p[0], p[1]);
      LevelFacts(d, p[0]);
      assert forall i :: 0 <= i < |p| - 2 ==> Edge(d, p[1..][i], p[1..][i + 1]);
      ChainsAreShort(d, p[1..]);
    }
  }

  /** And some chain is exactly that long. */
  lemma {:induction false} LongestChain(d: Dependencies, n: string) returns (p: seq<string>)
    requires Closed(d) && Acyclic(d) && n in d
    ensures Path(d, p) && p[0] == n && |p| - 1 == Level(d, n)
    decreases Level(d, n)
  {
    hide Level, Acyclic;
    LevelFacts(d, n);
    if Level(d, n) == 0 {
      p := [n];
    } else {
      var b :| Edge(d, n, b) && b in d && Level(d, b) + 1 == Level(d, n);
      var q := LongestChain(d, b);
      p := [n] + q;
      forall i | 0 <= i < |p| - 1
        ensures Edge(d, p[i], p[i + 1])
      {
        if i > 0 {
          assert Edge(d, q[i - 1], q[i]);
        }
      }
    }
  }
}
