/** Dependency graphs of analytical nodes: `validate_references` and `validate_dag`. */
module Dag {
  import opened Sequences

  /** `inputs` maps an input name to the node whose result it reads. */
  datatype Node = Node(id: string, dependencies: seq<string>, inputs: map<string, string>)

  datatype Graph = Graph(nodes: seq<Node>, maximumNodes: nat)

  /** From each node to what it depends on. */
  type Dependencies = map<string, seq<string>>

  predicate ReferencesValid(n: Node) {
    && (forall name :: name in n.inputs ==> n.inputs[name] in n.dependencies)
    && n.id !in n.dependencies
  }

  function Ids(nodes: seq<Node>): seq<string> {
    seq(|nodes|, i requires 0 <= i < |nodes| => nodes[i].id)
  }

  function DependencyMap(nodes: seq<Node>): Dependencies {
    if nodes == [] then map[]
    else DependencyMap(nodes[..|nodes| - 1])[nodes[|nodes| - 1].id := nodes[|nodes| - 1].dependencies]
  }

  // ---------------------------------------------------------------- cycles

  predicate Edge(d: Dependencies, a: string, b: string) {
    a in d && b in d[a]
  }

  /** `p` follows dependencies, each element depending on the next. */
  ghost predicate Path(d: Dependencies, p: seq<string>) {
    |p| > 0 && forall i :: 0 <= i < |p| - 1 ==> Edge(d, p[i], p[i + 1])
  }

  ghost predicate Cycle(d: Dependencies, p: seq<string>) {
    Path(d, p) && |p| > 1 && p[0] == p[|p| - 1]
  }

  ghost predicate Acyclic(d: Dependencies) {
    forall p :: !Cycle(d, p)
  }

  ghost predicate Closed(d: Dependencies) {
    forall a, b :: Edge(d, a, b) ==> b in d
  }

  /** Accepted: within the node limit, unique ids, known dependencies and no cycle. */
  ghost predicate Accepted(g: Graph) {
    && |g.nodes| <= g.maximumNodes
    && Distinct(Ids(g.nodes))
    && (forall i :: 0 <= i < |g.nodes| ==> Elements(g.nodes[i].dependencies) <= Elements(Ids(g.nodes)))
    && Acyclic(DependencyMap(g.nodes))
  }

  /** Every node is listed after what it depends on. */
  ghost predicate Topological(d: Dependencies, order: seq<string>) {
    forall i, b :: 0 <= i < |order| && Edge(d, order[i], b) ==> b in order[..i]
  }

  function FirstIndex(s: seq<string>, x: string): (k: nat)
    requires x in s
    ensures k < |s| && s[k] == x && x !in s[..k]
  {
    if s[0] == x then 0 else 1 + FirstIndex(s[1..], x)
  }

  lemma {:induction false} PathDescends(d: Dependencies, order: seq<string>, p: seq<string>)
    requires Topological(d, order) && Path(d, p)
    requires forall i :: 0 <= i < |p| ==> p[i] in order
    ensures |p| > 1 ==> FirstIndex(order, p[|p| - 1]) < FirstIndex(order, p[0])
  {
    if |p| > 1 {
      var k := FirstIndex(order, p[0]);
      assert Edge(d, p[0], p[1]);
      assert p[1] in order[..k];
      IndexInPrefix(order, p[1], k);
      assert forall i :: 0 <= i < |p| - 2 ==> Edge(d, p[1..][i], p[1..][i + 1]);
      PathDescends(d, order, p[1..]);
    }
  }

  lemma {:induction false} IndexInPrefix(s: seq<string>, x: string, k: nat)
    requires k <= |s| && x in s[..k]
    ensures FirstIndex(s, x) < k
  {
    if s[0] != x {
      assert s[..k][1..] == s[1..][..k - 1];
      IndexInPrefix(s[1..], x, k - 1);
    }
  }

  lemma {:induction false} OrderedIsAcyclic(d: Dependencies, order: seq<string>)
    requires Closed(d) && Topological(d, order) && d.Keys <= Elements(order)
    ensures Acyclic(d)
  {
    forall p | Cycle(d, p)
      ensures false
    {
      forall i | 0 <= i < |p|
        ensures p[i] in order
      {
        if i < |p| - 1 {
          assert Edge(d, p[i], p[i + 1]);
        } else {
          assert Edge(d, p[0], p[1]);
        }
      }
      PathDescends(d, order, p);
    }
  }

  // ---------------------------------------------------------------- the depth-first check

  class Validator {
    const dependencies: Dependencies
    var visiting: set<string>
    var visited: set<string>
    /** The finished nodes in the order they finished. */
    ghost var order: seq<string>

    ghost predicate Valid()
      reads this
    {
      && Closed(dependencies)
      && visited == Elements(order)
      && visited <= dependencies.Keys
      && Topological(dependencies, order)
    }

    constructor (d: Dependencies)
      requires Closed(d)
      ensures Valid() && dependencies == d && visiting == {} && visited == {}
    {
      dependencies, visiting, visited, order := d, {}, {}, [];
    }

    /** Visits `id` below the open nodes of `path`; fails exactly by finding a cycle. */
    method Visit(id: string, ghost path: seq<string>) returns (ok: bool)
      requires Valid() && id in dependencies
      requires visiting == Elements(path) && visiting <= dependencies.Keys
      requires Path(dependencies, path + [id])
      modifies this
      ensures ok ==> Valid() && visiting == old(visiting) && old(visited) <= visited && id in visited
      ensures !ok ==> !Acyclic(dependencies)
      decreases |dependencies.Keys - visiting|
    {
      hide Topological, Path, Acyclic, Closed, Elements, Edge;
      ElementsMeaning(path, id);
      if id in visiting {
        CycleClosed(dependencies, path, id);
        return false;
      }
      if id in visited {
        return true;
      }
      FewerLeft(dependencies.Keys, visiting, id);
      visiting := visiting + {id};
      ghost var before := visited;
      for i := 0 to |dependencies[id]|
        invariant Valid() && visiting == old(visiting) + {id} && before <= visited
        invariant forall j :: 0 <= j < i ==> dependencies[id][j] in visited
      {
        var dependency := dependencies[id][i];
        EdgeAt(dependencies, id, i);
        ClosedMeans(dependencies, id, dependency);
        PathExtends(dependencies, path + [id], dependency);
        ok := Visit(dependency, path + [id]);
        if !ok {
          return false;
        }
      }
      visiting := visiting - {id};
      visited := visited + {id};
      OrderExtends(dependencies, order, id);
      ElementsMeaning(order, id);
      order := order + [id];
      return true;
    }
  }

  lemma {:induction false} ElementsMeaning(s: seq<string>, x: string)
    ensures x in Elements(s) <==> x in s
    ensures Elements(s + [x]) == Elements(s) + {x}
  {
  }

  lemma {:induction false} FewerLeft(keys: set<string>, visiting: set<string>, id: string)
    requires id in keys && id !in visiting
    ensures |keys - (visiting + {id})| < |keys - visiting|
  {
    assert keys - (visiting + {id}) == (keys - visiting) - {id};
  }

  lemma {:induction false} EdgeAt(d: Dependencies, a: string, i: nat)
    requires a in d && i < |d[a]|
    ensures Edge(d, a, d[a][i])
  {
  }

  lemma {:induction false} ClosedMeans(d: Dependencies, a: string, b: string)
    requires Closed(d) && Edge(d, a, b)
    ensures b in d
  {
  }

  lemma {:induction false} CycleClosed(d: Dependencies, path: seq<string>, id: string)
    requires Path(d, path + [id]) && id in path
    ensures !Acyclic(d)
  {
    var k :| 0 <= k < |path| && path[k] == id;
    var whole := path + [id];
    var p := whole[k..];
    forall i | 0 <= i < |p| - 1
      ensures Edge(d, p[i], p[i + 1])
    {
      assert Edge(d, whole[k + i], whole[k + i + 1]);
    }
    assert Cycle(d, p);
  }

  lemma {:induction false} PathExtends(d: Dependencies, p: seq<string>, b: string)
    requires Path(d, p) && Edge(d, p[|p| - 1], b)
    ensures Path(d, p + [b])
  {
  }

  lemma {:induction false} OrderExtends(d: Dependencies, order: seq<string>, id: string)
    requires Topological(d, order) && id in d
    requires forall j :: 0 <= j < |d[id]| ==> d[id][j] in Elements(order)
    ensures Topological(d, order + [id])
  {
    forall i, b | 0 <= i < |order + [id]| && Edge(d, (order + [id])[i], b)
      ensures b in (order + [id])[..i]
    {
      if i < |order| {
        assert (order + [id])[..i] == order[..i];
      } else {
        assert (order + [id])[..i] == order;
      }
    }
  }

  lemma {:induction false} DependencyMapKeys(nodes: seq<Node>)
    ensures DependencyMap(nodes).Keys == Elements(Ids(nodes))
    ensures forall a :: a in DependencyMap(nodes) ==>
              exists i :: 0 <= i < |nodes| && nodes[i].id == a && DependencyMap(nodes)[a] == nodes[i].dependencies
  {
    if nodes != [] {
      var front, n := nodes[..|nodes| - 1], nodes[|nodes| - 1];
      DependencyMapKeys(front);
      assert Ids(nodes) == Ids(front) + [n.id];
      forall a | a in DependencyMap(nodes)
        ensures exists i :: 0 <= i < |nodes| && nodes[i].id == a && DependencyMap(nodes)[a] == nodes[i].dependencies
      {
        if a == n.id {
          assert nodes[|nodes| - 1].id == a;
        } else {
          var i :| 0 <= i < |front| && front[i].id == a && DependencyMap(front)[a] == front[i].dependencies;
          assert nodes[i] == front[i];
        }
      }
    }
  }

  lemma {:induction false} KnownIsClosed(nodes: seq<Node>)
    requires forall i :: 0 <= i < |nodes| ==> Elements(nodes[i].dependencies) <= Elements(Ids(nodes))
    ensures Closed(DependencyMap(nodes))
  {
    var d := DependencyMap(nodes);
    DependencyMapKeys(nodes);
    forall a, b | Edge(d, a, b)
      ensures b in d
    {
      var i :| 0 <= i < |nodes| && nodes[i].id == a && d[a] == nodes[i].dependencies;
      assert b in Elements(nodes[i].dependencies);
    }
  }

  /** `validate_dag` accepts exactly the graphs it should. */
  method ValidateDag(g: Graph) returns (ok: bool)
    ensures ok <==> Accepted(g)
  {
    if |g.nodes| > g.maximumNodes {
      return false;
    }
    var ids := Ids(g.nodes);
    DistinctCount(ids);
    if |ids| != |Elements(ids)| {
      return false;
    }
    var known := Elements(ids);
    for i := 0 to |g.nodes|
      invariant forall j :: 0 <= j < i ==> Elements(g.nodes[j].dependencies) <= known
    {
      if !(Elements(g.nodes[i].dependencies) <= known) {
        return false;
      }
    }
    KnownIsClosed(g.nodes);
    DependencyMapKeys(g.nodes);
    var dependencies := DependencyMap(g.nodes);
    var v := new Validator(dependencies);
    for i := 0 to |ids|
      invariant v.Valid() && v.dependencies == dependencies && v.visiting == {}
      invariant forall j :: 0 <= j < i ==> ids[j] in v.visited
    {
      assert ids[i] in Elements(ids);
      assert [] + [ids[i]] == [ids[i]];
      ok := v.Visit(ids[i], []);
      if !ok {
        return false;
      }
    }
    OrderedIsAcyclic(dependencies, v.order);
    return true;
  }
}
