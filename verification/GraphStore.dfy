/** The in-memory store of analytical graphs, with optimistic versions. */
module GraphStore {
  import opened Messages
  import opened Engine

  datatype Stored<V> = Stored(tenant: string, graph: GraphState<V>)

  class InMemoryAnalyticalGraphStore<V> {
    var states: map<string, Stored<V>>

    constructor ()
      ensures states == map[]
    {
      states := map[];
    }

    method Create(id: string, state: Stored<V>) returns (conflict: bool)
      modifies this
      ensures conflict <==> id in old(states)
      ensures states == if conflict then old(states) else old(states)[id := state]
    {
      if id in states {
        return true;
      }
      states := states[id := state];
      return false;
    }

    method Get(id: string, tenant: string) returns (r: Option<Stored<V>>)
      ensures r.Some? <==> id in states && states[id].tenant == tenant
      ensures r.Some? ==> r.value == states[id]
    {
      if id !in states || states[id].tenant != tenant {
        return None;
      }
      return Some(states[id]);
    }

    /** Refused exactly when the graph is gone or is not at the version the caller loaded. */
    method Save(id: string, state: Stored<V>) returns (conflict: bool, saved: Stored<V>)
      modifies this
      ensures conflict <==> id !in old(states) || !MaySave(old(states)[id].graph, state.graph)
      ensures saved == if conflict then state else state.(graph := Saved(state.graph))
      ensures states == if conflict then old(states) else old(states)[id := saved]
    {
      if id !in states || states[id].graph.version != state.graph.version {
        return true, state;
      }
      saved := state.(graph := state.graph.(version := state.graph.version + 1));
      states := states[id := saved];
      conflict := false;
    }
  }
}
