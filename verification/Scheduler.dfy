/** The scheduling loop of the graph engine as an object that updates a graph in place. Each of
    its steps is a step of the driver machine of `Engine`. */
module Scheduler {
  import opened Engine

  function Incomplete<V>(s: GraphState<V>): set<string> {
    set n | n in s.nodes && s.nodes[n] != Completed
  }

  /** Nodes whose status already rules out completion. */
  function Blocked<V>(s: GraphState<V>): set<string> {
    set n | n in s.nodes && (s.nodes[n] == Failed || s.nodes[n] == Cancelled)
  }

  class GraphRun<V(!new)> {
    const nodes: Nodes
    const handler: Handler<V>
    var status: GraphStatus
    var statuses: map<string, NodeStatus>
    var results: map<string, V>

    constructor (nodes: Nodes, handler: Handler<V>, saved: GraphState<V>)
      ensures this.nodes == nodes && this.handler == handler
      ensures Value() == Loaded(saved).(version := 0)
    {
      this.nodes, this.handler := nodes, handler;
      status, statuses, results := InProgress, Loaded(saved).nodes, saved.results;
    }

    function Value(): GraphState<V>
      reads this
    {
      GraphState(status, statuses, results, 0)
    }

    /** Runs one node of the round; `fails` says that its handler fails. */
    method ExecuteNode(n: string, fails: bool, ghost drv: Driver<V>) returns (ghost drv': Driver<V>)
      requires WellFormed(nodes) && DriverValid(nodes, handler, drv) && drv.mem == Value()
      requires Can(nodes, drv, StartNode(n)) && drv.phase.active == {}
      modifies this`statuses, this`results
      ensures DriverValid(nodes, handler, drv') && drv'.mem == Value() && drv'.base == drv.base
      ensures drv'.phase == InRound(drv.phase.ready, drv.phase.todo - {n}, {},
                                    if fails then drv.phase.erred + {n} else drv.phase.erred)
      ensures statuses == old(statuses)[n := if fails then Failed else Completed]
    {
      hide WellFormed, Consistent, Eval, RoundValid;
      drv' := Act(nodes, handler, drv, StartNode(n));
      ActKeepsValid(nodes, handler, drv, StartNode(n));
      statuses := statuses[n := Running];
      OpenNode(nodes, handler, drv', n);
      DriverIsConsistent(nodes, handler, drv');
      ResolvedInputsEvaluate(nodes, handler, drv'.mem, n);
      ActKeepsValid(nodes, handler, drv', ClearNode(n));
      drv' := Act(nodes, handler, drv', ClearNode(n));
      if fails {
        ActKeepsValid(nodes, handler, drv', FailNode(n));
        drv' := Act(nodes, handler, drv', FailNode(n));
        statuses := statuses[n := Failed];
      } else {
        ActKeepsValid(nodes, handler, drv', FinishNode(n));
        drv' := Act(nodes, handler, drv', FinishNode(n));
        results := results[n := handler(nodes[n], ResolveInputs(nodes, Value(), n))];
        statuses := statuses[n := Completed];
      }
      assert {} + {n} - {n} == {};
    }

    /** Runs every node of an open round, in some order. */
    method RunRound(ready: set<string>, fails: set<string>, ghost drv: Driver<V>)
      returns (erred: set<string>, ghost drv': Driver<V>)
      requires WellFormed(nodes) && DriverValid(nodes, handler, drv) && drv.mem == Value()
      requires drv.phase == InRound(ready, ready, {}, {})
      modifies this`statuses, this`results
      ensures DriverValid(nodes, handler, drv') && drv'.mem == Value()
      ensures drv'.phase == InRound(ready, {}, {}, erred) && drv'.base == drv.base
      ensures erred == ready * fails
      ensures statuses == Ran(old(statuses), ready, fails)
    {
      hide WellFormed, DriverValid, Ran;
      var todo, done := ready, {};
      drv', erred := drv, {};
      NothingRan(statuses, fails);
      while todo != {}
        invariant todo !! done && todo + done == ready
        invariant DriverValid(nodes, handler, drv') && drv'.mem == Value()
        invariant drv'.phase == InRound(ready, todo, {}, erred) && drv'.base == drv.base
        invariant erred == done * fails
        invariant statuses == Ran(old(statuses), done, fails)
        decreases |todo|
      {
        var n :| n in todo;
        OneMoreRan(old(statuses), done, fails, n);
        drv' := ExecuteNode(n, n in fails, drv');
        if n in fails {
          erred := erred + {n};
        }
        todo, done := todo - {n}, done + {n};
      }
      assert done == ready;
    }

    /** The scheduling loop. It ends, never for want of a runnable node; it succeeds exactly when
        no node is blocked at the start and none still to be run fails; and then every node has
        the result that evaluating the graph gives. */
    method Schedule(fails: set<string>) returns (outcome: Outcome)
      requires WellFormed(nodes) && Consistent(nodes, handler, Value()) && Quiet(Value())
      modifies this`statuses, this`results
      ensures Consistent(nodes, handler, Value())
      ensures outcome == Done || outcome == FailedAt || outcome == NodeErrors
      ensures outcome == Done <==>
                Blocked(old(Value())) == {} && fails * (nodes.Keys - CompletedSet(old(Value()))) == {}
      ensures outcome == Done ==> results == map n | n in nodes :: Eval(nodes, handler, n)
      ensures CompletedSet(old(Value())) <= CompletedSet(Value())
    {
      ghost var start, drv := Value(), Driver(Value(), Scheduling, false, 0, CompletedSet(Value()), {});
      assert DriverValid(nodes, handler, drv);
      hide WellFormed, DriverValid, Consistent, Blocked, CompletedSet, Advanced, Ran, Eval, ReadySet, Incomplete, Act;
      AdvancedSelf(start, fails);
      while true
        invariant DriverValid(nodes, handler, drv) && drv.phase.Scheduling? && drv.mem == Value()
        invariant Consistent(nodes, handler, Value())
        invariant Advanced(start, Value(), fails)
        decreases |nodes.Keys - CompletedSet(Value())|
      {
        var incomplete := Incomplete(Value());
        if incomplete == {} {
          AllCompleted(nodes, handler, start, Value(), fails);
          return Done;
        }
        if Blocked(Value()) != {} {
          StillBlocked(start, Value(), fails);
          return FailedAt;
        }
        var ready := ReadySet(nodes, Value());
        RoundOpens(nodes, handler, drv);
        KnownNodes(nodes, handler, Value());
        if ready == {} {
          assert false;
        }
        ghost var before := Value();
        var erred;
        erred, drv := RunRound(ready, fails, drv.(phase := InRound(ready, ready, {}, {})));
        RoundCloses(nodes, handler, drv, start, before, fails);
        if erred != {} {
          return NodeErrors;
        }
        ShrinksBy(nodes.Keys, CompletedSet(before), CompletedSet(Value()));
        drv := drv.(phase := Scheduling, round := drv.round + 1, base := CompletedSet(drv.mem));
      }
    }
  }

  /** The statuses after some nodes ran. */
  function Ran(statuses: map<string, NodeStatus>, done: set<string>, fails: set<string>): map<string, NodeStatus> {
    map n | n in statuses.Keys + done ::
      if n in done then (if n in fails then Failed else Completed) else statuses[n]
  }

  lemma {:induction false} NothingRan(statuses: map<string, NodeStatus>, fails: set<string>)
    ensures Ran(statuses, {}, fails) == statuses
  {
  }

  lemma {:induction false} OneMoreRan(
    statuses: map<string, NodeStatus>, done: set<string>, fails: set<string>, n: string)
    ensures Ran(statuses, done, fails)[n := if n in fails then Failed else Completed]
         == Ran(statuses, done + {n}, fails)
  {
  }

  /** Only completions of nodes that do not fail separate the states. */
  ghost predicate Advanced<V>(a: GraphState<V>, b: GraphState<V>, fails: set<string>) {
    && a.nodes.Keys == b.nodes.Keys
    && forall n <- b.nodes ::
         b.nodes[n] == a.nodes[n] || (a.nodes[n] == Pending && b.nodes[n] == Completed && n !in fails)
  }

  lemma {:induction false} AdvancedSelf<V>(s: GraphState<V>, fails: set<string>)
    ensures Advanced(s, s, fails)
  {
  }

  lemma {:induction false} StillBlocked<V>(start: GraphState<V>, s: GraphState<V>, fails: set<string>)
    requires Advanced(start, s, fails) && Blocked(s) != {}
    ensures Blocked(start) != {} && CompletedSet(start) <= CompletedSet(s)
  {
    var n :| n in Blocked(s);
    assert n in Blocked(start);
  }

  lemma {:induction false} KnownNodes<V(!new)>(nodes: Nodes, h: Handler<V>, s: GraphState<V>)
    requires WellFormed(nodes) && Consistent(nodes, h, s)
    ensures s.nodes.Keys == nodes.Keys
  {
  }

  /** A round opens with something to run. */
  lemma {:induction false} RoundOpens<V(!new)>(nodes: Nodes, h: Handler<V>, drv: Driver<V>)
    requires WellFormed(nodes) && DriverValid(nodes, h, drv) && drv.phase.Scheduling?
    requires Incomplete(drv.mem) != {} && Blocked(drv.mem) == {}
    ensures var ready := ReadySet(nodes, drv.mem);
      && ready != {} && (forall n <- ready :: n in drv.mem.nodes && drv.mem.nodes[n] == Pending)
      && drv.base == CompletedSet(drv.mem)
      && DriverValid(nodes, h, drv.(phase := InRound(ready, ready, {}, {})))
  {
    hide WellFormed, Consistent, DependenciesIn;
    ActKeepsValid(nodes, h, drv, OpenRound);
    var s := drv.mem;
    var x :| x in Incomplete(s);
    assert s.nodes[x] != Completed;
    assert forall n :: n in s.nodes && (s.nodes[n] == Failed || s.nodes[n] == Cancelled) ==> n in Blocked(s);
  }

  /** A round without errors closes with more nodes complete. */
  lemma {:induction false} RoundCloses<V(!new)>(
    nodes: Nodes, h: Handler<V>, drv: Driver<V>, start: GraphState<V>, before: GraphState<V>, fails: set<string>)
    requires WellFormed(nodes) && DriverValid(nodes, h, drv)
    requires drv.phase.InRound? && drv.phase.todo == {} && drv.phase.active == {}
    requires Advanced(start, before, fails) && before.nodes.Keys == nodes.Keys
    requires forall n <- drv.phase.ready :: n in before.nodes && before.nodes[n] == Pending
    requires drv.base == CompletedSet(before)
    requires drv.mem.nodes == Ran(before.nodes, drv.phase.ready, fails)
    requires drv.phase.erred == drv.phase.ready * fails
    ensures Consistent(nodes, h, drv.mem)
    ensures CompletedSet(start) <= CompletedSet(drv.mem)
    ensures drv.phase.erred != {} ==> fails * (nodes.Keys - CompletedSet(start)) != {}
    ensures drv.phase.erred == {} ==> Advanced(start, drv.mem, fails)
    ensures drv.phase.erred == {} ==> CompletedSet(before) < CompletedSet(drv.mem) <= nodes.Keys
    ensures drv.phase.erred == {} ==>
      DriverValid(nodes, h, drv.(phase := Scheduling, round := drv.round + 1, base := CompletedSet(drv.mem)))
  {
    hide WellFormed, Eval, DependenciesIn;
    ActKeepsValid(nodes, h, drv, CloseRound);
    assert CompletedSet(start) <= CompletedSet(before);
    if drv.phase.erred != {} {
      var n :| n in drv.phase.erred;
      assert n in before.nodes && n in fails * (nodes.Keys - CompletedSet(start));
    }
  }

  lemma {:induction false} ShrinksBy(all: set<string>, a: set<string>, b: set<string>)
    requires a < b <= all
    ensures |all - b| < |all - a|
  {
    assert all - b < all - a by {
      var x :| x in b && x !in a;
      assert x in all - a && x !in all - b;
    }
    SmallerSet(all - b, all - a);
  }

  lemma {:induction false} SmallerSet(a: set<string>, b: set<string>)
    requires a < b
    ensures |a| < |b|
  {
    assert b == a + (b - a);
    assert b - a != {};
  }

  lemma {:induction false} AllCompleted<V(!new)>(
    nodes: Nodes, h: Handler<V>, start: GraphState<V>, s: GraphState<V>, fails: set<string>)
    requires WellFormed(nodes) && Consistent(nodes, h, s) && Advanced(start, s, fails)
    requires Incomplete(s) == {}
    ensures CompletedSet(start) <= CompletedSet(s) && Blocked(start) == {}
    ensures fails * (nodes.Keys - CompletedSet(start)) == {}
    ensures s.results == map n | n in nodes :: Eval(nodes, h, n)
  {
    hide WellFormed, Eval;
    assert forall n <- s.nodes :: s.nodes[n] != Completed ==> n in Incomplete(s);
    assert CompletedSet(s) == nodes.Keys;
  }

  lemma {:induction false} DriverIsConsistent<V(!new)>(nodes: Nodes, h: Handler<V>, drv: Driver<V>)
    requires WellFormed(nodes) && DriverValid(nodes, h, drv)
    ensures Consistent(nodes, h, drv.mem)
  {
  }
}
