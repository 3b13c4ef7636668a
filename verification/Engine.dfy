/** The checkpointed parallel scheduler of analytical graphs, as a state machine over the steps
    of any number of drivers, with crashes and resumes at every point. */
module Engine {
  import opened Dag
  import opened Levels
  import opened Sequences

  datatype NodeStatus = Pending | Running | Completed | Failed | Cancelled

  datatype GraphStatus = NotStarted | InProgress | Finished | Broken | Stopped

  type Nodes = map<string, Node>

  /** A node handler as a pure function of the node and its resolved inputs. */
  type Handler<!V> = (Node, map<string, V>) -> V

  function Deps(nodes: Nodes): Dependencies {
    map id | id in nodes :: nodes[id].dependencies
  }

  /** What the validators guarantee of a graph that reaches the engine. */
  ghost predicate WellFormed(nodes: Nodes) {
    && Closed(Deps(nodes)) && Acyclic(Deps(nodes))
    && forall id, name :: id in nodes && name in nodes[id].inputs ==>
         nodes[id].inputs[name] in nodes[id].dependencies
  }

  /** The reference: evaluate what a node reads, then the node. */
  ghost function Eval<V>(nodes: Nodes, h: Handler<V>, n: string): V
    requires WellFormed(nodes) && n in nodes
    decreases RankOf(Deps(nodes))[n]
  {
    h(nodes[n],
      map name | name in nodes[n].inputs ::
        assert Edge(Deps(nodes), n, nodes[n].inputs[name]);
        Eval(nodes, h, nodes[n].inputs[name]))
  }

  // ---------------------------------------------------------------- graph states

  datatype GraphState<V> = GraphState(
    status: GraphStatus, nodes: map<string, NodeStatus>, results: map<string, V>, version: nat)

  function Created<V>(nodes: Nodes): GraphState<V> {
    GraphState(NotStarted, map id | id in nodes :: Pending, map[], 0)
  }

  function CompletedSet<V>(s: GraphState<V>): set<string> {
    set n | n in s.nodes && s.nodes[n] == Completed
  }

  predicate InputsAvailable<V>(nodes: Nodes, s: GraphState<V>, n: string)
    requires n in nodes
  {
    forall name :: name in nodes[n].inputs ==> nodes[n].inputs[name] in s.results
  }

  function ResolveInputs<V>(nodes: Nodes, s: GraphState<V>, n: string): map<string, V>
    requires n in nodes && InputsAvailable(nodes, s, n)
  {
    map name | name in nodes[n].inputs :: s.results[nodes[n].inputs[name]]
  }

  function SetStatus<V>(s: GraphState<V>, n: string, status: NodeStatus): GraphState<V> {
    s.(nodes := s.nodes[n := status])
  }

  /** Loading a saved graph: interrupted nodes wait again, and the graph is running. */
  function Loaded<V>(s: GraphState<V>): GraphState<V> {
    s.(status := InProgress,
       nodes := map n | n in s.nodes :: if s.nodes[n] == Running then Pending else s.nodes[n])
  }

  function FailAll<V>(s: GraphState<V>, failed: set<string>): GraphState<V> {
    s.(nodes := map n | n in s.nodes :: if n in failed then Failed else s.nodes[n])
  }

  function CancelOpen<V>(s: GraphState<V>): GraphState<V> {
    s.(nodes := map n | n in s.nodes ::
         if s.nodes[n] == Pending || s.nodes[n] == Running then Cancelled else s.nodes[n])
  }

  /** Optimistic saving: only the version that was loaded may be replaced. */
  predicate MaySave<V>(disk: GraphState<V>, mem: GraphState<V>) {
    mem.version == disk.version
  }

  function Saved<V>(mem: GraphState<V>): GraphState<V> {
    mem.(version := mem.version + 1)
  }

  // ---------------------------------------------------------------- one driver

  datatype Outcome = Done | FailedAt | NoRunnable | NodeErrors | TimedOut | Interrupted

  datatype Phase =
    | Scheduling
    | InRound(ready: set<string>, todo: set<string>, active: set<string>, erred: set<string>)
    | Ended(outcome: Outcome)

  /** `round` counts finished rounds and `base` is what was complete when the round opened;
      `fromScratch` says the driver started from a graph with nothing complete. `cleared` are the
      active nodes whose starting checkpoint went through; only these reach their handler. */
  datatype Driver<V> = Driver(
    mem: GraphState<V>, phase: Phase, fromScratch: bool, round: nat, base: set<string>, cleared: set<string>)

  datatype Action =
    | OpenRound
    | StartNode(node: string)
    | ClearNode(node: string)
    | FinishNode(node: string)
    | FailNode(node: string)
    | RaiseNode(node: string)
    | CloseRound
    | TimeOut(failed: set<string>)
    | Interrupt(failed: set<string>)

  predicate DependenciesIn(nodes: Nodes, n: string, done: set<string>)
    requires n in nodes
  {
    forall b :: b in nodes[n].dependencies ==> b in done
  }

  predicate IsReady<V>(nodes: Nodes, s: GraphState<V>, n: string) {
    n in nodes && n in s.nodes && s.nodes[n] == Pending && DependenciesIn(nodes, n, CompletedSet(s))
  }

  function ReadySet<V>(nodes: Nodes, s: GraphState<V>): set<string> {
    set n | n in s.nodes && IsReady(nodes, s, n)
  }

  predicate Can<V>(nodes: Nodes, drv: Driver<V>, a: Action) {
    match a
    case OpenRound => drv.phase.Scheduling?
    case StartNode(n) => drv.phase.InRound? && n in drv.phase.todo
    case ClearNode(n) => drv.phase.InRound? && n in drv.phase.active
    case FinishNode(n) =>
      && drv.phase.InRound? && n in drv.phase.active && n in drv.cleared
      && n in nodes && InputsAvailable(nodes, drv.mem, n)
    case FailNode(n) => drv.phase.InRound? && n in drv.phase.active && n in drv.cleared
    case RaiseNode(n) => drv.phase.InRound? && n in drv.phase.active
    case CloseRound => drv.phase.InRound? && drv.phase.todo == {} && drv.phase.active == {}
    case TimeOut(failed) => MayStop(drv.phase, failed) && failed <= drv.cleared
    case Interrupt(failed) => MayStop(drv.phase, failed) && failed <= drv.cleared
  }

  /** A live driver may be stopped; some of its active nodes then fail on the way out. */
  predicate MayStop(phase: Phase, failed: set<string>) {
    match phase
    case Scheduling => failed == {}
    case InRound(_, _, active, _) => failed <= active
    case Ended(_) => false
  }

  function End<V>(drv: Driver<V>, outcome: Outcome, status: GraphStatus): Driver<V> {
    drv.(phase := Ended(outcome), mem := drv.mem.(status := status))
  }

  function Open<V>(nodes: Nodes, drv: Driver<V>): Driver<V> {
    var s := drv.mem;
    if forall n :: n in s.nodes ==> s.nodes[n] == Completed then End(drv, Done, Finished)
    else if exists n :: n in s.nodes && (s.nodes[n] == Failed || s.nodes[n] == Cancelled) then
      End(drv, FailedAt, Broken)
    else
      var ready := ReadySet(nodes, s);
      if ready == {} then End(drv, NoRunnable, Broken)
      else drv.(phase := InRound(ready, ready, {}, {}))
  }

  function Act<V>(nodes: Nodes, h: Handler<V>, drv: Driver<V>, a: Action): Driver<V>
    requires Can(nodes, drv, a)
  {
    var s, r := drv.mem, drv.phase;
    match a
    case OpenRound => Open(nodes, drv)
    case StartNode(n) =>
      drv.(mem := SetStatus(s, n, Running), phase := r.(todo := r.todo - {n}, active := r.active + {n}),
           cleared := drv.cleared - {n})
    case ClearNode(n) => drv.(cleared := drv.cleared + {n})
    case FinishNode(n) =>
      drv.(mem := SetStatus(s, n, Completed)
                  .(results := s.results[n := h(nodes[n], ResolveInputs(nodes, s, n))]),
           phase := r.(active := r.active - {n}))
    case FailNode(n) =>
      drv.(mem := SetStatus(s, n, Failed), phase := r.(active := r.active - {n}, erred := r.erred + {n}))
    case RaiseNode(n) =>
      drv.(phase := r.(active := r.active - {n}, erred := r.erred + {n}))
    case CloseRound =>
      if r.erred == {} then drv.(phase := Scheduling, round := drv.round + 1, base := CompletedSet(s))
      else End(drv, NodeErrors, Broken)
    case TimeOut(failed) =>
      End(drv.(mem := CancelOpen(FailAll(s, failed))), TimedOut, Broken)
    case Interrupt(failed) =>
      End(drv.(mem := FailAll(s, failed)), Interrupted, Stopped)
  }

  // ---------------------------------------------------------------- invariants

  /** Completed nodes have the result evaluation gives, after all they depend on. */
  ghost predicate Consistent<V(!new)>(nodes: Nodes, h: Handler<V>, s: GraphState<V>)
    requires WellFormed(nodes)
  {
    && s.nodes.Keys == nodes.Keys
    && s.results.Keys == CompletedSet(s)
    && (forall n :: n in CompletedSet(s) ==> DependenciesIn(nodes, n, CompletedSet(s)))
    && (forall n :: n in CompletedSet(s) ==> s.results[n] == Eval(nodes, h, n))
    && (s.status == Finished ==> CompletedSet(s) == nodes.Keys)
  }

  /** The nodes whose dependencies are all in `done`, which they are not. */
  function Frontier(nodes: Nodes, done: set<string>): set<string> {
    set n | n in nodes && n !in done && DependenciesIn(nodes, n, done)
  }

  ghost predicate RoundValid<V>(nodes: Nodes, drv: Driver<V>) {
    && drv.phase.InRound?
    && var s, r := drv.mem, drv.phase;
    && r.ready == Frontier(nodes, drv.base) && r.ready != {}
    && r.todo <= r.ready && r.active <= r.ready && r.erred <= r.ready
    && r.todo !! r.active && r.todo !! r.erred && r.active !! r.erred
    && CompletedSet(s) == drv.base + (r.ready - r.todo - r.active - r.erred)
    && (forall n :: n in s.nodes && n !in drv.base && n !in r.active && n !in r.erred && n !in CompletedSet(s)
          ==> s.nodes[n] == Pending)
  }

  ghost predicate Quiet<V>(s: GraphState<V>) {
    forall n :: n in s.nodes ==> s.nodes[n] != Running
  }

  /** What a driver keeps: its own copy is consistent and its round accounts for every node. */
  ghost predicate DriverValid<V(!new)>(nodes: Nodes, h: Handler<V>, drv: Driver<V>)
    requires WellFormed(nodes)
  {
    && Consistent(nodes, h, drv.mem)
    && match drv.phase
       case Scheduling => Quiet(drv.mem) && drv.base == CompletedSet(drv.mem)
       case InRound(_, _, _, _) => RoundValid(nodes, drv)
       case Ended(outcome) => outcome != NoRunnable
                              && (outcome == Done ==> CompletedSet(drv.mem) == nodes.Keys)
  }

  // ---------------------------------------------------------------- driver steps

  lemma {:induction false} ResolvedInputsEvaluate<V(!new)>(nodes: Nodes, h: Handler<V>, s: GraphState<V>, n: string)
    requires WellFormed(nodes) && Consistent(nodes, h, s) && n in nodes
    requires DependenciesIn(nodes, n, CompletedSet(s))
    ensures InputsAvailable(nodes, s, n)
    ensures h(nodes[n], ResolveInputs(nodes, s, n)) == Eval(nodes, h, n)
  {
    forall name | name in nodes[n].inputs
      ensures nodes[n].inputs[name] in s.results
      ensures nodes[n].inputs[name] in nodes
      ensures s.results[nodes[n].inputs[name]] == Eval(nodes, h, nodes[n].inputs[name])
    {
      var b := nodes[n].inputs[name];
      assert b in nodes[n].dependencies;
      assert b in CompletedSet(s);
    }
    assert ResolveInputs(nodes, s, n) ==
      map name | name in nodes[n].inputs :: Eval(nodes, h, nodes[n].inputs[name]);
  }

  /** Something can always run: a lowest incomplete node waits for nothing. */
  lemma {:induction false} SomethingIsReady(nodes: Nodes, done: set<string>)
    requires WellFormed(nodes) && done <= nodes.Keys && done != nodes.Keys
    ensures Frontier(nodes, done) != {}
  {
    var d := Deps(nodes);
    assert !(nodes.Keys <= done);
    var x :| x in nodes.Keys && x !in done;
    assert Path(d, [x]) && Distinct([x]);
    var n := FindReady(d, done, [x]);
    assert forall b :: b in nodes[n].dependencies ==> Edge(d, n, b);
    assert n in Frontier(nodes, done);
  }

  lemma {:induction false} OpenKeepsValid<V(!new)>(nodes: Nodes, h: Handler<V>, drv: Driver<V>)
    requires WellFormed(nodes) && DriverValid(nodes, h, drv) && drv.phase.Scheduling?
    ensures DriverValid(nodes, h, Open(nodes, drv))
    ensures CompletedSet(Open(nodes, drv).mem) == CompletedSet(drv.mem)
  {
    hide WellFormed, Eval;
    var s, drv' := drv.mem, Open(nodes, drv);
    var done := CompletedSet(s);
    if forall n :: n in s.nodes ==> s.nodes[n] == Completed {
      assert done == nodes.Keys;
      SameNodesConsistent(nodes, h, s, drv'.mem);
    } else if exists n :: n in s.nodes && (s.nodes[n] == Failed || s.nodes[n] == Cancelled) {
      SameNodesConsistent(nodes, h, s, drv'.mem);
    } else {
      var x :| x in s.nodes && s.nodes[x] != Completed;
      assert x in nodes && x !in done;
      assert ReadySet(nodes, s) == Frontier(nodes, done);
      SomethingIsReady(nodes, done);
    }
  }

  /** Completed nodes and results decide consistency; other statuses do not matter. */
  lemma {:induction false} SameNodesConsistent<V(!new)>(nodes: Nodes, h: Handler<V>, s: GraphState<V>, t: GraphState<V>)
    requires WellFormed(nodes) && Consistent(nodes, h, s)
    requires t.nodes.Keys == s.nodes.Keys && t.results == s.results
    requires CompletedSet(t) == CompletedSet(s)
    requires t.status == Finished ==> CompletedSet(s) == nodes.Keys
    ensures Consistent(nodes, h, t)
  {
    hide WellFormed, Eval;
  }

  /** A node of the round, still open, is not complete and waits only for complete nodes. */
  lemma {:induction false} OpenNode<V(!new)>(nodes: Nodes, h: Handler<V>, drv: Driver<V>, n: string)
    requires WellFormed(nodes) && DriverValid(nodes, h, drv) && drv.phase.InRound?
    requires n in drv.phase.todo || n in drv.phase.active
    ensures n in nodes && n in drv.mem.nodes && n !in CompletedSet(drv.mem)
    ensures DependenciesIn(nodes, n, CompletedSet(drv.mem))
  {
    hide WellFormed, Eval;
    assert n in Frontier(nodes, drv.base);
    assert DependenciesIn(nodes, n, drv.base);
  }

  lemma {:induction false} FinishCompletes<V(!new)>(nodes: Nodes, h: Handler<V>, drv: Driver<V>, n: string)
    requires Can(nodes, drv, FinishNode(n)) && n in drv.mem.nodes
    ensures CompletedSet(Act(nodes, h, drv, FinishNode(n)).mem) == CompletedSet(drv.mem) + {n}
  {
  }

  lemma {:induction false} FinishKeepsRound<V(!new)>(nodes: Nodes, h: Handler<V>, drv: Driver<V>, n: string)
    requires RoundValid(nodes, drv) && Can(nodes, drv, FinishNode(n)) && n in drv.mem.nodes
    ensures RoundValid(nodes, Act(nodes, h, drv, FinishNode(n)))
  {
    FinishCompletes(nodes, h, drv, n);
    hide CompletedSet, Frontier, InputsAvailable, ResolveInputs;
  }

  lemma {:induction false} FinishKeepsValid<V(!new)>(nodes: Nodes, h: Handler<V>, drv: Driver<V>, n: string)
    requires WellFormed(nodes) && DriverValid(nodes, h, drv) && Can(nodes, drv, FinishNode(n))
    ensures DriverValid(nodes, h, Act(nodes, h, drv, FinishNode(n)))
    ensures CompletedSet(Act(nodes, h, drv, FinishNode(n)).mem) == CompletedSet(drv.mem) + {n}
  {
    hide WellFormed, Eval, DependenciesIn, Frontier, RoundValid, CompletedSet, Consistent;
    OpenNode(nodes, h, drv, n);
    ResolvedInputsEvaluate(nodes, h, drv.mem, n);
    FinishCompletes(nodes, h, drv, n);
    FinishKeepsConsistent(nodes, h, drv.mem, Act(nodes, h, drv, FinishNode(n)).mem, n);
    FinishKeepsRound(nodes, h, drv, n);
  }

  lemma {:induction false} FinishKeepsConsistent<V(!new)>(
    nodes: Nodes, h: Handler<V>, s: GraphState<V>, t: GraphState<V>, n: string)
    requires WellFormed(nodes) && Consistent(nodes, h, s) && n in nodes
    requires DependenciesIn(nodes, n, CompletedSet(s))
    requires t == SetStatus(s, n, Completed).(results := s.results[n := Eval(nodes, h, n)])
    requires CompletedSet(t) == CompletedSet(s) + {n}
    ensures Consistent(nodes, h, t)
  {
    hide WellFormed, Eval, CompletedSet;
  }

  lemma {:induction false} StartKeepsValid<V(!new)>(nodes: Nodes, h: Handler<V>, drv: Driver<V>, n: string)
    requires WellFormed(nodes) && DriverValid(nodes, h, drv) && Can(nodes, drv, StartNode(n))
    ensures DriverValid(nodes, h, Act(nodes, h, drv, StartNode(n)))
    ensures CompletedSet(Act(nodes, h, drv, StartNode(n)).mem) == CompletedSet(drv.mem)
  {
    hide WellFormed, Eval, DependenciesIn, Frontier;
    var s, drv' := drv.mem, Act(nodes, h, drv, StartNode(n));
    OpenNode(nodes, h, drv, n);
    assert CompletedSet(drv'.mem) == CompletedSet(s);
    SameNodesConsistent(nodes, h, s, drv'.mem);
    assert RoundValid(nodes, drv');
  }

  lemma {:induction false} ErrKeepsValid<V(!new)>(nodes: Nodes, h: Handler<V>, drv: Driver<V>, a: Action)
    requires WellFormed(nodes) && DriverValid(nodes, h, drv) && Can(nodes, drv, a)
    requires a.FailNode? || a.RaiseNode?
    ensures DriverValid(nodes, h, Act(nodes, h, drv, a))
    ensures CompletedSet(Act(nodes, h, drv, a).mem) == CompletedSet(drv.mem)
  {
    hide WellFormed, Eval, DependenciesIn, Frontier;
    var s, drv' := drv.mem, Act(nodes, h, drv, a);
    OpenNode(nodes, h, drv, a.node);
    assert CompletedSet(drv'.mem) == CompletedSet(s);
    SameNodesConsistent(nodes, h, s, drv'.mem);
    var r, r' := drv.phase, drv'.phase;
    assert r.ready - r.todo - r.active - r.erred == r'.ready - r'.todo - r'.active - r'.erred;
  }

  lemma {:induction false} CloseKeepsValid<V(!new)>(nodes: Nodes, h: Handler<V>, drv: Driver<V>)
    requires WellFormed(nodes) && DriverValid(nodes, h, drv) && Can(nodes, drv, CloseRound)
    ensures DriverValid(nodes, h, Act(nodes, h, drv, CloseRound))
    ensures drv.phase.erred == {} ==>
              Act(nodes, h, drv, CloseRound).base == drv.base + drv.phase.ready
    ensures CompletedSet(Act(nodes, h, drv, CloseRound).mem) == CompletedSet(drv.mem)
  {
    hide WellFormed, Eval;
    var s, drv' := drv.mem, Act(nodes, h, drv, CloseRound);
    assert CompletedSet(drv'.mem) == CompletedSet(s);
    if drv.phase.erred == {} {
      forall n | n in s.nodes
        ensures s.nodes[n] != Running
      {
        assert n in drv.base ==> n in CompletedSet(s);
      }
    } else {
      SameNodesConsistent(nodes, h, s, drv'.mem);
    }
  }

  lemma {:induction false} StopKeepsValid<V(!new)>(nodes: Nodes, h: Handler<V>, drv: Driver<V>, a: Action)
    requires WellFormed(nodes) && DriverValid(nodes, h, drv) && Can(nodes, drv, a)
    requires a.TimeOut? || a.Interrupt?
    ensures DriverValid(nodes, h, Act(nodes, h, drv, a))
    ensures CompletedSet(Act(nodes, h, drv, a).mem) == CompletedSet(drv.mem)
  {
    hide WellFormed, Eval, DependenciesIn, Frontier;
    var s, drv' := drv.mem, Act(nodes, h, drv, a);
    if drv.phase.InRound? {
      forall n | n in a.failed
        ensures n !in CompletedSet(s)
      {
        OpenNode(nodes, h, drv, n);
      }
    }
    assert CompletedSet(drv'.mem) == CompletedSet(s);
    SameNodesConsistent(nodes, h, s, drv'.mem);
  }

  lemma {:induction false} ClearKeepsValid<V(!new)>(nodes: Nodes, h: Handler<V>, drv: Driver<V>, n: string)
    requires WellFormed(nodes) && DriverValid(nodes, h, drv) && Can(nodes, drv, ClearNode(n))
    ensures DriverValid(nodes, h, Act(nodes, h, drv, ClearNode(n)))
  {
    hide WellFormed, Consistent, Eval, Frontier;
  }

  /** Every driver step keeps the driver valid and never loses a completed node. */
  lemma {:induction false} ActKeepsValid<V(!new)>(nodes: Nodes, h: Handler<V>, drv: Driver<V>, a: Action)
    requires WellFormed(nodes) && DriverValid(nodes, h, drv) && Can(nodes, drv, a)
    ensures DriverValid(nodes, h, Act(nodes, h, drv, a))
    ensures CompletedSet(drv.mem) <= CompletedSet(Act(nodes, h, drv, a).mem)
    ensures Act(nodes, h, drv, a).mem.version == drv.mem.version
  {
    hide DriverValid, CompletedSet, Eval;
    match a
    case OpenRound => OpenKeepsValid(nodes, h, drv);
    case StartNode(n) => StartKeepsValid(nodes, h, drv, n);
    case FinishNode(n) => FinishKeepsValid(nodes, h, drv, n);
    case FailNode(_) => ErrKeepsValid(nodes, h, drv, a);
    case RaiseNode(_) => ErrKeepsValid(nodes, h, drv, a);
    case ClearNode(_) => ClearKeepsValid(nodes, h, drv, a.node);
    case CloseRound => CloseKeepsValid(nodes, h, drv);
    case TimeOut(_) => StopKeepsValid(nodes, h, drv, a);
    case Interrupt(_) => StopKeepsValid(nodes, h, drv, a);
  }
}
