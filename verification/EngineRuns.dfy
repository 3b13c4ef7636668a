/** Runs of the graph engine: what every saved state and every driver keeps, whatever is
    interleaved, crashed or resumed. */
module EngineRuns {
  import opened Dag
  import opened Levels
  import opened Engine

  /** A node that passed its starting checkpoint, and what the store held complete just before. */
  datatype Execution = Execution(driver: nat, node: string, saved: set<string>)

  /** How many executions there were when a driver last started each of its nodes. */
  type Starts = map<string, nat>

  /** The stored graph and the drivers at work on copies of it; `executed` and `started` are
      observations. A driver number may be used again after a crash; a new driver has started nothing. */
  datatype World<V> = World(
    disk: GraphState<V>, drivers: map<nat, Driver<V>>, executed: seq<Execution>, started: map<nat, Starts>)

  datatype Step =
    | Launch(driver: nat)
    | Drive(driver: nat, action: Action)
    | Checkpoint(driver: nat, node: string)
    | Save(driver: nat)
    | Crash(driver: nat)

  function Start<V>(nodes: Nodes): World<V> {
    World(Created(nodes), map[], [], map[])
  }

  predicate Enabled<V>(nodes: Nodes, w: World<V>, step: Step) {
    match step
    case Launch(d) => d !in w.drivers
    case Drive(d, a) => d in w.drivers && Can(nodes, w.drivers[d], a) && !a.ClearNode?
    case Checkpoint(d, n) => d in w.drivers && Can(nodes, w.drivers[d], ClearNode(n))
    case Save(d) => d in w.drivers
    case Crash(d) => d in w.drivers
  }

  function Launched<V>(disk: GraphState<V>): Driver<V> {
    Driver(Loaded(disk), Scheduling, CompletedSet(disk) == {}, 0, CompletedSet(disk), {})
  }

  function StartsOf<V>(w: World<V>, d: nat): Starts {
    if d in w.started then w.started[d] else map[]
  }

  /** A save with an outdated version is refused. It raises, so that a node whose starting checkpoint
      is refused ends there. */
  function Next<V>(nodes: Nodes, h: Handler<V>, w: World<V>, step: Step): World<V>
    requires Enabled(nodes, w, step)
  {
    match step
    case Launch(d) => w.(drivers := w.drivers[d := Launched(w.disk)], started := w.started[d := map[]])
    case Drive(d, a) =>
      var w' := w.(drivers := w.drivers[d := Act(nodes, h, w.drivers[d], a)]);
      if a.StartNode? then w'.(started := w.started[d := StartsOf(w, d)[a.node := |w.executed|]]) else w'
    case Checkpoint(d, n) =>
      var drv := w.drivers[d];
      if MaySave(w.disk, drv.mem)
      then w.(disk := Saved(drv.mem),
              drivers := w.drivers[d := Act(nodes, h, drv, ClearNode(n)).(mem := Saved(drv.mem))],
              executed := w.executed + [Execution(d, n, CompletedSet(w.disk))])
      else w.(drivers := w.drivers[d := Act(nodes, h, drv, RaiseNode(n))])
    case Save(d) =>
      var mem := w.drivers[d].mem;
      if MaySave(w.disk, mem)
      then w.(disk := Saved(mem), drivers := w.drivers[d := w.drivers[d].(mem := Saved(mem))])
      else w
    case Crash(d) => w.(drivers := w.drivers - {d})
  }

  ghost predicate Runs<V>(nodes: Nodes, h: Handler<V>, w: World<V>, steps: seq<Step>)
    decreases |steps|
  {
    steps == [] || (Enabled(nodes, w, steps[0]) && Runs(nodes, h, Next(nodes, h, w, steps[0]), steps[1..]))
  }

  ghost function After<V>(nodes: Nodes, h: Handler<V>, w: World<V>, steps: seq<Step>): World<V>
    requires Runs(nodes, h, w, steps)
    decreases |steps|
  {
    if steps == [] then w else After(nodes, h, Next(nodes, h, w, steps[0]), steps[1..])
  }

  // ---------------------------------------------------------------- invariant

  ghost function Below(nodes: Nodes, level: nat): set<string>
    requires WellFormed(nodes)
  {
    set n | n in nodes && Level(Deps(nodes), n) < level
  }

  ghost function AtLevel(nodes: Nodes, level: nat): set<string>
    requires WellFormed(nodes)
  {
    set n | n in nodes && Level(Deps(nodes), n) == level
  }

  /** A driver that started from scratch has completed whole levels, one per round. */
  ghost predicate OnSchedule<V>(nodes: Nodes, drv: Driver<V>)
    requires WellFormed(nodes)
  {
    drv.fromScratch && !drv.phase.Ended? ==> drv.base == Below(nodes, drv.round)
  }

  /** A copy that could still be saved holds everything that is saved. */
  ghost predicate UpToDate<V>(disk: GraphState<V>, mem: GraphState<V>) {
    && mem.version <= disk.version
    && (mem.version == disk.version ==> CompletedSet(disk) <= CompletedSet(mem))
  }

  ghost predicate DriverOk<V(!new)>(nodes: Nodes, h: Handler<V>, disk: GraphState<V>, drv: Driver<V>)
    requires WellFormed(nodes)
  {
    DriverValid(nodes, h, drv) && OnSchedule(nodes, drv) && UpToDate(disk, drv.mem)
  }

  ghost predicate Invariant<V(!new)>(nodes: Nodes, h: Handler<V>, w: World<V>)
    requires WellFormed(nodes)
  {
    && Consistent(nodes, h, w.disk)
    && forall d :: d in w.drivers ==> DriverOk(nodes, h, w.disk, w.drivers[d])
  }

  // ---------------------------------------------------------------- levels and rounds

  lemma {:induction false} ReadyBelowLevel(nodes: Nodes, level: nat, n: string)
    requires WellFormed(nodes) && n in nodes
    ensures DependenciesIn(nodes, n, Below(nodes, level)) <==> Level(Deps(nodes), n) <= level
  {
    var d := Deps(nodes);
    hide Level, Acyclic;
    LevelFacts(d, n);
    if Level(d, n) <= level {
      forall b | b in nodes[n].dependencies
        ensures b in Below(nodes, level)
      {
        assert Edge(d, n, b);
      }
    } else {
      var b :| Edge(d, n, b) && b in d && Level(d, b) + 1 == Level(d, n);
      assert b in nodes[n].dependencies && b !in Below(nodes, level);
    }
  }

  lemma {:induction false} FrontierIsNextLevel(nodes: Nodes, level: nat)
    requires WellFormed(nodes)
    ensures Frontier(nodes, Below(nodes, level)) == AtLevel(nodes, level)
    ensures Below(nodes, level) + AtLevel(nodes, level) == Below(nodes, level + 1)
  {
    hide Level, Acyclic;
    forall n | n in nodes
      ensures DependenciesIn(nodes, n, Below(nodes, level)) <==> Level(Deps(nodes), n) <= level
    {
      ReadyBelowLevel(nodes, level, n);
    }
  }

  lemma {:induction false} LaunchIsOk<V(!new)>(nodes: Nodes, h: Handler<V>, disk: GraphState<V>)
    requires WellFormed(nodes) && Consistent(nodes, h, disk)
    ensures DriverOk(nodes, h, disk, Launched(disk))
  {
    hide WellFormed, Eval, DependenciesIn;
    var drv := Launched(disk);
    assert CompletedSet(drv.mem) == CompletedSet(disk);
    SameNodesConsistent(nodes, h, disk, drv.mem);
    assert Below(nodes, 0) == {};
  }

  lemma {:induction false} ActIsOk<V(!new)>(
    nodes: Nodes, h: Handler<V>, disk: GraphState<V>, drv: Driver<V>, a: Action)
    requires WellFormed(nodes) && DriverOk(nodes, h, disk, drv) && Can(nodes, drv, a)
    ensures DriverOk(nodes, h, disk, Act(nodes, h, drv, a))
  {
    hide WellFormed, Consistent, CompletedSet, Below, AtLevel, Frontier;
    ActKeepsValid(nodes, h, drv, a);
    if a.CloseRound? {
      CloseKeepsValid(nodes, h, drv);
      FrontierIsNextLevel(nodes, drv.round);
    }
  }

  function Active(phase: Phase): set<string> {
    if phase.InRound? then phase.active else {}
  }

  lemma {:induction false} ClearFacts<V>(nodes: Nodes, h: Handler<V>, drv: Driver<V>, n: string)
    requires Can(nodes, drv, ClearNode(n))
    ensures Act(nodes, h, drv, ClearNode(n)).mem == drv.mem && Can(nodes, drv, RaiseNode(n))
    ensures Act(nodes, h, drv, ClearNode(n)).cleared == drv.cleared + {n}
    ensures Act(nodes, h, drv, ClearNode(n)).phase == drv.phase && n in Active(drv.phase)
  {
  }

  lemma {:induction false} CheckpointIsOk<V(!new)>(nodes: Nodes, h: Handler<V>, w: World<V>, d: nat, n: string)
    requires WellFormed(nodes) && Invariant(nodes, h, w) && Enabled(nodes, w, Checkpoint(d, n))
    ensures Invariant(nodes, h, Next(nodes, h, w, Checkpoint(d, n)))
    ensures CompletedSet(w.disk) <= CompletedSet(Next(nodes, h, w, Checkpoint(d, n)).disk)
  {
    hide WellFormed, DriverOk, Consistent, CompletedSet, Act, Can;
    var drv := w.drivers[d];
    ClearFacts(nodes, h, drv, n);
    if MaySave(w.disk, drv.mem) {
      ActIsOk(nodes, h, w.disk, drv, ClearNode(n));
      SaveIsOk(nodes, h, w.disk, Act(nodes, h, drv, ClearNode(n)));
      forall e | e in w.drivers && e != d
        ensures DriverOk(nodes, h, Saved(drv.mem), w.drivers[e])
      {
        OutdatedIsOk(nodes, h, w.disk, Saved(drv.mem), w.drivers[e]);
      }
    } else {
      ActIsOk(nodes, h, w.disk, drv, RaiseNode(n));
    }
  }

  lemma {:induction false} StepKeepsInvariant<V(!new)>(nodes: Nodes, h: Handler<V>, w: World<V>, step: Step)
    requires WellFormed(nodes) && Invariant(nodes, h, w) && Enabled(nodes, w, step)
    ensures Invariant(nodes, h, Next(nodes, h, w, step))
    ensures CompletedSet(w.disk) <= CompletedSet(Next(nodes, h, w, step).disk)
  {
    hide WellFormed, DriverOk, Consistent, CompletedSet, Act, Can;
    var w' := Next(nodes, h, w, step);
    match step
    case Launch(d) => LaunchIsOk(nodes, h, w.disk);
    case Drive(d, a) => ActIsOk(nodes, h, w.disk, w.drivers[d], a);
    case Checkpoint(d, n) => CheckpointIsOk(nodes, h, w, d, n);
    case Save(d) =>
      if MaySave(w.disk, w.drivers[d].mem) {
        SaveIsOk(nodes, h, w.disk, w.drivers[d]);
        forall e | e in w.drivers && e != d
          ensures DriverOk(nodes, h, w'.disk, w.drivers[e])
        {
          OutdatedIsOk(nodes, h, w.disk, w'.disk, w.drivers[e]);
        }
      }
    case Crash(d) =>
  }

  lemma {:induction false} SaveIsOk<V(!new)>(nodes: Nodes, h: Handler<V>, disk: GraphState<V>, drv: Driver<V>)
    requires WellFormed(nodes) && DriverOk(nodes, h, disk, drv) && MaySave(disk, drv.mem)
    ensures Consistent(nodes, h, Saved(drv.mem))
    ensures DriverOk(nodes, h, Saved(drv.mem), drv.(mem := Saved(drv.mem)))
    ensures CompletedSet(disk) <= CompletedSet(Saved(drv.mem))
  {
    hide WellFormed, Eval, DependenciesIn, Frontier;
    assert CompletedSet(Saved(drv.mem)) == CompletedSet(drv.mem);
    SameNodesConsistent(nodes, h, drv.mem, Saved(drv.mem));
  }

  lemma {:induction false} OutdatedIsOk<V(!new)>(
    nodes: Nodes, h: Handler<V>, disk: GraphState<V>, disk': GraphState<V>, drv: Driver<V>)
    requires WellFormed(nodes) && DriverOk(nodes, h, disk, drv) && disk'.version == disk.version + 1
    ensures DriverOk(nodes, h, disk', drv)
  {
    hide WellFormed, DriverValid, OnSchedule, CompletedSet;
  }

  lemma {:induction false} StartIsInvariant<V(!new)>(nodes: Nodes, h: Handler<V>)
    requires WellFormed(nodes)
    ensures Invariant(nodes, h, Start(nodes))
  {
    assert CompletedSet(Created<V>(nodes)) == {};
  }

  lemma {:induction false} RunKeepsInvariant<V(!new)>(
    nodes: Nodes, h: Handler<V>, w: World<V>, steps: seq<Step>)
    requires WellFormed(nodes) && Invariant(nodes, h, w) && Runs(nodes, h, w, steps)
    ensures Invariant(nodes, h, After(nodes, h, w, steps))
    ensures CompletedSet(w.disk) <= CompletedSet(After(nodes, h, w, steps).disk)
    decreases |steps|
  {
    hide WellFormed, Invariant, Enabled, Next, CompletedSet;
    if steps != [] {
      StepKeepsInvariant(nodes, h, w, steps[0]);
      RunKeepsInvariant(nodes, h, Next(nodes, h, w, steps[0]), steps[1..]);
    }
  }

  // ---------------------------------------------------------------- theorems

  /** In every saved state of every run the completed nodes are closed under dependencies and
      hold exactly the evaluated results; a graph saved as finished is completely evaluated. */
  lemma {:induction false} SavedStatesAreEvaluated<V(!new)>(nodes: Nodes, h: Handler<V>, steps: seq<Step>)
    requires WellFormed(nodes) && Runs(nodes, h, Start(nodes), steps)
    ensures var disk := After(nodes, h, Start(nodes), steps).disk;
      && disk.results.Keys == CompletedSet(disk) <= nodes.Keys
      && (forall n :: n in CompletedSet(disk) ==> DependenciesIn(nodes, n, CompletedSet(disk)))
      && (forall n :: n in CompletedSet(disk) ==> disk.results[n] == Eval(nodes, h, n))
      && (disk.status == Finished ==> disk.results == map n | n in nodes :: Eval(nodes, h, n))
  {
    hide WellFormed, Eval, DependenciesIn, After, Runs;
    StartIsInvariant(nodes, h);
    RunKeepsInvariant(nodes, h, Start(nodes), steps);
  }

  /** A driver that ends its schedule has evaluated the whole graph, and no driver ever finds
      nothing to run. */
  lemma {:induction false} DriversFinishEvaluated<V(!new)>(
    nodes: Nodes, h: Handler<V>, steps: seq<Step>, d: nat)
    requires WellFormed(nodes) && Runs(nodes, h, Start(nodes), steps)
    requires d in After(nodes, h, Start(nodes), steps).drivers
    ensures var drv := After(nodes, h, Start(nodes), steps).drivers[d];
      && drv.phase != Ended(NoRunnable)
      && (drv.phase == Ended(Done) ==> drv.mem.results == map n | n in nodes :: Eval(nodes, h, n))
  {
    hide WellFormed, Eval, DependenciesIn, After, Runs;
    StartIsInvariant(nodes, h);
    RunKeepsInvariant(nodes, h, Start(nodes), steps);
    var w := After(nodes, h, Start(nodes), steps);
    assert DriverOk(nodes, h, w.disk, w.drivers[d]);
  }

  // ---------------------------------------------------------------- what a driver leaves

  /** What the copy of a driver says of the graph: it is in progress until the driver ends, and then
      as the driver ended. */
  ghost predicate LeavesAs<V>(drv: Driver<V>) {
    var s := drv.mem;
    match drv.phase
    case Ended(Done) => s.status == Finished && forall n <- s.nodes :: s.nodes[n] == Completed
    case Ended(FailedAt) => s.status == Broken && exists n <- s.nodes :: s.nodes[n] in {Failed, Cancelled}
    case Ended(NoRunnable) => s.status == Broken
    case Ended(NodeErrors) => s.status == Broken
    case Ended(TimedOut) => s.status == Broken && forall n <- s.nodes :: s.nodes[n] !in {Pending, Running}
    case Ended(Interrupted) => s.status == Stopped
    case _ => s.status == InProgress
  }

  lemma {:induction false} ActLeavesAs<V>(nodes: Nodes, h: Handler<V>, drv: Driver<V>, a: Action)
    requires LeavesAs(drv) && Can(nodes, drv, a)
    ensures LeavesAs(Act(nodes, h, drv, a))
  {
    hide ReadySet, InputsAvailable, ResolveInputs, CompletedSet;
  }

  lemma {:induction false} StepLeavesAs<V>(nodes: Nodes, h: Handler<V>, w: World<V>, step: Step)
    requires Enabled(nodes, w, step) && forall d <- w.drivers :: LeavesAs(w.drivers[d])
    ensures forall d <- Next(nodes, h, w, step).drivers :: LeavesAs(Next(nodes, h, w, step).drivers[d])
  {
    match step
    case Drive(d, a) =>
      ActLeavesAs(nodes, h, w.drivers[d], a);
      hide LeavesAs, Act, Can;
    case Checkpoint(d, n) =>
      ClearFacts(nodes, h, w.drivers[d], n);
      ActLeavesAs(nodes, h, w.drivers[d], RaiseNode(n));
      hide Act, Can;
    case _ => hide Act, Can;
  }

  lemma {:induction false} RunLeavesAs<V>(nodes: Nodes, h: Handler<V>, w: World<V>, steps: seq<Step>)
    requires Runs(nodes, h, w, steps) && forall d <- w.drivers :: LeavesAs(w.drivers[d])
    ensures forall d <- After(nodes, h, w, steps).drivers :: LeavesAs(After(nodes, h, w, steps).drivers[d])
    decreases |steps|
  {
    if steps != [] {
      hide Enabled, Next, LeavesAs;
      StepLeavesAs(nodes, h, w, steps[0]);
      RunLeavesAs(nodes, h, Next(nodes, h, w, steps[0]), steps[1..]);
    }
  }

  /** In every run: a driver that ends done leaves a finished graph, one that failed or timed out a failed
      graph, a cancelled one a cancelled graph, and any other one a graph in progress; after a timeout no
      node waits or runs. A save stores just that. */
  lemma {:induction false} DriversLeaveTheirOutcome<V>(nodes: Nodes, h: Handler<V>, steps: seq<Step>, d: nat)
    requires Runs(nodes, h, Start(nodes), steps) && d in After(nodes, h, Start(nodes), steps).drivers
    ensures var w := After(nodes, h, Start(nodes), steps);
      && LeavesAs(w.drivers[d])
      && (MaySave(w.disk, w.drivers[d].mem) ==>
            Next(nodes, h, w, Save(d)).disk == w.drivers[d].mem.(version := w.disk.version + 1))
  {
    RunLeavesAs(nodes, h, Start(nodes), steps);
    hide LeavesAs, Runs, After;
  }

  /** A resumed driver goes on from what was saved: interrupted nodes wait again, everything else is as it
      was. With a failed or cancelled node it ends before it starts anything. */
  lemma {:induction false} ResumeGoesOn<V>(nodes: Nodes, disk: GraphState<V>)
    ensures var s := Launched(disk).mem;
      && s.nodes.Keys == disk.nodes.Keys && s.results == disk.results && s.version == disk.version
      && (forall n <- disk.nodes :: s.nodes[n] != Running)
      && (forall n <- disk.nodes :: disk.nodes[n] != Running ==> s.nodes[n] == disk.nodes[n])
      && (forall n <- disk.nodes :: disk.nodes[n] == Running ==> s.nodes[n] == Pending)
    ensures (exists n <- disk.nodes :: disk.nodes[n] in {Failed, Cancelled}) ==>
              Open(nodes, Launched(disk)).phase == Ended(FailedAt)
  {
    hide ReadySet;
    if exists n <- disk.nodes :: disk.nodes[n] in {Failed, Cancelled} {
      var n :| n in disk.nodes && disk.nodes[n] in {Failed, Cancelled};
      assert Loaded(disk).nodes[n] == disk.nodes[n];
    }
  }

  /** Why an action gives a node another status. */
  ghost predicate Becomes<V>(nodes: Nodes, h: Handler<V>, drv: Driver<V>, a: Action, n: string, to: NodeStatus)
    requires Can(nodes, drv, a) && n in drv.mem.nodes
  {
    match to
    case Running => a == StartNode(n)
    case Completed =>
      && a == FinishNode(n) && n in drv.cleared && n in nodes && InputsAvailable(nodes, drv.mem, n)
      && n in Act(nodes, h, drv, a).mem.results
      && Act(nodes, h, drv, a).mem.results[n] == h(nodes[n], ResolveInputs(nodes, drv.mem, n))
    case Failed => n in drv.cleared && (a == FailNode(n) || ((a.TimeOut? || a.Interrupt?) && n in a.failed))
    case Cancelled => a.TimeOut? && n !in a.failed && drv.mem.nodes[n] in {Pending, Running}
    case Pending => false
  }

  lemma {:induction false} ActBecomes<V>(nodes: Nodes, h: Handler<V>, drv: Driver<V>, a: Action, n: string)
    requires Can(nodes, drv, a) && n in drv.mem.nodes
    requires n in Act(nodes, h, drv, a).mem.nodes
    requires Act(nodes, h, drv, a).mem.nodes[n] != drv.mem.nodes[n]
    ensures Becomes(nodes, h, drv, a, n, Act(nodes, h, drv, a).mem.nodes[n])
  {
    hide CompletedSet, ReadySet, InputsAvailable, ResolveInputs;
  }

  /** A node changes only so: it runs when it is started, is completed by its handler's result, fails with
      its handler or on the way out of a stop, and is cancelled by a timeout if it had not ended. */
  lemma {:induction false} NodesChangeOnlySo<V(!new)>(
    nodes: Nodes, h: Handler<V>, drv: Driver<V>, a: Action, n: string)
    requires WellFormed(nodes) && DriverValid(nodes, h, drv) && Can(nodes, drv, a) && n in drv.mem.nodes
    requires n in Act(nodes, h, drv, a).mem.nodes
    requires Act(nodes, h, drv, a).mem.nodes[n] != drv.mem.nodes[n]
    ensures drv.mem.nodes[n] != Completed
    ensures Becomes(nodes, h, drv, a, n, Act(nodes, h, drv, a).mem.nodes[n])
  {
    ActKeepsValid(nodes, h, drv, a);
    ActBecomes(nodes, h, drv, a, n);
    hide WellFormed, DriverValid, Can, Act, Becomes;
    assert n in CompletedSet(drv.mem) <==> drv.mem.nodes[n] == Completed;
  }

  /** Saved progress is never lost: whatever happens later, a node saved as completed stays
      completed with the same result. */
  lemma {:induction false} SavedProgressIsKept<V(!new)>(
    nodes: Nodes, h: Handler<V>, earlier: seq<Step>, later: seq<Step>)
    requires WellFormed(nodes) && Runs(nodes, h, Start(nodes), earlier)
    requires Runs(nodes, h, After(nodes, h, Start(nodes), earlier), later)
    ensures var a := After(nodes, h, Start(nodes), earlier);
      var b := After(nodes, h, a, later);
      && CompletedSet(a.disk) <= CompletedSet(b.disk)
      && forall n :: n in CompletedSet(a.disk) ==>
           n in a.disk.results && n in b.disk.results && b.disk.results[n] == a.disk.results[n]
  {
    hide WellFormed, Eval, DependenciesIn, After, Runs;
    StartIsInvariant(nodes, h);
    RunKeepsInvariant(nodes, h, Start(nodes), earlier);
    RunKeepsInvariant(nodes, h, After(nodes, h, Start(nodes), earlier), later);
  }

  ghost predicate ExecutedSince(executed: seq<Execution>, start: nat, d: nat, n: string) {
    exists i :: start <= i < |executed| && executed[i].driver == d && executed[i].node == n
  }

  /** A driver has started its active nodes, and executed those it cleared since it last started them. */
  ghost predicate StartsOk<V>(d: nat, executed: seq<Execution>, starts: Starts, drv: Driver<V>) {
    && (forall n <- Active(drv.phase) :: n in starts && starts[n] <= |executed|)
    && (forall n <- drv.cleared :: n in starts && ExecutedSince(executed, starts[n], d, n))
  }

  /** Every execution was of a node that the store did not hold complete at that moment; and only
      nodes executed since their driver started them are cleared for their handler. */
  ghost predicate ExecutionsOk<V>(w: World<V>) {
    && (forall e <- w.executed :: e.node !in e.saved)
    && (forall d <- w.drivers :: StartsOk(d, w.executed, StartsOf(w, d), w.drivers[d]))
  }

  lemma {:induction false} OnlyStartActivates<V>(nodes: Nodes, h: Handler<V>, drv: Driver<V>, a: Action)
    requires Can(nodes, drv, a) && !a.ClearNode?
    ensures var drv' := Act(nodes, h, drv, a);
      if a.StartNode?
      then Active(drv'.phase) == Active(drv.phase) + {a.node} && drv'.cleared == drv.cleared - {a.node}
      else Active(drv'.phase) <= Active(drv.phase) && drv'.cleared <= drv.cleared
  {
    hide CompletedSet, FailAll, CancelOpen, ReadySet;
  }

  lemma {:induction false} FewerAreOk<V>(
    d: nat, executed: seq<Execution>, starts: Starts, drv: Driver<V>, drv': Driver<V>)
    requires StartsOk(d, executed, starts, drv)
    requires Active(drv'.phase) <= Active(drv.phase) && drv'.cleared <= drv.cleared
    ensures StartsOk(d, executed, starts, drv')
  {
    hide ExecutedSince, Active;
  }

  lemma {:induction false} StartIsOk<V>(
    d: nat, executed: seq<Execution>, starts: Starts, drv: Driver<V>, drv': Driver<V>, n: string)
    requires StartsOk(d, executed, starts, drv)
    requires Active(drv'.phase) == Active(drv.phase) + {n} && drv'.cleared == drv.cleared - {n}
    ensures StartsOk(d, executed, starts[n := |executed|], drv')
  {
    hide ExecutedSince, Active;
  }

  lemma {:induction false} MoreIsOk<V>(
    d: nat, executed: seq<Execution>, more: Execution, starts: Starts, drv: Driver<V>)
    requires StartsOk(d, executed, starts, drv)
    ensures StartsOk(d, executed + [more], starts, drv)
  {
    hide Active;
    forall n | n in drv.cleared
      ensures ExecutedSince(executed + [more], starts[n], d, n)
    {
      var i :| starts[n] <= i < |executed| && executed[i].driver == d && executed[i].node == n;
      assert (executed + [more])[i] == executed[i];
    }
  }

  lemma {:induction false} ClearIsOk<V>(
    d: nat, executed: seq<Execution>, starts: Starts, drv: Driver<V>, drv': Driver<V>, more: Execution)
    requires StartsOk(d, executed, starts, drv) && more.driver == d && more.node in Active(drv.phase)
    requires drv'.phase == drv.phase && drv'.cleared == drv.cleared + {more.node}
    ensures StartsOk(d, executed + [more], starts, drv')
  {
    MoreIsOk(d, executed, more, starts, drv);
    hide Active;
    assert (executed + [more])[|executed|] == more;
  }

  /** A node whose starting checkpoint goes through is not complete in the store. */
  lemma {:induction false} CheckpointFindsOpen<V(!new)>(
    nodes: Nodes, h: Handler<V>, w: World<V>, d: nat, n: string)
    requires WellFormed(nodes) && Invariant(nodes, h, w)
    requires Enabled(nodes, w, Checkpoint(d, n)) && MaySave(w.disk, w.drivers[d].mem)
    ensures n !in CompletedSet(w.disk)
  {
    assert DriverOk(nodes, h, w.disk, w.drivers[d]);
    OpenNode(nodes, h, w.drivers[d], n);
    hide WellFormed, DriverValid, OnSchedule, Invariant, CompletedSet;
  }

  lemma {:induction false} CheckpointKeepsExecutions<V(!new)>(
    nodes: Nodes, h: Handler<V>, w: World<V>, d: nat, n: string)
    requires WellFormed(nodes) && Invariant(nodes, h, w) && ExecutionsOk(w)
    requires Enabled(nodes, w, Checkpoint(d, n)) && MaySave(w.disk, w.drivers[d].mem)
    ensures ExecutionsOk(Next(nodes, h, w, Checkpoint(d, n)))
  {
    hide WellFormed, Invariant, CompletedSet, Act, StartsOk, Active;
    var w', drv := Next(nodes, h, w, Checkpoint(d, n)), w.drivers[d];
    CheckpointFindsOpen(nodes, h, w, d, n);
    ClearFacts(nodes, h, drv, n);
    hide Can;
    var more := Execution(d, n, CompletedSet(w.disk));
    forall e | e in w.drivers
      ensures StartsOk(e, w'.executed, StartsOf(w', e), w'.drivers[e])
    {
      if e == d {
        ClearIsOk(d, w.executed, StartsOf(w, d), drv, w'.drivers[d], more);
      } else {
        MoreIsOk(e, w.executed, more, StartsOf(w, e), w.drivers[e]);
      }
    }
  }

  lemma {:induction false} StepKeepsExecutions<V(!new)>(nodes: Nodes, h: Handler<V>, w: World<V>, step: Step)
    requires WellFormed(nodes) && Invariant(nodes, h, w) && ExecutionsOk(w) && Enabled(nodes, w, step)
    ensures ExecutionsOk(Next(nodes, h, w, step))
  {
    hide WellFormed, Invariant, CompletedSet, Act, StartsOk;
    var w' := Next(nodes, h, w, step);
    match step
    case Launch(d) => NewIsOk(d, w.executed, w.disk);
    case Drive(d, a) =>
      OnlyStartActivates(nodes, h, w.drivers[d], a);
      if a.StartNode? {
        StartIsOk(d, w.executed, StartsOf(w, d), w.drivers[d], w'.drivers[d], a.node);
      } else {
        FewerAreOk(d, w.executed, StartsOf(w, d), w.drivers[d], w'.drivers[d]);
      }
    case Checkpoint(d, n) =>
      if MaySave(w.disk, w.drivers[d].mem) {
        CheckpointKeepsExecutions(nodes, h, w, d, n);
      } else {
        OnlyStartActivates(nodes, h, w.drivers[d], RaiseNode(n));
        FewerAreOk(d, w.executed, StartsOf(w, d), w.drivers[d], w'.drivers[d]);
      }
    case Save(d) => FewerAreOk(d, w.executed, StartsOf(w, d), w.drivers[d], w'.drivers[d]);
    case Crash(d) =>
  }

  lemma {:induction false} NewIsOk<V>(d: nat, executed: seq<Execution>, disk: GraphState<V>)
    ensures StartsOk(d, executed, map[], Launched(disk))
  {
  }

  lemma {:induction false} RunKeepsExecutions<V(!new)>(
    nodes: Nodes, h: Handler<V>, w: World<V>, steps: seq<Step>)
    requires WellFormed(nodes) && Invariant(nodes, h, w) && ExecutionsOk(w) && Runs(nodes, h, w, steps)
    ensures ExecutionsOk(After(nodes, h, w, steps))
    decreases |steps|
  {
    hide WellFormed, Invariant, ExecutionsOk, Enabled, Next;
    if steps != [] {
      StepKeepsInvariant(nodes, h, w, steps[0]);
      StepKeepsExecutions(nodes, h, w, steps[0]);
      RunKeepsExecutions(nodes, h, Next(nodes, h, w, steps[0]), steps[1..]);
    }
  }

  /** No node is executed that was complete in the store at its starting checkpoint, whatever the
      drivers' copies hold; and a driver calls a handler only after it made such an execution of the
      node since it last started it, and with all its inputs at hand. */
  lemma {:induction false} CompletedNodesAreNotRerun<V(!new)>(
    nodes: Nodes, h: Handler<V>, steps: seq<Step>, d: nat, n: string)
    requires WellFormed(nodes) && Runs(nodes, h, Start(nodes), steps)
    ensures var w := After(nodes, h, Start(nodes), steps);
      && (forall e <- w.executed :: e.node !in e.saved)
      && (d in w.drivers && (Can(nodes, w.drivers[d], FinishNode(n)) || Can(nodes, w.drivers[d], FailNode(n))) ==>
            && n in StartsOf(w, d) && ExecutedSince(w.executed, StartsOf(w, d)[n], d, n)
            && n !in CompletedSet(w.drivers[d].mem)
            && n in nodes && InputsAvailable(nodes, w.drivers[d].mem, n)
            && h(nodes[n], ResolveInputs(nodes, w.drivers[d].mem, n)) == Eval(nodes, h, n))
  {
    hide WellFormed, Eval, After, Runs, Invariant, CompletedSet, InputsAvailable, ResolveInputs, ExecutedSince;
    StartIsInvariant(nodes, h);
    RunKeepsInvariant(nodes, h, Start(nodes), steps);
    RunKeepsExecutions(nodes, h, Start(nodes), steps);
    var w := After(nodes, h, Start(nodes), steps);
    if d in w.drivers && (Can(nodes, w.drivers[d], FinishNode(n)) || Can(nodes, w.drivers[d], FailNode(n))) {
      HandlerFindsInputs(nodes, h, w, d, n);
      HandlerWasExecuted(nodes, w, d, n);
      hide Can;
    }
    hide ExecutionsOk;
  }

  lemma {:induction false} HandlerWasExecuted<V(!new)>(nodes: Nodes, w: World<V>, d: nat, n: string)
    requires ExecutionsOk(w) && d in w.drivers
    requires Can(nodes, w.drivers[d], FinishNode(n)) || Can(nodes, w.drivers[d], FailNode(n))
    ensures n in StartsOf(w, d) && ExecutedSince(w.executed, StartsOf(w, d)[n], d, n)
  {
    hide ExecutedSince, InputsAvailable;
    assert StartsOk(d, w.executed, StartsOf(w, d), w.drivers[d]);
  }

  lemma {:induction false} HandlerFindsInputs<V(!new)>(nodes: Nodes, h: Handler<V>, w: World<V>, d: nat, n: string)
    requires WellFormed(nodes) && Invariant(nodes, h, w) && d in w.drivers
    requires Can(nodes, w.drivers[d], FinishNode(n)) || Can(nodes, w.drivers[d], FailNode(n))
    ensures n !in CompletedSet(w.drivers[d].mem)
    ensures n in nodes && InputsAvailable(nodes, w.drivers[d].mem, n)
    ensures h(nodes[n], ResolveInputs(nodes, w.drivers[d].mem, n)) == Eval(nodes, h, n)
  {
    hide WellFormed, Eval;
    var drv := w.drivers[d];
    assert DriverOk(nodes, h, w.disk, drv);
    OpenNode(nodes, h, drv, n);
    ResolvedInputsEvaluate(nodes, h, drv.mem, n);
  }

  /** No node is started, either, that is complete in the driver's own copy, or in the store while
      that copy can be saved. */
  lemma {:induction false} CompletedNodesAreNotStarted<V(!new)>(
    nodes: Nodes, h: Handler<V>, steps: seq<Step>, d: nat, n: string)
    requires WellFormed(nodes) && Runs(nodes, h, Start(nodes), steps)
    requires d in After(nodes, h, Start(nodes), steps).drivers
    requires Can(nodes, After(nodes, h, Start(nodes), steps).drivers[d], StartNode(n))
    ensures var w := After(nodes, h, Start(nodes), steps);
      && n !in CompletedSet(w.drivers[d].mem)
      && (MaySave(w.disk, w.drivers[d].mem) ==> n !in CompletedSet(w.disk))
  {
    hide WellFormed, Eval, After, Runs;
    StartIsInvariant(nodes, h);
    RunKeepsInvariant(nodes, h, Start(nodes), steps);
    var w := After(nodes, h, Start(nodes), steps);
    assert DriverOk(nodes, h, w.disk, w.drivers[d]);
    OpenNode(nodes, h, w.drivers[d], n);
  }

  /** A round without errors completes at least one more node. */
  lemma {:induction false} RoundsMakeProgress<V(!new)>(nodes: Nodes, h: Handler<V>, steps: seq<Step>, d: nat)
    requires WellFormed(nodes) && Runs(nodes, h, Start(nodes), steps)
    requires d in After(nodes, h, Start(nodes), steps).drivers
    requires var drv := After(nodes, h, Start(nodes), steps).drivers[d];
      Can(nodes, drv, CloseRound) && drv.phase.erred == {}
    ensures var drv := After(nodes, h, Start(nodes), steps).drivers[d];
      && drv.base < CompletedSet(drv.mem)
      && CompletedSet(drv.mem) == drv.base + Frontier(nodes, drv.base)
  {
    hide WellFormed, Eval, After, Runs, DependenciesIn, Frontier, CompletedSet, RoundValid;
    StartIsInvariant(nodes, h);
    RunKeepsInvariant(nodes, h, Start(nodes), steps);
    var w := After(nodes, h, Start(nodes), steps);
    assert DriverOk(nodes, h, w.disk, w.drivers[d]);
    ClosedRoundProgress(nodes, w.drivers[d]);
  }

  lemma {:induction false} ClosedRoundProgress<V>(nodes: Nodes, drv: Driver<V>)
    requires RoundValid(nodes, drv)
    requires drv.phase.todo == {} && drv.phase.active == {} && drv.phase.erred == {}
    ensures drv.base < CompletedSet(drv.mem)
    ensures CompletedSet(drv.mem) == drv.base + Frontier(nodes, drv.base)
  {
    hide DependenciesIn, CompletedSet;
    var n :| n in drv.phase.ready;
    assert n !in drv.base;
  }

  /** Round r of a run from scratch executes exactly the nodes whose longest dependency chain has
      length r. */
  lemma {:induction false} RoundsFollowLevels<V(!new)>(nodes: Nodes, h: Handler<V>, steps: seq<Step>, d: nat)
    requires WellFormed(nodes) && Runs(nodes, h, Start(nodes), steps)
    requires d in After(nodes, h, Start(nodes), steps).drivers
    requires var drv := After(nodes, h, Start(nodes), steps).drivers[d];
      drv.fromScratch && drv.phase.InRound?
    ensures var drv := After(nodes, h, Start(nodes), steps).drivers[d];
      && drv.phase.ready == AtLevel(nodes, drv.round)
      && drv.base == Below(nodes, drv.round)
  {
    hide WellFormed, Eval, After, Runs, Frontier, Below, AtLevel;
    StartIsInvariant(nodes, h);
    RunKeepsInvariant(nodes, h, Start(nodes), steps);
    var w := After(nodes, h, Start(nodes), steps);
    assert DriverOk(nodes, h, w.disk, w.drivers[d]);
    FrontierIsNextLevel(nodes, w.drivers[d].round);
  }

  // ---------------------------------------------------------------- from an accepted graph

  function NodeMap(nodes: seq<Node>): Nodes {
    if nodes == [] then map[] else NodeMap(nodes[..|nodes| - 1])[nodes[|nodes| - 1].id := nodes[|nodes| - 1]]
  }

  lemma {:induction false} NodeMapFacts(nodes: seq<Node>)
    ensures Deps(NodeMap(nodes)) == DependencyMap(nodes)
    ensures forall id :: id in NodeMap(nodes) ==> NodeMap(nodes)[id] in nodes
  {
    if nodes != [] {
      NodeMapFacts(nodes[..|nodes| - 1]);
    }
  }

  /** Whatever the validators accept, the engine can run. */
  lemma {:induction false} AcceptedIsWellFormed(g: Graph)
    requires Accepted(g) && forall n :: n in g.nodes ==> ReferencesValid(n)
    ensures WellFormed(NodeMap(g.nodes))
  {
    NodeMapFacts(g.nodes);
    KnownIsClosed(g.nodes);
  }
}
