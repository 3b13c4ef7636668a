/** Single-flight loading of one cache key: `get_or_set_json` under every interleaving. */
module SingleFlight {
  import opened Messages

  /** What a load ends with. */
  datatype Outcome<V> = Value(value: V) | Exception(error: string)

  /** Where a caller is. `Loading` owns the future, `Cleaning` has settled it but still has to
      take it out of the table, `Waiting` follows another caller's future. */
  datatype Phase<V> =
    | Checking
    | Loading(future: nat)
    | Cleaning(future: nat, outcome: Outcome<V>)
    | Waiting(future: nat)
    | Ended(through: Option<nat>, outcome: Outcome<V>)
    | Cancelled

  /** `futures` holds the outcome of every settled future; `owner` who created each. */
  datatype State<V> = State(
    inflight: Option<nat>, futures: map<nat, Option<Outcome<V>>>, owner: map<nat, nat>,
    callers: map<nat, Phase<V>>)

  datatype Step<V> =
    | Arrive(caller: nat)
    | CacheHit(caller: nat, value: V)
    | Enter(caller: nat, future: nat)
    | LoadEnds(caller: nat, outcome: Outcome<V>)
    | Cleanup(caller: nat)
    | FollowerReturns(caller: nat)
    | FollowerCancelled(caller: nat)

  function Start<V>(): State<V> {
    State(None, map[], map[], map[])
  }

  predicate Enabled<V(==)>(s: State<V>, step: Step<V>) {
    match step
    case Arrive(c) => c !in s.callers
    case CacheHit(c, _) => c in s.callers && s.callers[c] == Checking
    case Enter(c, f) => c in s.callers && s.callers[c] == Checking && f !in s.futures
    case LoadEnds(c, _) => c in s.callers && s.callers[c].Loading?
    case Cleanup(c) => c in s.callers && s.callers[c].Cleaning?
    case FollowerReturns(c) =>
      && c in s.callers && s.callers[c].Waiting?
      && s.callers[c].future in s.futures && s.futures[s.callers[c].future].Some?
    case FollowerCancelled(c) => c in s.callers && s.callers[c].Waiting?
  }

  /** An owner that is cancelled or fails settles its future with that exception. */
  function Next<V(==)>(s: State<V>, step: Step<V>): State<V>
    requires Enabled(s, step)
  {
    match step
    case Arrive(c) => s.(callers := s.callers[c := Checking])
    case CacheHit(c, v) => s.(callers := s.callers[c := Ended(None, Value(v))])
    case Enter(c, f) =>
      (match s.inflight
       case None =>
         State(Some(f), s.futures[f := None], s.owner[f := c], s.callers[c := Loading(f)])
       case Some(g) => s.(callers := s.callers[c := Waiting(g)]))
    case LoadEnds(c, outcome) =>
      var f := s.callers[c].future;
      s.(futures := s.futures[f := Some(outcome)], callers := s.callers[c := Cleaning(f, outcome)])
    case Cleanup(c) =>
      s.(inflight := None,
         callers := s.callers[c := Ended(Some(s.callers[c].future), s.callers[c].outcome)])
    case FollowerReturns(c) =>
      var f := s.callers[c].future;
      s.(callers := s.callers[c := Ended(Some(f), s.futures[f].value)])
    case FollowerCancelled(c) => s.(callers := s.callers[c := Cancelled])
  }

  // ---------------------------------------------------------------- invariant

  /** The caller has created `f` and not yet taken it out of the table. */
  predicate Holds<V>(p: Phase<V>, f: nat) {
    (p.Loading? || p.Cleaning?) && p.future == f
  }

  ghost predicate CallerValid<V>(s: State<V>, c: nat)
    requires c in s.callers
  {
    match s.callers[c]
    case Loading(f) =>
      s.inflight == Some(f) && f in s.futures && s.futures[f].None? && f in s.owner && s.owner[f] == c
    case Cleaning(f, outcome) =>
      s.inflight == Some(f) && f in s.futures && s.futures[f] == Some(outcome)
      && f in s.owner && s.owner[f] == c
    case Waiting(f) => f in s.futures
    case Ended(f, outcome) => f.Some? ==> f.value in s.futures && s.futures[f.value] == Some(outcome)
    case _ => true
  }

  ghost predicate Invariant<V>(s: State<V>) {
    && (forall c :: c in s.callers ==> CallerValid(s, c))
    && (s.inflight.Some? ==>
          && s.inflight.value in s.owner
          && s.owner[s.inflight.value] in s.callers
          && Holds(s.callers[s.owner[s.inflight.value]], s.inflight.value))
    && (forall f :: f in s.futures && s.futures[f].None? ==> s.inflight == Some(f))
  }

  lemma {:induction false} StepKeepsInvariant<V>(s: State<V>, step: Step<V>)
    requires Invariant(s) && Enabled(s, step)
    ensures Invariant(Next(s, step))
  {
    var t := Next(s, step);
    forall c | c in t.callers
      ensures CallerValid(t, c)
    {
      if c in s.callers {
        assert CallerValid(s, c);
      }
    }
  }

  ghost predicate Runs<V>(s: State<V>, steps: seq<Step<V>>)
    decreases |steps|
  {
    steps == [] || (Enabled(s, steps[0]) && Runs(Next(s, steps[0]), steps[1..]))
  }

  ghost function After<V>(s: State<V>, steps: seq<Step<V>>): State<V>
    requires Runs(s, steps)
    decreases |steps|
  {
    if steps == [] then s else After(Next(s, steps[0]), steps[1..])
  }

  lemma {:induction false} RunKeepsInvariant<V>(s: State<V>, steps: seq<Step<V>>)
    requires Invariant(s) && Runs(s, steps)
    ensures Invariant(After(s, steps))
    decreases |steps|
  {
    hide Invariant, Enabled, Next;
    if steps != [] {
      StepKeepsInvariant(s, steps[0]);
      RunKeepsInvariant(Next(s, steps[0]), steps[1..]);
    }
  }

  // ---------------------------------------------------------------- what the loaders returned

  predicate IsLoadOf<V>(step: Step<V>, c: nat) {
    step.LoadEnds? && step.caller == c
  }

  ghost predicate NeverLoaded<V>(past: seq<Step<V>>, c: nat) {
    forall i :: 0 <= i < |past| ==> !IsLoadOf(past[i], c)
  }

  /** The caller's loader ended once in `past`, with this outcome. */
  ghost predicate Loaded<V>(past: seq<Step<V>>, c: nat, outcome: Outcome<V>) {
    exists i :: 0 <= i < |past| && past[i] == LoadEnds(c, outcome)
      && forall j :: 0 <= j < |past| && IsLoadOf(past[j], c) ==> j == i
  }

  /** The caller that created the future loaded this outcome. */
  ghost predicate CameFrom<V>(s: State<V>, past: seq<Step<V>>, f: nat, outcome: Outcome<V>) {
    f in s.owner && Enter(s.owner[f], f) in past && Loaded(past, s.owner[f], outcome)
  }

  ghost predicate CallerExplained<V>(s: State<V>, past: seq<Step<V>>, c: nat)
    requires c in s.callers
  {
    match s.callers[c]
    case Cleaning(f, outcome) => f in s.owner && s.owner[f] == c && CameFrom(s, past, f, outcome)
    case Ended(None, outcome) =>
      NeverLoaded(past, c) && outcome.Value? && CacheHit(c, outcome.value) in past
    case Ended(Some(f), outcome) =>
      CameFrom(s, past, f, outcome) && (s.owner[f] != c ==> NeverLoaded(past, c))
    case _ => NeverLoaded(past, c)
  }

  /** A creator works on its own future or ended through it. */
  ghost predicate OwnerExplained<V>(s: State<V>, past: seq<Step<V>>, f: nat)
    requires f in s.owner
  {
    var c := s.owner[f];
    && f in s.futures && Enter(c, f) in past && c in s.callers
    && (Holds(s.callers[c], f) || (s.callers[c].Ended? && s.callers[c].through == Some(f)))
  }

  ghost predicate Explained<V>(s: State<V>, past: seq<Step<V>>) {
    && (forall c <- s.callers :: CallerExplained(s, past, c))
    && (forall c: nat :: c !in s.callers ==> NeverLoaded(past, c))
    && (forall f <- s.owner :: OwnerExplained(s, past, f))
    && (forall f <- s.futures :: s.futures[f].Some? ==> CameFrom(s, past, f, s.futures[f].value))
  }

  /** A step that is not a load of `c` adds nothing to what `c` loaded. */
  lemma {:induction false} OthersLoad<V>(past: seq<Step<V>>, step: Step<V>, c: nat)
    requires !IsLoadOf(step, c)
    ensures NeverLoaded(past, c) ==> NeverLoaded(past + [step], c)
    ensures forall o :: Loaded(past, c, o) ==> Loaded(past + [step], c, o)
  {
    forall o | Loaded(past, c, o)
      ensures Loaded(past + [step], c, o)
    {
      var i :| 0 <= i < |past| && past[i] == LoadEnds(c, o)
        && forall j :: 0 <= j < |past| && IsLoadOf(past[j], c) ==> j == i;
      assert (past + [step])[i] == LoadEnds(c, o);
    }
  }

  lemma {:induction false} LoadIsRecorded<V>(past: seq<Step<V>>, c: nat, outcome: Outcome<V>)
    requires NeverLoaded(past, c)
    ensures Loaded(past + [LoadEnds(c, outcome)], c, outcome)
  {
    assert (past + [LoadEnds(c, outcome)])[|past|] == LoadEnds(c, outcome);
  }

  lemma {:induction false} CallerFacts<V>(s: State<V>, past: seq<Step<V>>, c: nat)
    requires Invariant(s) && Explained(s, past)
    ensures c in s.callers ==> CallerValid(s, c) && CallerExplained(s, past, c)
    ensures c !in s.callers ==> NeverLoaded(past, c)
  {
  }

  lemma {:induction false} OwnerFacts<V>(s: State<V>, past: seq<Step<V>>, f: nat)
    requires Invariant(s) && Explained(s, past) && f in s.owner
    ensures OwnerExplained(s, past, f) && CallerValid(s, s.owner[f])
  {
  }

  /** A settled future keeps its creator, who does not load again. */
  lemma {:induction false} SourceStays<V>(s: State<V>, past: seq<Step<V>>, step: Step<V>, f: nat, o: Outcome<V>)
    requires Invariant(s) && Explained(s, past) && Enabled(s, step)
    requires f in s.futures && s.futures[f] == Some(o) && CameFrom(s, past, f, o)
    ensures CameFrom(Next(s, step), past + [step], f, o)
    ensures f in Next(s, step).owner && Next(s, step).owner[f] == s.owner[f]
  {
    hide Invariant, Explained, Loaded, NeverLoaded;
    OwnerFacts(s, past, f);
    OthersLoad(past, step, s.owner[f]);
  }

  lemma {:induction false} OwnerStaysExplained<V>(s: State<V>, past: seq<Step<V>>, step: Step<V>, f: nat)
    requires Invariant(s) && Explained(s, past) && Enabled(s, step) && f in Next(s, step).owner
    ensures OwnerExplained(Next(s, step), past + [step], f)
  {
    hide Invariant, Explained;
    if f in s.owner {
      OwnerFacts(s, past, f);
    }
  }

  lemma {:induction false} OtherStaysExplained<V>(s: State<V>, past: seq<Step<V>>, step: Step<V>, c: nat)
    requires Invariant(s) && Explained(s, past) && Enabled(s, step)
    requires c in s.callers && c != step.caller
    ensures CallerExplained(Next(s, step), past + [step], c)
  {
    hide Invariant, Explained, Loaded, NeverLoaded, CameFrom;
    CallerFacts(s, past, c);
    OthersLoad(past, step, c);
    assert Next(s, step).callers[c] == s.callers[c];
    match s.callers[c]
    case Cleaning(f, o) => SourceStays(s, past, step, f, o);
    case Ended(Some(f), o) =>
      assert f in s.owner by { hide *; CameFromOwner(s, past, f, o); }
      SourceStays(s, past, step, f, o);
    case _ =>
  }

  lemma {:induction false} CameFromOwner<V>(s: State<V>, past: seq<Step<V>>, f: nat, o: Outcome<V>)
    requires CameFrom(s, past, f, o)
    ensures f in s.owner
  {
  }

  lemma {:induction false} LoadIsExplained<V>(s: State<V>, past: seq<Step<V>>, c: nat, o: Outcome<V>)
    requires Invariant(s) && Explained(s, past) && Enabled(s, LoadEnds(c, o))
    ensures CallerExplained(Next(s, LoadEnds(c, o)), past + [LoadEnds(c, o)], c)
  {
    hide Invariant, Explained, Loaded, NeverLoaded;
    CallerFacts(s, past, c);
    OwnerFacts(s, past, s.callers[c].future);
    LoadIsRecorded(past, c, o);
  }

  lemma {:induction false} EndIsExplained<V>(s: State<V>, past: seq<Step<V>>, step: Step<V>)
    requires Invariant(s) && Explained(s, past) && Enabled(s, step)
    requires step.Cleanup? || step.FollowerReturns?
    ensures CallerExplained(Next(s, step), past + [step], step.caller)
  {
    hide Loaded, NeverLoaded, CameFrom;
    var c := step.caller;
    var f := s.callers[c].future;
    CallerFacts(s, past, c);
    hide Invariant, Explained;
    OthersLoad(past, step, c);
    var o := s.futures[f].value;
    assert CameFrom(s, past, f, o) by { SettledFacts(s, past, f); }
    CameFromOwner(s, past, f, o);
    SourceStays(s, past, step, f, o);
  }

  lemma {:induction false} SettledFacts<V>(s: State<V>, past: seq<Step<V>>, f: nat)
    requires Explained(s, past) && f in s.futures && s.futures[f].Some?
    ensures CameFrom(s, past, f, s.futures[f].value)
  {
  }

  lemma {:induction false} ActorIsExplained<V>(s: State<V>, past: seq<Step<V>>, step: Step<V>)
    requires Invariant(s) && Explained(s, past) && Enabled(s, step)
    ensures CallerExplained(Next(s, step), past + [step], step.caller)
  {
    hide Invariant, Explained, Loaded, NeverLoaded, CameFrom;
    var c := step.caller;
    match step
    case LoadEnds(_, o) => LoadIsExplained(s, past, c, o);
    case Cleanup(_) => EndIsExplained(s, past, step);
    case FollowerReturns(_) => EndIsExplained(s, past, step);
    case _ =>
      CallerFacts(s, past, c);
      OthersLoad(past, step, c);
  }

  lemma {:induction false} StepExplains<V>(s: State<V>, past: seq<Step<V>>, step: Step<V>)
    requires Invariant(s) && Explained(s, past) && Enabled(s, step)
    ensures Explained(Next(s, step), past + [step])
  {
    var t := Next(s, step);
    forall f | f in t.owner
      ensures OwnerExplained(t, past + [step], f)
    {
      OwnerStaysExplained(s, past, step, f);
    }
    forall c | c in t.callers
      ensures CallerExplained(t, past + [step], c)
    {
      if c == step.caller {
        ActorIsExplained(s, past, step);
      } else {
        OtherStaysExplained(s, past, step, c);
      }
    }
    forall c: nat | c !in t.callers
      ensures NeverLoaded(past + [step], c)
    {
      OthersLoad(past, step, c);
    }
    forall f | f in t.futures && t.futures[f].Some?
      ensures CameFrom(t, past + [step], f, t.futures[f].value)
    {
      if f in s.futures && s.futures[f].Some? {
        SourceStays(s, past, step, f, s.futures[f].value);
        FutureStays(s, step, f);
      } else {
        assert step.LoadEnds? && t.callers[step.caller] == Cleaning(f, step.outcome);
        assert CallerExplained(t, past + [step], step.caller);
      }
    }
    hide Loaded, NeverLoaded, CallerExplained, OwnerExplained, CameFrom, Next, Enabled;
  }

  lemma {:induction false} FutureStays<V>(s: State<V>, step: Step<V>, f: nat)
    requires Invariant(s) && Enabled(s, step) && f in s.futures && s.futures[f].Some?
    ensures Next(s, step).futures[f] == s.futures[f]
  {
    if step.LoadEnds? {
      assert CallerValid(s, step.caller);
    }
  }

  lemma {:induction false} RunExplains<V>(s: State<V>, past: seq<Step<V>>, steps: seq<Step<V>>)
    requires Invariant(s) && Explained(s, past) && Runs(s, steps)
    ensures Explained(After(s, steps), past + steps)
    decreases |steps|
  {
    hide Invariant, Enabled, Next, Explained;
    if steps == [] {
      assert past + steps == past;
    } else {
      StepKeepsInvariant(s, steps[0]);
      StepExplains(s, past, steps[0]);
      RunExplains(Next(s, steps[0]), past + [steps[0]], steps[1..]);
      assert past + [steps[0]] + steps[1..] == past + steps;
    }
  }

  // ---------------------------------------------------------------- theorems

  /** The caller created a future and has not cleaned up yet. */
  predicate AtWork<V>(s: State<V>, c: nat) {
    c in s.callers && (s.callers[c].Loading? || s.callers[c].Cleaning?)
  }

  /** At most one caller loads at a time, and the table holds a future exactly while its creator
      has not cleaned up. */
  lemma {:induction false} OneLoaderAtATime<V>(steps: seq<Step<V>>, a: nat, b: nat)
    requires Runs(Start(), steps)
    ensures var s := After(Start(), steps);
      && (AtWork(s, a) && AtWork(s, b) ==> a == b)
      && (s.inflight.Some? <==> exists c :: AtWork(s, c))
      && (AtWork(s, a) ==> s.inflight == Some(s.callers[a].future))
  {
    RunKeepsInvariant(Start<V>(), steps);
    var s := After(Start<V>(), steps);
    if a in s.callers {
      assert CallerValid(s, a);
    }
    if b in s.callers {
      assert CallerValid(s, b);
    }
    if exists c :: AtWork(s, c) {
      var c :| AtWork(s, c);
      assert CallerValid(s, c);
    }
    if s.inflight.Some? {
      assert AtWork(s, s.owner[s.inflight.value]);
    }
  }

  /** Everyone who ended through the same future ended with the same outcome. */
  lemma {:induction false} FollowersShareTheOutcome<V>(steps: seq<Step<V>>, a: nat, b: nat)
    requires Runs(Start(), steps)
    requires var s := After(Start(), steps);
      && a in s.callers && s.callers[a].Ended? && s.callers[a].through.Some?
      && b in s.callers && s.callers[b].Ended? && s.callers[b].through == s.callers[a].through
    ensures var s := After(Start(), steps); s.callers[a].outcome == s.callers[b].outcome
  {
    RunKeepsInvariant(Start<V>(), steps);
    var s := After(Start<V>(), steps);
    assert CallerValid(s, a) && CallerValid(s, b);
  }

  /** Everyone gets what was loaded: a caller that ended through a future ended with the outcome of the
      one load of the caller that created it; a creator ends through its own future, so with its own
      loader's outcome; and a caller that ended through none had that value from the cache. */
  lemma {:induction false} EveryoneGetsTheLoad<V>(steps: seq<Step<V>>, c: nat)
    requires Runs(Start(), steps) && c in After(Start(), steps).callers
    requires After(Start(), steps).callers[c].Ended?
    ensures var s := After(Start(), steps);
      match s.callers[c]
      case Ended(Some(f), outcome) =>
        f in s.owner && Enter(s.owner[f], f) in steps && Loaded(steps, s.owner[f], outcome)
      case Ended(None, outcome) => outcome.Value? && CacheHit(c, outcome.value) in steps
      case _ => true
    ensures var s := After(Start(), steps);
      && (forall f :: f in s.owner && s.owner[f] == c ==>
            s.callers[c].through == Some(f) && Loaded(steps, c, s.callers[c].outcome))
      && ((exists i :: 0 <= i < |steps| && IsLoadOf(steps[i], c)) ==> Loaded(steps, c, s.callers[c].outcome))
  {
    RunExplains(Start<V>(), [], steps);
    assert [] + steps == steps;
    var s := After(Start<V>(), steps);
    assert CallerExplained(s, steps, c);
    forall f | f in s.owner && s.owner[f] == c
      ensures s.callers[c].through == Some(f)
    {
      assert OwnerExplained(s, steps, f);
    }
    hide Runs, After, Loaded;
  }

  /** Nobody is blocked: a waiting caller can return, or its loader is still at work; and with no
      loader at work the next caller loads, whether or not the last load failed. */
  lemma {:induction false} NobodyIsBlocked<V>(steps: seq<Step<V>>, c: nat, f: nat)
    requires Runs(Start(), steps) && c in After(Start(), steps).callers
    ensures var s := After(Start(), steps);
      && (s.callers[c].Waiting? ==>
            || Enabled(s, FollowerReturns(c))
            || (&& s.callers[c].future in s.owner && s.owner[s.callers[c].future] in s.callers
                && s.callers[s.owner[s.callers[c].future]] == Loading(s.callers[c].future)))
      && (s.callers[c] == Checking && f !in s.futures && (forall o :: !AtWork(s, o)) ==>
            Next(s, Enter(c, f)).callers[c] == Loading(f))
  {
    RunKeepsInvariant(Start<V>(), steps);
    var s := After(Start<V>(), steps);
    assert CallerValid(s, c);
    if s.inflight.Some? {
      assert AtWork(s, s.owner[s.inflight.value]);
    }
    if s.callers[c].Waiting? && s.futures[s.callers[c].future].None? {
      var o := s.owner[s.callers[c].future];
      assert CallerValid(s, o);
    }
  }
}
