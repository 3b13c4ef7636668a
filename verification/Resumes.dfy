/** How the runtime answers a paused run: the run is read, an approval is decided in its own store,
    and the new state is saved against the version that was read. Any number of callers do this at
    the same time, and any of them may stop anywhere. */
module Resumes {
  import opened Messages
  import Turns

  type RunState = Turns.RunState

  /** What a caller sends: a decision on an approval, or a clarification. */
  datatype Payload = Decision(approved: bool) | Clarification

  /** The stored approval of a pause. */
  datatype Ruling = Undecided | Ruled(approved: bool) | Lapsed

  /** A caller with its copy of the run. */
  datatype Caller =
    | Loaded(state: RunState, version: nat, payload: Payload)
    | Decided(state: RunState, version: nat, payload: Payload)

  /** A saved answer: the state it replaced, and the state its caller had read. */
  datatype Reply = Reply(ended: RunState, read: RunState, payload: Payload)

  /** One run. `replies` is an observation. */
  datatype Runtime = Runtime(
    state: RunState, version: nat, nextPause: nat, rulings: map<nat, Ruling>,
    callers: map<nat, Caller>, replies: seq<Reply>)

  datatype Step =
    | Load(caller: nat, payload: Payload)
    | Decide(caller: nat, late: bool)
    | Commit(caller: nat, ends: bool)
    | Drop(caller: nat)
    | Pause(kind: Turns.Kind)
    | Hold
    | Continue
    | Save
    | Expire
    | End

  function Start(): Runtime {
    Runtime(Turns.Running, 0, 0, map[], map[], [])
  }

  /** The other kind of answer is refused before anything is decided, and so is every answer to a held
      run, which waits for a tool call to be settled. */
  predicate Matches(state: RunState, payload: Payload) {
    state.Paused? && (state.kind.Approval? <==> payload.Decision?)
  }

  function RulingOf(r: Runtime, pause: nat): Ruling {
    if pause in r.rulings then r.rulings[pause] else Lapsed
  }

  /** The expiry pass leaves approvals alone that somebody has decided, and held runs. */
  predicate Expirable(r: Runtime) {
    r.state.Paused? && (r.state.kind.Approval? ==> !RulingOf(r, r.state.pause).Ruled?)
  }

  predicate Enabled(r: Runtime, s: Step) {
    match s
    case Load(c, payload) => c !in r.callers && Matches(r.state, payload)
    case Decide(c, _) =>
      c in r.callers && r.callers[c].Loaded? && r.callers[c].payload.Decision? && r.callers[c].state.Paused?
    case Commit(c, ends) =>
      && c in r.callers
      && (r.callers[c].Decided? || r.callers[c].payload.Clarification?)
      && (ends ==> r.callers[c].payload == Decision(false))
    case Drop(c) => c in r.callers
    case Pause(_) => r.state.Running?
    case Hold => r.state.Running?
    case Continue => r.state.Held?
    case Save => !r.state.Ended?
    case Expire => Expirable(r)
    case End => !r.state.Ended?
  }

  function Leave(r: Runtime, c: nat): Runtime {
    r.(callers := r.callers - {c})
  }

  /** Every write of the run moves its version on. */
  function Saved(r: Runtime, state: RunState): Runtime {
    r.(state := state, version := r.version + 1)
  }

  function Do(r: Runtime, s: Step): Runtime
    requires Enabled(r, s)
  {
    match s
    case Load(c, payload) => r.(callers := r.callers[c := Loaded(r.state, r.version, payload)])
    case Decide(c, late) =>
      var caller := r.callers[c];
      var pause := caller.state.pause;
      if !RulingOf(r, pause).Undecided? then Leave(r, c)
      else if late then Leave(r, c).(rulings := r.rulings[pause := Lapsed])
      else
        r.(rulings := r.rulings[pause := Ruled(caller.payload.approved)],
           callers := r.callers[c := Decided(caller.state, caller.version, caller.payload)])
    case Commit(c, ends) =>
      var caller := r.callers[c];
      if caller.version != r.version then Leave(r, c)
      else
        Saved(Leave(r, c), if ends then Turns.Ended else Turns.Running)
          .(replies := r.replies + [Reply(r.state, caller.state, caller.payload)])
    case Drop(c) => Leave(r, c)
    case Pause(kind) =>
      Saved(r, Turns.Paused(r.nextPause, kind)).(
        nextPause := r.nextPause + 1,
        rulings := if kind.Approval? then r.rulings[r.nextPause := Undecided] else r.rulings)
    case Hold => Saved(r, Turns.Held(r.nextPause)).(nextPause := r.nextPause + 1)
    case Continue => Saved(r, Turns.Running)
    case Save => Saved(r, r.state)
    case Expire => Saved(r, Turns.Ended)
    case End => Saved(r, Turns.Ended)
  }

  ghost predicate Possible(r: Runtime, steps: seq<Step>)
    decreases |steps|
  {
    steps == [] || (Enabled(r, steps[0]) && Possible(Do(r, steps[0]), steps[1..]))
  }

  ghost function After(r: Runtime, steps: seq<Step>): Runtime
    requires Possible(r, steps)
    decreases |steps|
  {
    if steps == [] then r else After(Do(r, steps[0]), steps[1..])
  }

  // ---------------------------------------------------------------- what every step keeps

  /** A copy is of the run as it was at its version; a decided one was ruled by its caller. */
  ghost predicate CallerOk(r: Runtime, c: Caller) {
    && Matches(c.state, c.payload) && c.state.pause < r.nextPause
    && c.version <= r.version && (c.version == r.version ==> c.state == r.state)
    && (c.Decided? ==> c.payload.Decision? && RulingOf(r, c.state.pause) == Ruled(c.payload.approved))
  }

  ghost predicate CallersOk(r: Runtime) {
    && (forall c <- r.callers :: CallerOk(r, r.callers[c]))
    && (forall c, d :: c in r.callers && d in r.callers && c != d && r.callers[c].Decided? && r.callers[d].Decided?
          ==> r.callers[c].state.pause != r.callers[d].state.pause)
  }

  /** An answer ended the pause that its caller had read, in the way that was decided. */
  ghost predicate ReplyOk(r: Runtime, reply: Reply) {
    && Matches(reply.ended, reply.payload) && reply.ended == reply.read && reply.ended.pause < r.nextPause
    && (reply.payload.Decision? ==> RulingOf(r, reply.ended.pause) == Ruled(reply.payload.approved))
  }

  ghost predicate AnsweredOnce(replies: seq<Reply>) {
    forall j, k :: 0 <= j < k < |replies| && replies[j].ended.Paused? && replies[k].ended.Paused? ==>
      replies[j].ended.pause != replies[k].ended.pause
  }

  ghost predicate IsAnswered(replies: seq<Reply>, pause: nat) {
    exists k :: 0 <= k < |replies| && replies[k].ended.Paused? && replies[k].ended.pause == pause
  }

  ghost predicate RunOk(r: Runtime) {
    && (forall k :: 0 <= k < |r.replies| ==> ReplyOk(r, r.replies[k]))
    && AnsweredOnce(r.replies)
    && (forall p <- r.rulings :: p < r.nextPause)
    && (r.state.Paused? ==>
          && r.state.pause < r.nextPause && !IsAnswered(r.replies, r.state.pause)
          && (r.state.kind.Approval? ==> r.state.pause in r.rulings))
  }

  ghost predicate Inv(r: Runtime) {
    CallersOk(r) && RunOk(r)
  }

  lemma {:induction false} StepKeepsCallers(r: Runtime, s: Step)
    requires Inv(r) && Enabled(r, s)
    ensures CallersOk(Do(r, s))
  {
    hide AnsweredOnce, IsAnswered;
  }

  lemma {:induction false} StepKeepsRun(r: Runtime, s: Step)
    requires Inv(r) && Enabled(r, s)
    ensures RunOk(Do(r, s))
  {
  }

  // ---------------------------------------------------------------- whole runs

  lemma {:induction false} RunKeepsInv(r: Runtime, steps: seq<Step>)
    requires Inv(r) && Possible(r, steps)
    ensures Inv(After(r, steps))
    decreases |steps|
  {
    if steps != [] {
      hide CallersOk, RunOk, Do, Enabled;
      StepKeepsCallers(r, steps[0]);
      StepKeepsRun(r, steps[0]);
      RunKeepsInv(Do(r, steps[0]), steps[1..]);
    }
  }

  /** However many callers answer, decide, are overtaken or stop anywhere: no pause is answered twice,
      an answer ends the pause that its caller read, of the kind it was meant for, and a decision that
      took effect is the one that was recorded. */
  lemma {:induction false} PausesAreAnsweredOnce(steps: seq<Step>)
    requires Possible(Start(), steps)
    ensures var r := After(Start(), steps);
      && AnsweredOnce(r.replies)
      && (forall reply <- r.replies :: reply.ended == reply.read && Matches(reply.ended, reply.payload))
      && (forall reply <- r.replies :: reply.payload.Decision? ==>
            RulingOf(r, reply.ended.pause) == Ruled(reply.payload.approved))
  {
    RunKeepsInv(Start(), steps);
    hide Possible, After, RulingOf, Matches;
  }

  /** A ruling changes only so: a new approval is undecided, and an undecided one takes the decision of the
      first caller to decide, or lapses if that comes too late. */
  lemma {:induction false} RulingsChangeOnlySo(r: Runtime, s: Step, pause: nat)
    requires Inv(r) && Enabled(r, s)
    ensures pause in r.rulings ==> pause in Do(r, s).rulings
    ensures pause in r.rulings && !r.rulings[pause].Undecided? ==> Do(r, s).rulings[pause] == r.rulings[pause]
    ensures pause in r.rulings && r.rulings[pause].Undecided? ==>
              Do(r, s).rulings[pause] ==
                if s.Decide? && r.callers[s.caller].state.pause == pause
                then if s.late then Lapsed else Ruled(r.callers[s.caller].payload.approved)
                else Undecided
    ensures pause !in r.rulings && pause in Do(r, s).rulings ==>
              s == Pause(Turns.Approval) && pause == r.nextPause && Do(r, s).rulings[pause] == Undecided
  {
    if s.Decide? {
      assert CallerOk(r, r.callers[s.caller]);
    }
    hide CallersOk, AnsweredOnce;
  }

  // ---------------------------------------------------------------- answering as one step

  function Answers(replies: seq<Reply>): seq<Turns.Answer> {
    seq(|replies|, i requires 0 <= i < |replies| =>
      Turns.Answer(if replies[i].ended.Paused? then replies[i].ended.pause else 0, None))
  }

  /** What the conversation service sees of the run. */
  function View(r: Runtime): Turns.World {
    Turns.Begin().(runs := [r.state], nextPause := r.nextPause, answers := Answers(r.replies))
  }

  /** The effect of a step as steps of the turn protocol, which answers a run in one step. */
  function Effect(r: Runtime, s: Step): seq<Turns.Step>
    requires Enabled(r, s)
  {
    match s
    case Commit(c, ends) =>
      if r.callers[c].version != r.version then []
      else if ends then [Turns.AnswerElsewhere(0), Turns.RunEnds(0)]
      else [Turns.AnswerElsewhere(0)]
    case Pause(kind) => [Turns.RunPauses(0, kind)]
    case Hold => [Turns.RunHolds(0)]
    case Continue => [Turns.RunContinues(0)]
    case Expire => [Turns.RunEnds(0)]
    case End => [Turns.RunEnds(0)]
    case _ => []
  }

  ghost function Effects(r: Runtime, steps: seq<Step>): seq<Turns.Step>
    requires Possible(r, steps)
    decreases |steps|
  {
    if steps == [] then [] else Effect(r, steps[0]) + Effects(Do(r, steps[0]), steps[1..])
  }

  lemma {:induction false} AnswersAppend(replies: seq<Reply>, reply: Reply)
    requires reply.ended.Paused?
    ensures Answers(replies + [reply]) == Answers(replies) + [Turns.Answer(reply.ended.pause, None)]
  {
  }

  lemma {:induction false} OneStep(w: Turns.World, s: Turns.Step)
    requires Turns.Enabled(w, s)
    ensures Turns.Possible(w, [s]) && Turns.After(w, [s]) == Turns.Do(w, s)
  {
    hide Turns.Do, Turns.Enabled;
    assert [s][1..] == [];
  }

  lemma {:induction false} CommitIsOneAnswer(r: Runtime, c: nat, ends: bool)
    requires Inv(r) && Enabled(r, Commit(c, ends)) && r.callers[c].version == r.version
    ensures var ts := Effect(r, Commit(c, ends));
      Turns.Possible(View(r), ts) && Turns.After(View(r), ts) == View(Do(r, Commit(c, ends)))
  {
    assert CallerOk(r, r.callers[c]);
    AnswersAppend(r.replies, Reply(r.state, r.callers[c].state, r.callers[c].payload));
    var w, answer := View(r), Turns.AnswerElsewhere(0);
    assert Turns.Enabled(w, answer);
    var w' := Turns.Do(w, answer);
    assert w'.runs == [Turns.Running];
    OneStep(w, answer);
    if ends {
      assert Turns.Do(w', Turns.RunEnds(0)).runs == [Turns.Ended];
      OneStep(w', Turns.RunEnds(0));
      Turns.RunAppends(w, [answer], [Turns.RunEnds(0)]);
      assert [answer] + [Turns.RunEnds(0)] == [answer, Turns.RunEnds(0)];
      hide Answers, Turns.Possible, Turns.After;
    } else {
      hide Answers, Turns.Possible, Turns.After;
    }
  }

  lemma {:induction false} MoveIsOneStep(r: Runtime, s: Step)
    requires Enabled(r, s) && (s.Pause? || s.Hold? || s.Continue? || s.Expire? || s.End?)
    ensures |Effect(r, s)| == 1 && Turns.Enabled(View(r), Effect(r, s)[0])
    ensures Turns.Do(View(r), Effect(r, s)[0]) == View(Do(r, s))
  {
    hide Answers;
  }

  lemma {:induction false} StepHasEffect(r: Runtime, s: Step)
    requires Inv(r) && Enabled(r, s)
    ensures Turns.Possible(View(r), Effect(r, s))
    ensures Turns.After(View(r), Effect(r, s)) == View(Do(r, s))
  {
    hide Inv, Answers, Turns.Possible, Turns.After, Turns.Do, Turns.Enabled;
    if s.Commit? && r.callers[s.caller].version == r.version {
      CommitIsOneAnswer(r, s.caller, s.ends);
    } else if s.Pause? || s.Hold? || s.Continue? || s.Expire? || s.End? {
      MoveIsOneStep(r, s);
      OneStep(View(r), Effect(r, s)[0]);
      assert Effect(r, s) == [Effect(r, s)[0]];
    } else {
      NoSteps(View(r));
    }
  }

  lemma {:induction false} NoSteps(w: Turns.World)
    ensures Turns.Possible(w, []) && Turns.After(w, []) == w
  {
  }

  /** Reading, deciding and saving has the effect of answering in one step: every run of the callers
      is a run of the turn protocol's answers, pauses, holds and ends. */
  lemma {:induction false} ResumingIsAtomic(r: Runtime, steps: seq<Step>)
    requires Inv(r) && Possible(r, steps)
    ensures Turns.Possible(View(r), Effects(r, steps))
    ensures Turns.After(View(r), Effects(r, steps)) == View(After(r, steps))
    decreases |steps|
  {
    if steps == [] {
      NoSteps(View(r));
    } else {
      StepHasEffect(r, steps[0]);
      StepKeepsCallers(r, steps[0]);
      StepKeepsRun(r, steps[0]);
      hide CallersOk, RunOk, Do, Enabled, View, Effect, Turns.Possible, Turns.After;
      ResumingIsAtomic(Do(r, steps[0]), steps[1..]);
      Turns.RunAppends(View(r), Effect(r, steps[0]), Effects(Do(r, steps[0]), steps[1..]));
    }
  }

  // ---------------------------------------------------------------- a decision without effect

  /** Somebody has decided the approval, and nobody can save that any more. */
  ghost predicate Stranded(r: Runtime) {
    && r.state.Paused? && r.state.kind.Approval? && RulingOf(r, r.state.pause).Ruled?
    && forall c <- r.callers :: r.callers[c].Decided? ==> r.callers[c].version != r.version
  }

  /** No cancellation. */
  predicate NoEnd(steps: seq<Step>) {
    forall s <- steps :: !s.End?
  }

  lemma {:induction false} StepKeepsStranded(r: Runtime, s: Step)
    requires Inv(r) && Stranded(r) && Enabled(r, s) && !s.End?
    ensures Stranded(Do(r, s)) && Do(r, s).state == r.state && Do(r, s).replies == r.replies
  {
    hide RunOk;
  }

  lemma {:induction false} StrandedStays(r: Runtime, steps: seq<Step>)
    requires Inv(r) && Stranded(r) && Possible(r, steps) && NoEnd(steps)
    ensures Stranded(After(r, steps)) && After(r, steps).state == r.state && After(r, steps).replies == r.replies
    decreases |steps|
  {
    if steps != [] {
      assert forall s <- steps[1..] :: s in steps;
      StepKeepsStranded(r, steps[0]);
      StepKeepsCallers(r, steps[0]);
      StepKeepsRun(r, steps[0]);
      hide Inv, Stranded, Do, Enabled;
      StrandedStays(Do(r, steps[0]), steps[1..]);
    }
  }

  /** The run can leave its pause without being cancelled. */
  ghost predicate CanGoOn(r: Runtime) {
    exists steps :: Possible(r, steps) && NoEnd(steps) && After(r, steps).state != r.state
  }

  lemma {:induction false} StepThen(r: Runtime, s: Step, rest: seq<Step>)
    requires Enabled(r, s) && Possible(Do(r, s), rest)
    ensures Possible(r, [s] + rest) && After(r, [s] + rest) == After(Do(r, s), rest)
  {
    hide Do, Enabled;
    assert ([s] + rest)[1..] == rest;
  }

  lemma {:induction false} GoesOnBy(r: Runtime, s: Step)
    requires Enabled(r, s) && !s.End? && Do(r, s).state != r.state
    ensures CanGoOn(r)
  {
    assert Possible(Do(r, s), []) && After(Do(r, s), []) == Do(r, s);
    StepThen(r, s, []);
    hide Do, Enabled, Possible, After;
    assert NoEnd([s] + []);
  }

  lemma {:induction false} NotStrandedCanGoOn(r: Runtime)
    requires Inv(r) && (r.state.Paused? || r.state.Held?) && !Stranded(r)
    ensures CanGoOn(r)
  {
    if r.state.Held? {
      hide Inv;
      GoesOnBy(r, Continue);
    } else if Expirable(r) {
      hide Inv;
      GoesOnBy(r, Expire);
    } else {
      var c :| c in r.callers && r.callers[c].Decided? && r.callers[c].version == r.version;
      GoesOnBy(r, Commit(c, false));
    }
  }

  /** A paused or held run can go on, by an answer, by expiring or by the settled tool call, if and only
      if it does not wait for a stranded decision. A stranded one only ends by being cancelled: further
      answers are refused, and the expiry pass, which is to time out paused runs that can no longer be
      resumed, passes it over. */
  lemma {:induction false} PausedRunGoesOnIff(r: Runtime)
    requires Inv(r) && (r.state.Paused? || r.state.Held?)
    ensures CanGoOn(r) <==> !Stranded(r)
  {
    if Stranded(r) {
      forall steps | Possible(r, steps) && NoEnd(steps)
        ensures After(r, steps).state == r.state
      {
        StrandedStays(r, steps);
      }
    } else {
      NotStrandedCanGoOn(r);
    }
  }

  // ---------------------------------------------------------------- which runs can still be answered

  /** No answer can be saved any more: the run has ended, or its approval is decided or lapsed and no
      caller that decided it holds the current version. */
  ghost predicate Closed(r: Runtime) {
    || r.state.Ended?
    || (&& r.state.Paused? && r.state.kind.Approval? && !RulingOf(r, r.state.pause).Undecided?
        && forall c <- r.callers :: r.callers[c].Decided? ==> r.callers[c].version != r.version)
  }

  ghost predicate CanBeAnswered(r: Runtime) {
    exists steps :: Possible(r, steps) && After(r, steps).replies != r.replies
  }

  lemma {:induction false} StepKeepsClosed(r: Runtime, s: Step)
    requires Inv(r) && Closed(r) && Enabled(r, s)
    ensures Closed(Do(r, s)) && Do(r, s).replies == r.replies
  {
    hide RunOk;
  }

  lemma {:induction false} ClosedStays(r: Runtime, steps: seq<Step>)
    requires Inv(r) && Closed(r) && Possible(r, steps)
    ensures After(r, steps).replies == r.replies
    decreases |steps|
  {
    if steps != [] {
      StepKeepsClosed(r, steps[0]);
      StepKeepsCallers(r, steps[0]);
      StepKeepsRun(r, steps[0]);
      hide Inv, Closed, Do, Enabled;
      ClosedStays(Do(r, steps[0]), steps[1..]);
    }
  }

  lemma {:induction false} AnsweredNext(r: Runtime, c: nat)
    requires Enabled(r, Commit(c, false)) && r.callers[c].version == r.version
    ensures CanBeAnswered(r)
  {
    var s := Commit(c, false);
    assert |Do(r, s).replies| == |r.replies| + 1;
    assert Possible(Do(r, s), []) && After(Do(r, s), []) == Do(r, s);
    StepThen(r, s, []);
    hide Do, Enabled, Possible, After;
  }

  lemma {:induction false} AnsweredLater(r: Runtime, s: Step)
    requires Enabled(r, s) && Do(r, s).replies == r.replies && CanBeAnswered(Do(r, s))
    ensures CanBeAnswered(r)
  {
    hide Do, Enabled, Possible, After;
    var rest :| Possible(Do(r, s), rest) && After(Do(r, s), rest).replies != r.replies;
    StepThen(r, s, rest);
  }

  lemma {:induction false} FreshFor(used: set<nat>) returns (c: nat)
    ensures forall x <- used :: x < c
  {
    if used == {} {
      c := 0;
    } else {
      var x :| x in used;
      var rest := FreshFor(used - {x});
      assert forall y <- used :: y == x || y in used - {x};
      c := if x < rest then rest else x + 1;
    }
  }

  /** A new caller reads, decides if need be, and saves. */
  lemma {:induction false} OpenPauseIsAnswered(r: Runtime)
    requires r.state.Paused? && (r.state.kind.Approval? ==> RulingOf(r, r.state.pause).Undecided?)
    ensures CanBeAnswered(r)
  {
    var c := FreshFor(r.callers.Keys);
    var load := Load(c, if r.state.kind.Approval? then Decision(true) else Clarification);
    var loaded := Do(r, load);
    if r.state.kind.Approval? {
      var decided := Do(loaded, Decide(c, false));
      AnsweredNext(decided, c);
      hide CanBeAnswered;
      AnsweredLater(loaded, Decide(c, false));
    } else {
      AnsweredNext(loaded, c);
    }
    hide CanBeAnswered;
    AnsweredLater(r, load);
  }

  /** A running run can pause and be answered. */
  lemma {:induction false} RunningCanBeAnswered(r: Runtime)
    requires r.state.Running?
    ensures CanBeAnswered(r)
  {
    OpenPauseIsAnswered(Do(r, Pause(Turns.Input)));
    hide CanBeAnswered;
    AnsweredLater(r, Pause(Turns.Input));
  }

  /** A run can still be answered if and only if it is not closed. */
  lemma {:induction false} CanBeAnsweredIff(r: Runtime)
    requires Inv(r)
    ensures CanBeAnswered(r) <==> !Closed(r)
  {
    if Closed(r) {
      forall steps | Possible(r, steps)
        ensures After(r, steps).replies == r.replies
      {
        ClosedStays(r, steps);
      }
    } else if r.state.Running? {
      RunningCanBeAnswered(r);
    } else if r.state.Held? {
      hide Inv, CanBeAnswered;
      RunningCanBeAnswered(Do(r, Continue));
      AnsweredLater(r, Continue);
    } else if r.state.kind.Input? || RulingOf(r, r.state.pause).Undecided? {
      hide Inv, CanBeAnswered;
      OpenPauseIsAnswered(r);
    } else {
      hide CanBeAnswered;
      var c :| c in r.callers && r.callers[c].Decided? && r.callers[c].version == r.version;
      AnsweredNext(r, c);
    }
  }

  /** Whenever a decision is made but not saved, losing its caller strands it, and so does anything
      else that saves the run. */
  lemma {:induction false} LostDecisionIsStranded(r: Runtime, c: nat)
    requires Inv(r) && c in r.callers && r.callers[c].Decided? && r.callers[c].version == r.version
    ensures Stranded(Do(r, Drop(c))) && Stranded(Do(r, Save))
  {
    hide RunOk;
    assert CallerOk(r, r.callers[c]);
    forall d | d in r.callers && d != c && r.callers[d].Decided?
      ensures r.callers[d].version != r.version
    {
      assert CallerOk(r, r.callers[d]);
    }
    forall d | d in r.callers
      ensures r.callers[d].version <= r.version
    {
      assert CallerOk(r, r.callers[d]);
    }
  }

  /** It happens: a steering message saved between the decision and its commit strands the decision. */
  lemma {:induction false} SteeringStrandsDecision(approved: bool)
    ensures var steps := [Pause(Turns.Approval), Load(0, Decision(approved)), Decide(0, false), Save, Commit(0, false)];
      && Possible(Start(), steps) && Stranded(After(Start(), steps)) && After(Start(), steps).replies == []
  {
    var p := Turns.Paused(0, Turns.Approval);
    var loaded, decided := Loaded(p, 1, Decision(approved)), Decided(p, 1, Decision(approved));
    var open, ruled := map[0 := Undecided], map[0 := Ruled(approved)];
    var r1 := Runtime(p, 1, 1, open, map[], []);
    var r2 := r1.(callers := map[0 := loaded]);
    var r3 := r1.(rulings := ruled, callers := map[0 := decided]);
    var r4 := r3.(version := 2);
    var r5 := r4.(callers := map[]);
    assert Do(Start(), Pause(Turns.Approval)) == r1;
    assert Do(r1, Load(0, Decision(approved))) == r2;
    assert Do(r2, Decide(0, false)) == r3;
    assert Do(r3, Save) == r4;
    assert Do(r4, Commit(0, false)) == r5;
    assert Stranded(r5);
    var s4 := [Commit(0, false)];
    var s3 := [Save] + s4;
    var s2 := [Decide(0, false)] + s3;
    var s1 := [Load(0, Decision(approved))] + s2;
    var s0 := [Pause(Turns.Approval)] + s1;
    assert s4[1..] == [] && s3[1..] == s4 && s2[1..] == s3 && s1[1..] == s2 && s0[1..] == s1;
    hide Do, Stranded;
    assert Possible(r5, []) && After(r5, []) == r5;
    assert Possible(r4, s4) && After(r4, s4) == r5;
    assert Possible(r3, s3) && After(r3, s3) == r5;
    assert Possible(r2, s2) && After(r2, s2) == r5;
    assert Possible(r1, s1) && After(r1, s1) == r5;
    assert Possible(Start(), s0) && After(Start(), s0) == r5;
    assert s0 == [Pause(Turns.Approval), Load(0, Decision(approved)), Decide(0, false), Save, Commit(0, false)];
  }
}
