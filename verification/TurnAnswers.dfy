/** Which pause an answer reaches: the one its message showed, unless the run went on behind the
    message's back. */
module TurnAnswers {
  import opened Messages
  import opened Turns

  // ---------------------------------------------------------------- quiet runs

  /** The run's pause is shown by a message that nobody answers right now, or is about to be answered. */
  ghost predicate IsShown(w: World, run: nat) {
    || (!w.lock.Answered? && exists i ::
          0 <= i < |w.messages| && w.messages[i].pending.Some? && w.messages[i].pending.value.run == run)
    || (w.lock.Responding? && w.lock.pending.run == run)
  }

  /** No crash between an answer and its message's update, nobody else answers, and no held run goes
      on while it is shown. */
  ghost predicate Quiet(w: World, s: Step) {
    match s
    case Crash => !w.lock.Answered?
    case AnswerElsewhere(_) => false
    case RunContinues(r) => !IsShown(w, r)
    case _ => true
  }

  ghost predicate AllQuiet(w: World, steps: seq<Step>)
    requires Possible(w, steps)
    decreases |steps|
  {
    steps == [] || (Quiet(w, steps[0]) && AllQuiet(Do(w, steps[0]), steps[1..]))
  }

  /** An answer to `p` can reach a pause that `p` does not show: the run is past that pause, and
      waits for the same kind of answer again or still runs. A held run takes no answer. */
  predicate Stale(runs: seq<RunState>, p: Pending) {
    match StateOf(runs, p.run)
    case Running => true
    case Paused(pause, kind) => pause != p.pause && kind == p.kind
    case Held(_) => false
    case Ended => false
  }

  /** No message shows something stale, unless it is just being answered, and no stale answer is
      about to be sent. */
  ghost predicate NothingStale(w: World) {
    && (!w.lock.Answered? ==>
          forall i :: 0 <= i < |w.messages| && w.messages[i].pending.Some? ==>
            !Stale(w.runs, w.messages[i].pending.value))
    && (w.lock.Responding? ==> !Stale(w.runs, w.lock.pending))
  }

  /** The answers from `base` on reached the pause that their message showed. */
  ghost predicate AnswersTrue(answers: seq<Answer>, base: nat) {
    forall k :: base <= k < |answers| ==> answers[k].shown == Some(answers[k].pause)
  }

  ghost predicate Fresh(w: World, base: nat) {
    NothingStale(w) && AnswersTrue(w.answers, base)
  }

  lemma {:induction false} AwaitingIsLast(w: World, i: nat)
    requires TurnsOk(w) && i < |w.messages| && w.messages[i].pending.Some?
    ensures i == |w.messages| - 1 && w.messages[i].pending.value.run < |w.runs|
  {
    assert MessageOk(w.messages, i, |w.runs|);
  }

  /** A write without something pending. */
  lemma {:induction false} WriteKeepsFresh(w: World, base: nat, i: nat, m: TurnMessage)
    requires Fresh(w, base) && i < |w.messages| && m.pending.None?
    ensures Fresh(w.(messages := w.messages[i := m]), base)
  {
  }

  /** Runs that change only from running on, or end, leave what is current current. */
  lemma {:induction false} RunsKeepFresh(w: World, base: nat, w': World)
    requires TurnsOk(w) && Fresh(w, base)
    requires w'.messages == w.messages && w'.answers == w.answers
    requires w'.lock.Answered? <==> w.lock.Answered?
    requires w'.lock.Responding? ==> w'.lock == w.lock
    requires |w.runs| <= |w'.runs|
    requires forall r :: 0 <= r < |w.runs| ==> w'.runs[r] == w.runs[r] || w.runs[r].Running? || w'.runs[r].Ended?
    ensures Fresh(w', base)
  {
    forall i | 0 <= i < |w.messages| && w.messages[i].pending.Some?
      ensures w.messages[i].pending.value.run < |w.runs|
    {
      AwaitingIsLast(w, i);
    }
    hide Talk, NoneAwaits;
  }

  lemma {:induction false} ContinueKeepsFresh(w: World, base: nat, r: nat)
    requires TurnsOk(w) && Fresh(w, base) && Enabled(w, RunContinues(r)) && !IsShown(w, r)
    ensures Fresh(Do(w, RunContinues(r)), base)
  {
    hide Talk, NoneAwaits;
  }

  lemma {:induction false} NoneAwaitsIsFresh(w: World, base: nat)
    requires TurnsOk(w) && NoneAwaits(w.messages) && !w.lock.Responding?
    requires AnswersTrue(w.answers, base)
    ensures Fresh(w, base)
  {
    assert forall i :: 0 <= i < |w.messages| ==> MessageOk(w.messages, i, |w.runs|);
  }

  lemma {:induction false} ResumeKeepsFresh(w: World, base: nat, outcome: ResumeOutcome, ending: TurnResult)
    requires Inv(w) && Fresh(w, base) && Enabled(w, Resume(outcome, ending))
    ensures Fresh(Do(w, Resume(outcome, ending)), base)
  {
    var i := w.lock.message;
    WriteKeepsFresh(w, base, i, Stored(w.messages[i], ending));
    WriteKeepsFresh(w, base, i, Stored(w.messages[i], TurnResult(TurnExpired, None)));
    hide Talk, PausesOk;
  }

  lemma {:induction false} FollowKeepsFresh(w: World, base: nat, i: nat, run: nat)
    requires Inv(w) && Fresh(w, base) && LastAnswer(w.messages, i) && run < |w.runs| && w.live == map[]
    ensures Fresh(Follow(w, i, run), base)
  {
    ReleaseKeeps(w);
    WriteKeeps(w.(lock := Free), i, Streaming);
    FollowKeeps(w, i, run);
    NoneAwaitsIsFresh(Follow(w, i, run), base);
  }

  lemma {:induction false} FinishKeepsFresh(w: World, base: nat, t: nat, r: TurnResult)
    requires Inv(w) && Fresh(w, base) && Enabled(w, TaskFinish(t, r))
    ensures Fresh(Do(w, TaskFinish(t, r)), base)
  {
    OnlyLiveTask(w, t);
    assert forall i :: 0 <= i < |w.messages| ==> MessageOk(w.messages, i, |w.runs|);
    assert forall i :: 0 <= i < |w.messages| ==> w.messages[i].pending.None?;
    hide Talk, NoneAwaits, PausesOk, MessageOk;
  }

  lemma {:induction false} SubmitKeepsFresh(w: World, base: nat, s: Step)
    requires Inv(w) && Fresh(w, base) && Enabled(w, s)
    requires s.SubmitCheck? || s.SubmitUser? || s.SubmitAssistant? || s.SubmitSpawn?
    ensures Fresh(Do(w, s), base)
  {
    hide Talk, NoneAwaits, PausesOk, AwaitingMessage, Stale;
    SearchFindsAwaiting(w.messages, |w.runs|);
    if s.SubmitCheck? && AwaitingMessage(w.messages).Some? {
      var i := AwaitingMessage(w.messages).value;
      WriteKeepsFresh(w, base, i, Stored(w.messages[i], s.ending));
    }
  }

  lemma {:induction false} RespondKeepsFresh(w: World, base: nat, s: Step)
    requires Inv(w) && Fresh(w, base) && Enabled(w, s)
    requires s.RespondStart? || s.Resume? || s.RespondWrite? || s.Reconcile? || s.Reattach?
    ensures Fresh(Do(w, s), base)
  {
    match s
    case RespondStart(turn) =>
      TurnFindsAwaiting(w.messages, |w.runs|, turn);
      hide Talk, NoneAwaits, PausesOk, AwaitingReply;
    case Resume(outcome, ending) => ResumeKeepsFresh(w, base, outcome, ending);
    case RespondWrite => FollowKeepsFresh(w, base, w.lock.message, w.lock.pending.run);
    case Reconcile(turn, ending) => ReconcileKeepsFresh(w, base, turn, ending);
    case Reattach => FollowKeepsFresh(w, base, w.lock.message, w.lock.pending.run);
  }

  lemma {:induction false} ReconcileKeepsFresh(w: World, base: nat, turn: nat, ending: TurnResult)
    requires Inv(w) && Fresh(w, base) && Enabled(w, Reconcile(turn, ending))
    ensures Fresh(Do(w, Reconcile(turn, ending)), base)
  {
    TurnFindsAwaiting(w.messages, |w.runs|, turn);
    hide Talk, NoneAwaits, PausesOk, AwaitingReply, Stale;
    var r := AwaitingReply(w.messages, turn);
    if r.Some? {
      WriteKeepsFresh(w, base, r.value, Stored(w.messages[r.value], ending));
    }
  }

  lemma {:induction false} TaskKeepsFresh(w: World, base: nat, s: Step)
    requires Inv(w) && Fresh(w, base) && Enabled(w, s)
    requires s.TaskBegin? || s.TaskStartRun? || s.TaskFinish? || s.TaskFail? || s.TaskCancelled?
    ensures Fresh(Do(w, s), base)
  {
    match s
    case TaskBegin(t) =>
      var i := w.live[t].message;
      WriteKeepsFresh(w, base, i, w.messages[i].(status := Streaming, pending := None));
      hide TurnsOk, PausesOk, Stale;
    case TaskStartRun(t) =>
      hide TurnsOk, PausesOk, Stale;
      RunsKeepFresh(w, base, Do(w, s));
    case TaskFinish(t, r) => FinishKeepsFresh(w, base, t, r);
    case TaskFail(t) =>
      var i := w.live[t].message;
      WriteKeepsFresh(w, base, i, w.messages[i].(status := Failed, pending := None));
      hide TurnsOk, PausesOk, Stale;
    case TaskCancelled(t) =>
      var i := w.live[t].message;
      WriteKeepsFresh(w, base, i, w.messages[i].(status := Cancelled, pending := None));
      hide TurnsOk, PausesOk, Stale;
  }

  lemma {:induction false} CancelKeepsFresh(w: World, base: nat, s: Step)
    requires Inv(w) && Fresh(w, base) && Enabled(w, s) && Quiet(w, s)
    requires s.CancelTask? || s.CancelStart? || s.CancelRun? || s.CancelWrite?
             || s.RecoverRead? || s.RecoverWrite? || s.Shutdown? || s.Crash?
    ensures Fresh(Do(w, s), base)
  {
    hide PausesOk;
    match s
    case CancelRun(_) => RunsKeepFresh(w, base, Do(w, s));
    case CancelWrite =>
      var i := w.lock.message;
      WriteKeepsFresh(w, base, i, w.messages[i].(status := Cancelled, pending := None));
      hide TurnsOk;
    case RecoverWrite(i) =>
      WriteKeepsFresh(w, base, i, w.messages[i].(status := Failed, pending := None));
      hide TurnsOk;
    case CancelStart => hide TurnsOk, AwaitingMessage;
    case _ => hide TurnsOk;
  }

  lemma {:induction false} StepKeepsFresh(w: World, base: nat, s: Step)
    requires Inv(w) && Fresh(w, base) && Enabled(w, s) && Quiet(w, s)
    ensures Fresh(Do(w, s), base)
  {
    if s.SubmitCheck? || s.SubmitUser? || s.SubmitAssistant? || s.SubmitSpawn? {
      SubmitKeepsFresh(w, base, s);
    } else if s.RespondStart? || s.Resume? || s.RespondWrite? || s.Reconcile? || s.Reattach? {
      RespondKeepsFresh(w, base, s);
    } else if s.TaskBegin? || s.TaskStartRun? || s.TaskFinish? || s.TaskFail? || s.TaskCancelled? {
      TaskKeepsFresh(w, base, s);
    } else if s.RunContinues? {
      hide PausesOk;
      ContinueKeepsFresh(w, base, s.run);
    } else if s.RunPauses? || s.RunHolds? || s.RunEnds? {
      hide PausesOk;
      RunsKeepFresh(w, base, Do(w, s));
    } else {
      CancelKeepsFresh(w, base, s);
    }
  }

  lemma {:induction false} RunKeepsFresh(w: World, base: nat, steps: seq<Step>)
    requires Inv(w) && Fresh(w, base) && Possible(w, steps) && AllQuiet(w, steps)
    ensures Fresh(After(w, steps), base)
    decreases |steps|
  {
    if steps != [] {
      hide Inv, Do, Enabled, Fresh;
      StepKeepsInv(w, steps[0]);
      StepKeepsFresh(w, base, steps[0]);
      RunKeepsFresh(Do(w, steps[0]), base, steps[1..]);
    }
  }

  /** Unless a crash falls between an answer and its message's update, somebody else answers the run,
      or a held run goes on while a message shows it, every answer reaches the pause that its message
      showed. */
  lemma {:induction false} AnswersReachTheirPause(steps: seq<Step>)
    requires Possible(Begin(), steps) && AllQuiet(Begin(), steps)
    ensures forall a <- After(Begin(), steps).answers :: a.shown == Some(a.pause)
  {
    RunKeepsFresh(Begin(), 0, steps);
    hide After, Possible, AllQuiet;
  }

  // ---------------------------------------------------------------- exactly when they do

  /** Whatever happens from here on without such a crash, foreign answer or continuation, answers
      reach the pause that was shown. */
  ghost predicate StaysTrue(w: World) {
    forall steps :: Possible(w, steps) && AllQuiet(w, steps) ==>
      AnswersTrue(After(w, steps).answers, |w.answers|)
  }

  ghost predicate Goes(w: World, s: Step, w': World) {
    Enabled(w, s) && Do(w, s) == w'
  }

  lemma {:induction false} GoesThen(w: World, s: Step, w': World, rest: seq<Step>)
    requires Goes(w, s, w') && Possible(w', rest)
    ensures Possible(w, [s] + rest) && After(w, [s] + rest) == After(w', rest)
    ensures Quiet(w, s) && AllQuiet(w', rest) ==> AllQuiet(w, [s] + rest)
  {
    hide Do, Enabled, Quiet;
    assert ([s] + rest)[1..] == rest;
  }

  /** A step that answers nothing hands a bad continuation on. */
  lemma {:induction false} BadBefore(w: World, s: Step, w': World)
    requires Goes(w, s, w') && Quiet(w, s) && w'.answers == w.answers && !StaysTrue(w')
    ensures !StaysTrue(w)
  {
    var rest :| Possible(w', rest) && AllQuiet(w', rest) && !AnswersTrue(After(w', rest).answers, |w'.answers|);
    GoesThen(w, s, w', rest);
    hide Possible, AllQuiet, After, AnswersTrue, Goes, Quiet;
  }

  /** The call's own condition: an answer reaches the pause it was meant for if and only if the run
      waits at that pause when the answer is sent. */
  lemma {:induction false} ResumeReachesShownIff(w: World, outcome: ResumeOutcome, ending: TurnResult)
    requires Enabled(w, Resume(outcome, ending)) && (outcome.Continues? || outcome.Rejected?)
    ensures var answers := Do(w, Resume(outcome, ending)).answers;
      && |answers| == |w.answers| + 1 && answers[..|w.answers|] == w.answers
      && (answers[|w.answers|].shown == Some(answers[|w.answers|].pause)
          <==> StateOf(w.runs, w.lock.pending.run) == Paused(w.lock.pending.pause, w.lock.pending.kind))
  {
  }

  lemma {:induction false} StaleResumeIsBad(w: World)
    requires w.lock.Responding? && Accepts(w.runs, w.lock.pending) && Stale(w.runs, w.lock.pending)
    ensures !StaysTrue(w)
  {
    var s := Resume(Continues, TurnResult(TurnFailed, None));
    ResumeReachesShownIff(w, s.outcome, s.ending);
    var w' := Do(w, s);
    assert w'.answers[|w.answers|].shown != Some(w'.answers[|w.answers|].pause);
    hide Do, Enabled;
    GoesThen(w, s, w', []);
    assert After(w, [s] + []) == w' && AllQuiet(w, [s] + []);
    hide Possible, AllQuiet, After;
  }

  /** A stale answer about to be sent: if its run still runs, it can first pause again. */
  lemma {:induction false} StaleHolderIsBad(w: World)
    requires Inv(w) && w.lock.Responding? && Stale(w.runs, w.lock.pending)
    ensures !StaysTrue(w)
  {
    var p := w.lock.pending;
    if w.runs[p.run].Running? {
      var w' := Do(w, RunPauses(p.run, p.kind));
      assert w'.runs[p.run] == Paused(w.nextPause, p.kind) && p.pause < w.nextPause;
      hide Inv;
      StaleResumeIsBad(w');
      BadBefore(w, RunPauses(p.run, p.kind), w');
    } else {
      hide Inv;
      StaleResumeIsBad(w);
    }
  }

  /** A message that shows something stale, with nobody on it. */
  lemma {:induction false} StaleMessageIsBad(w: World, i: nat)
    requires Inv(w) && w.lock.Free? && w.accepting && !HasLiveTask(w)
    requires i < |w.messages| && w.messages[i].pending.Some? && Stale(w.runs, w.messages[i].pending.value)
    ensures !StaysTrue(w)
  {
    var turn := w.messages[i].pending.value.turn;
    assert MessageOk(w.messages, i, |w.runs|);
    TurnFindsAwaiting(w.messages, |w.runs|, turn);
    StepKeepsInv(w, RespondStart(turn));
    hide Inv, AwaitingReply, Talk;
    var w' := Do(w, RespondStart(turn));
    StaleHolderIsBad(w');
    BadBefore(w, RespondStart(turn), w');
  }

  lemma {:induction false} NothingStaleStaysTrue(w: World)
    requires Inv(w) && NothingStale(w)
    ensures StaysTrue(w)
  {
    hide Inv, NothingStale;
    forall steps | Possible(w, steps) && AllQuiet(w, steps)
      ensures AnswersTrue(After(w, steps).answers, |w.answers|)
    {
      RunKeepsFresh(w, |w.answers|, steps);
    }
  }

  /** In every state: answers keep reaching the pause their message shows if and only if nothing
      stale is shown now. */
  lemma {:induction false} AnswersStayTrueIff(w: World)
    requires Inv(w)
    ensures StaysTrue(w) <==> NothingStale(w)
  {
    if NothingStale(w) {
      NothingStaleStaysTrue(w);
    } else if w.lock.Responding? && Stale(w.runs, w.lock.pending) {
      StaleHolderIsBad(w);
    } else {
      var i :| 0 <= i < |w.messages| && w.messages[i].pending.Some? && Stale(w.runs, w.messages[i].pending.value);
      CrashForgets(w);
      hide Inv, StaysTrue, Stale;
      var c := Do(w, Crash);
      StaleMessageIsBad(c, i);
      BadBefore(w, Crash, c);
    }
  }

  /** A crash between an answer and its message's update is harmless if and only if a recovery pass
      has failed the message, or the run has ended or is held, or it waits at the shown pause or for
      the other kind of answer. */
  lemma {:induction false} CrashedAnswerIsHarmlessIff(w: World)
    requires Inv(w) && w.lock.Answered?
    ensures w.lock.message < |w.messages|
    ensures StaysTrue(Do(w, Crash)) <==>
      w.messages[w.lock.message].status.Failed? || !Stale(w.runs, w.lock.pending)
  {
    HeldTurn(w);
    CrashForgets(w);
    AnswersStayTrueIff(Do(w, Crash));
    forall i | 0 <= i < |w.messages| && w.messages[i].pending.Some?
      ensures i == w.lock.message
    {
      AwaitingIsLast(w, i);
    }
    hide PausesOk, NumbersOk, Talk, NoneAwaits, Stale, StaysTrue;
  }

  /** What shows a run that has begun to run again is stale. */
  lemma {:induction false} RunningIsStale(w: World, w': World, r: nat)
    requires NothingStale(w) && r < |w.runs|
    requires w'.messages == w.messages && w'.lock == w.lock && w'.runs == w.runs[r := Running]
    ensures NothingStale(w') <==> !IsShown(w, r)
  {
  }

  /** An answer given elsewhere is harmless if and only if no message shows that run and no answer to
      it is about to be sent, or the message is just being answered. */
  lemma {:induction false} ForeignAnswerIsHarmlessIff(w: World, r: nat)
    requires Inv(w) && NothingStale(w) && Enabled(w, AnswerElsewhere(r))
    ensures StaysTrue(Do(w, AnswerElsewhere(r))) <==> !IsShown(w, r)
  {
    var w' := Do(w, AnswerElsewhere(r));
    assert w'.messages == w.messages && w'.lock == w.lock && w'.runs == w.runs[r := Running];
    hide Inv, StaysTrue, Do, NothingStale, IsShown;
    StepKeepsInv(w, AnswerElsewhere(r));
    AnswersStayTrueIff(w');
    RunningIsStale(w, w', r);
  }

  /** A run that was held until a tool call was settled goes on without an answer. That is harmless if
      and only if no message shows the run: a message that does keeps showing what was settled, and
      takes an answer that reaches a later pause. */
  lemma {:induction false} ContinuedRunIsHarmlessIff(w: World, r: nat)
    requires Inv(w) && NothingStale(w) && Enabled(w, RunContinues(r))
    ensures StaysTrue(Do(w, RunContinues(r))) <==> !IsShown(w, r)
  {
    var w' := Do(w, RunContinues(r));
    assert w'.messages == w.messages && w'.lock == w.lock && w'.runs == w.runs[r := Running];
    hide Inv, StaysTrue, Do, NothingStale, IsShown;
    StepKeepsInv(w, RunContinues(r));
    AnswersStayTrueIff(w');
    RunningIsStale(w, w', r);
  }

  // ---------------------------------------------------------------- a run from the start

  const QUESTION := TurnMessage(true, Completed, None, None)
  const ANSWERING := TurnMessage(false, Accepted, Some(0), None)
  const SHOWN := Pending(Approval, 0, 0, 0)
  const WAITING := TurnMessage(false, AwaitingApproval, Some(0), Some(SHOWN))

  /** One turn whose message shows pause 0, with its run in the given state. */
  function ShowingPause0(lock: Lock, answers: seq<Answer>, run: RunState, next: nat): World {
    World([QUESTION, WAITING], [run], next, answers, map[], None, 1, lock, true, {})
  }

  /** One turn while its task works. */
  function Working(t: Task, status: Status, runs: seq<RunState>, next: nat): World {
    World([QUESTION, ANSWERING.(status := status)], runs, next, [], map[0 := t], Some(0), 1, Free, true, {})
  }

  /** Where a fresh run stops: for an approval, or held until a tool call is settled. */
  function Stop(held: bool): Step {
    if held then RunHolds(0) else RunPauses(0, Approval)
  }

  function StoppedAt(held: bool): RunState {
    if held then Held(0) else Paused(0, Approval)
  }

  /** The first turn up to the message that shows where its run stopped. */
  function FirstPause(end: TurnResult, held: bool): seq<Step> {
    [SubmitCheck(end)] + ([SubmitUser] + ([SubmitAssistant] + ([SubmitSpawn] + ([TaskBegin(0)]
    + ([TaskStartRun(0)] + ([Stop(held)]
    + ([TaskFinish(0, TurnResult(TurnAwaitsApproval, Some(SHOWN)))] + [])))))))
  }

  /** The answer, a crash before the message's update, a second pause, and a second answer. */
  function CrashThenAnswer(end: TurnResult): seq<Step> {
    [RespondStart(0)] + ([Resume(Continues, end)] + ([Crash] + ([RunPauses(0, Approval)]
    + ([Reconcile(0, end)] + ([RespondStart(0)] + ([Resume(Continues, end)] + []))))))
  }

  /** The held run goes on, pauses for an approval, and the message is answered. */
  function ContinueThenAnswer(end: TurnResult): seq<Step> {
    [RunContinues(0)] + ([RunPauses(0, Approval)] + ([RespondStart(0)] + ([Resume(Continues, end)] + [])))
  }

  lemma {:induction false} SubmitGoes(end: TurnResult)
    requires Ending(end)
    ensures var w := Begin();
      && Goes(w, SubmitCheck(end), w.(lock := SubmitReady))
      && Goes(w.(lock := SubmitReady), SubmitUser, w.(messages := [QUESTION], lock := UserStored(0)))
      && Goes(w.(messages := [QUESTION], lock := UserStored(0)), SubmitAssistant,
              w.(messages := [QUESTION, ANSWERING], lock := AssistantStored(1)))
  {
  }

  lemma {:induction false} TaskGoes()
    ensures Goes(Begin().(messages := [QUESTION, ANSWERING], lock := AssistantStored(1)), SubmitSpawn,
                 Working(Task(1, None, false, false, false), Accepted, [], 0))
    ensures Goes(Working(Task(1, None, false, false, false), Accepted, [], 0), TaskBegin(0),
                 Working(Task(1, None, false, true, false), Streaming, [], 0))
    ensures Goes(Working(Task(1, None, false, true, false), Streaming, [], 0), TaskStartRun(0),
                 Working(Task(1, Some(0), false, true, false), Streaming, [Running], 0))
  {
  }

  lemma {:induction false} PauseGoes(held: bool)
    ensures Goes(Working(Task(1, Some(0), false, true, false), Streaming, [Running], 0), Stop(held),
                 Working(Task(1, Some(0), false, true, false), Streaming, [StoppedAt(held)], 1))
    ensures Goes(Working(Task(1, Some(0), false, true, false), Streaming, [StoppedAt(held)], 1),
                 TaskFinish(0, TurnResult(TurnAwaitsApproval, Some(SHOWN))),
                 ShowingPause0(Free, [], StoppedAt(held), 1))
  {
  }

  lemma {:induction false} FirstPauseGoes(end: TurnResult, held: bool)
    requires Ending(end)
    ensures Possible(Begin(), FirstPause(end, held))
    ensures After(Begin(), FirstPause(end, held)) == ShowingPause0(Free, [], StoppedAt(held), 1)
  {
    SubmitGoes(end);
    TaskGoes();
    PauseGoes(held);
    hide Goes, Working, ShowingPause0, Begin;
    var w := Begin();
    var w4 := Working(Task(1, None, false, false, false), Accepted, [], 0);
    var w5 := Working(Task(1, None, false, true, false), Streaming, [], 0);
    var w6 := Working(Task(1, Some(0), false, true, false), Streaming, [Running], 0);
    var w7 := Working(Task(1, Some(0), false, true, false), Streaming, [StoppedAt(held)], 1);
    var w8 := ShowingPause0(Free, [], StoppedAt(held), 1);
    var rest: seq<Step> := [];
    var finish := TaskFinish(0, TurnResult(TurnAwaitsApproval, Some(SHOWN)));
    assert Possible(w8, rest) && After(w8, rest) == w8;
    hide Possible, After;
    GoesThen(w7, finish, w8, rest);
    rest := [finish] + rest;
    GoesThen(w6, Stop(held), w7, rest);
    rest := [Stop(held)] + rest;
    GoesThen(w5, TaskStartRun(0), w6, rest);
    rest := [TaskStartRun(0)] + rest;
    GoesThen(w4, TaskBegin(0), w5, rest);
    rest := [TaskBegin(0)] + rest;
    GoesThen(w.(messages := [QUESTION, ANSWERING], lock := AssistantStored(1)), SubmitSpawn, w4, rest);
    rest := [SubmitSpawn] + rest;
    GoesThen(w.(messages := [QUESTION], lock := UserStored(0)), SubmitAssistant,
             w.(messages := [QUESTION, ANSWERING], lock := AssistantStored(1)), rest);
    rest := [SubmitAssistant] + rest;
    GoesThen(w.(lock := SubmitReady), SubmitUser, w.(messages := [QUESTION], lock := UserStored(0)), rest);
    rest := [SubmitUser] + rest;
    GoesThen(w, SubmitCheck(end), w.(lock := SubmitReady), rest);
  }

  lemma {:induction false} AnswerGoes(end: TurnResult, answers: seq<Answer>, pause: nat, next: nat)
    requires Ending(end)
    ensures Goes(ShowingPause0(Free, answers, Paused(pause, Approval), next), RespondStart(0),
                 ShowingPause0(Responding(1, SHOWN), answers, Paused(pause, Approval), next))
    ensures Goes(ShowingPause0(Responding(1, SHOWN), answers, Paused(pause, Approval), next), Resume(Continues, end),
                 ShowingPause0(Answered(1, SHOWN), answers + [Answer(pause, Some(0))], Running, next))
    ensures Goes(ShowingPause0(Free, answers, Paused(pause, Approval), next), Reconcile(0, end),
                 ShowingPause0(Free, answers, Paused(pause, Approval), next))
  {
    var ms := [QUESTION, WAITING];
    TurnFindsAwaiting(ms, 1, 0);
    assert AwaitingReply(ms, 0) == Some(1);
    hide AwaitingReply;
  }

  lemma {:induction false} CrashGoes(answers: seq<Answer>, next: nat)
    ensures Goes(ShowingPause0(Answered(1, SHOWN), answers, Running, next), Crash,
                 ShowingPause0(Free, answers, Running, next))
    ensures Goes(ShowingPause0(Free, answers, Running, next), RunPauses(0, Approval),
                 ShowingPause0(Free, answers, Paused(next, Approval), next + 1))
  {
  }

  lemma {:induction false} CrashThenAnswerGoes(end: TurnResult)
    requires Ending(end)
    ensures var w := ShowingPause0(Free, [], Paused(0, Approval), 1);
      && Possible(w, CrashThenAnswer(end))
      && After(w, CrashThenAnswer(end)).answers == [Answer(0, Some(0)), Answer(1, Some(0))]
  {
    var once := [Answer(0, Some(0))];
    assert [] + once == once && once + [Answer(1, Some(0))] == [Answer(0, Some(0)), Answer(1, Some(0))];
    AnswerGoes(end, [], 0, 1);
    CrashGoes(once, 1);
    AnswerGoes(end, once, 1, 2);
    var w7 := ShowingPause0(Answered(1, SHOWN), once + [Answer(1, Some(0))], Running, 2);
    var rest: seq<Step> := [];
    assert Possible(w7, rest) && After(w7, rest) == w7 && w7.answers == once + [Answer(1, Some(0))];
    hide Goes, ShowingPause0, Possible, After;
    GoesThen(ShowingPause0(Responding(1, SHOWN), once, Paused(1, Approval), 2), Resume(Continues, end), w7, rest);
    rest := [Resume(Continues, end)] + rest;
    var w4 := ShowingPause0(Free, once, Paused(1, Approval), 2);
    GoesThen(w4, RespondStart(0), ShowingPause0(Responding(1, SHOWN), once, Paused(1, Approval), 2), rest);
    rest := [RespondStart(0)] + rest;
    GoesThen(w4, Reconcile(0, end), w4, rest);
    rest := [Reconcile(0, end)] + rest;
    GoesThen(ShowingPause0(Free, once, Running, 1), RunPauses(0, Approval), w4, rest);
    rest := [RunPauses(0, Approval)] + rest;
    GoesThen(ShowingPause0(Answered(1, SHOWN), once, Running, 1), Crash, ShowingPause0(Free, once, Running, 1), rest);
    rest := [Crash] + rest;
    GoesThen(ShowingPause0(Responding(1, SHOWN), [], Paused(0, Approval), 1), Resume(Continues, end),
             ShowingPause0(Answered(1, SHOWN), once, Running, 1), rest);
    rest := [Resume(Continues, end)] + rest;
    GoesThen(ShowingPause0(Free, [], Paused(0, Approval), 1), RespondStart(0),
             ShowingPause0(Responding(1, SHOWN), [], Paused(0, Approval), 1), rest);
  }

  lemma {:induction false} ContinueThenAnswerGoes(end: TurnResult)
    requires Ending(end)
    ensures var w := ShowingPause0(Free, [], Held(0), 1);
      && Possible(w, ContinueThenAnswer(end))
      && After(w, ContinueThenAnswer(end)).answers == [Answer(1, Some(0))]
  {
    var w := ShowingPause0(Free, [], Held(0), 1);
    var w1 := ShowingPause0(Free, [], Running, 1);
    var w2 := ShowingPause0(Free, [], Paused(1, Approval), 2);
    var w3 := ShowingPause0(Responding(1, SHOWN), [], Paused(1, Approval), 2);
    var w4 := ShowingPause0(Answered(1, SHOWN), [] + [Answer(1, Some(0))], Running, 2);
    assert Goes(w, RunContinues(0), w1);
    CrashGoes([], 1);
    AnswerGoes(end, [], 1, 2);
    var rest: seq<Step> := [];
    assert Possible(w4, rest) && After(w4, rest) == w4 && w4.answers == [Answer(1, Some(0))];
    hide Goes, ShowingPause0, Possible, After;
    GoesThen(w3, Resume(Continues, end), w4, rest);
    rest := [Resume(Continues, end)] + rest;
    GoesThen(w2, RespondStart(0), w3, rest);
    rest := [RespondStart(0)] + rest;
    GoesThen(w1, RunPauses(0, Approval), w2, rest);
    rest := [RunPauses(0, Approval)] + rest;
    GoesThen(w, RunContinues(0), w1, rest);
  }

  /** After a crash between an answer and its message's update, the message still shows the pause
      that was answered. If the run pauses again, reconciling leaves the turn as it is, and the
      next answer to the message reaches the new pause, which the user has not seen. */
  lemma {:induction false} StaleAnswerReachesLaterPause(end: TurnResult)
    requires Ending(end)
    ensures Possible(Begin(), FirstPause(end, false) + CrashThenAnswer(end))
    ensures After(Begin(), FirstPause(end, false) + CrashThenAnswer(end)).answers
         == [Answer(0, Some(0)), Answer(1, Some(0))]
  {
    FirstPauseGoes(end, false);
    CrashThenAnswerGoes(end);
    hide FirstPause, CrashThenAnswer, Possible, After;
    RunAppends(Begin(), FirstPause(end, false), CrashThenAnswer(end));
  }

  /** A held run is shown as if it waited for an approval. Once it has gone on and pauses for an
      approval, the answer to what was shown reaches that pause. */
  lemma {:induction false} HeldShownReachesLaterPause(end: TurnResult)
    requires Ending(end)
    ensures Possible(Begin(), FirstPause(end, true) + ContinueThenAnswer(end))
    ensures After(Begin(), FirstPause(end, true) + ContinueThenAnswer(end)).answers == [Answer(1, Some(0))]
  {
    FirstPauseGoes(end, true);
    ContinueThenAnswerGoes(end);
    hide FirstPause, ContinueThenAnswer, Possible, After;
    RunAppends(Begin(), FirstPause(end, true), ContinueThenAnswer(end));
  }
}
