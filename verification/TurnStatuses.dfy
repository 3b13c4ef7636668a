/** Which status an answer shows: that of the result stored in it, or of the step that gave it up. */
module TurnStatuses {
  import opened Messages
  import opened Turns

  /** The message shows this outcome and no other. */
  ghost predicate ShowsOutcome(m: TurnMessage, o: Outcome) {
    && (m.status == Failed <==> o == TurnFailed)
    && (m.status == Cancelled <==> o == TurnCancelled)
    && (m.status == Expired <==> o == TurnExpired)
    && (m.status == AwaitingApproval <==> o == TurnAwaitsApproval)
    && (m.status == AwaitingInput <==> o == TurnAwaitsInput)
    && (m.status == Completed <==> o in {TurnCompleted, TurnBlocked, TurnAwaitsClarification})
  }

  /** The awaiting message and its run's end, when a call finds the run of that message ended. */
  function EndedUnder(w: World, found: Option<nat>, ending: TurnResult): Option<(nat, TurnResult)> {
    if found.Some? && found.value < |w.messages| && w.messages[found.value].pending.Some?
       && StateOf(w.runs, w.messages[found.value].pending.value.run).Ended?
    then Some((found.value, ending)) else None
  }

  /** The message in which a step stores a result, and the result. */
  function StoredBy(w: World, s: Step): Option<(nat, TurnResult)>
    requires Enabled(w, s)
  {
    match s
    case TaskFinish(t, r) => Some((w.live[t].message, r))
    case SubmitCheck(ending) => EndedUnder(w, AwaitingMessage(w.messages), ending)
    case Reconcile(turn, ending) => EndedUnder(w, AwaitingReply(w.messages, turn), ending)
    case Resume(Refused, ending) =>
      if StateOf(w.runs, w.lock.pending.run).Ended? then Some((w.lock.message, ending)) else None
    case Resume(PauseExpired, _) => Some((w.lock.message, TurnResult(TurnExpired, None)))
    case _ => None
  }

  /** The message to which a step gives a status without a result, and the status. */
  function GivenBy(w: World, s: Step): Option<(nat, Status)>
    requires Enabled(w, s)
  {
    match s
    case TaskBegin(t) => if w.live[t].resumed then None else Some((w.live[t].message, Streaming))
    case RespondWrite => Some((w.lock.message, Streaming))
    case Reattach => Some((w.lock.message, Streaming))
    case CancelWrite => Some((w.lock.message, Cancelled))
    case TaskCancelled(t) => if w.live[t].begun then Some((w.live[t].message, Cancelled)) else None
    case TaskFail(t) => Some((w.live[t].message, Failed))
    case RecoverWrite(i) => Some((i, Failed))
    case _ => None
  }

  // ---------------------------------------------------------------- one step

  lemma {:induction false} StoredShows(m: TurnMessage, r: TurnResult)
    ensures ShowsOutcome(Stored(m, r), r.outcome) && Stored(m, r).pending == r.pending
    ensures Stored(m, r) == m.(status := Stored(m, r).status, pending := Stored(m, r).pending)
  {
  }

  lemma {:induction false} HeldIsThere(w: World)
    requires Inv(w)
    ensures w.lock.Responding? ==> w.lock.message < |w.messages|
  {
  }

  /** A result that is stored decides the status and what is pending, of that message only. */
  lemma {:induction false} ResultDecidesStatus(w: World, s: Step)
    requires Inv(w) && Enabled(w, s) && StoredBy(w, s).Some?
    ensures var (i, r) := StoredBy(w, s).value;
      && i < |w.messages|
      && var m := Do(w, s).messages[i];
         && ShowsOutcome(m, r.outcome) && m.pending == r.pending
         && Do(w, s).messages == w.messages[i := w.messages[i].(status := m.status, pending := m.pending)]
  {
    HeldIsThere(w);
    hide Inv, AwaitingMessage, AwaitingReply;
    var (i, r) := StoredBy(w, s).value;
    StoredShows(w.messages[i], r);
    assert Do(w, s).messages == w.messages[i := Stored(w.messages[i], r)];
    hide ShowsOutcome, Stored;
  }

  lemma {:induction false} GivenStatusIsShown(w: World, s: Step)
    requires Enabled(w, s) && GivenBy(w, s).Some?
    ensures var (i, status) := GivenBy(w, s).value;
      && i < |w.messages|
      && Do(w, s).messages == w.messages[i := w.messages[i].(status := status, pending := None)]
  {
  }

  lemma {:induction false} OtherwiseNothingChanges(w: World, s: Step)
    requires Enabled(w, s) && StoredBy(w, s).None? && GivenBy(w, s).None?
    ensures w.messages <= Do(w, s).messages
    ensures Do(w, s).messages == w.messages || s.SubmitUser? || s.SubmitAssistant?
    ensures s.SubmitUser? ==> Do(w, s).messages == w.messages + [TurnMessage(true, Completed, None, None)]
    ensures s.SubmitAssistant? ==>
              Do(w, s).messages == w.messages + [TurnMessage(false, Accepted, Some(w.lock.user), None)]
  {
    hide AwaitingMessage, ReplyOf;
  }

  /** An awaiting message waits for what its status says. */
  ghost predicate KindsShown(ms: seq<TurnMessage>) {
    forall i :: 0 <= i < |ms| && ms[i].pending.Some? ==>
      ms[i].status == if ms[i].pending.value.kind.Approval? then AwaitingApproval else AwaitingInput
  }

  lemma {:induction false} StepKeepsKinds(w: World, s: Step)
    requires Inv(w) && KindsShown(w.messages) && Enabled(w, s)
    ensures KindsShown(Do(w, s).messages)
  {
    hide Inv, Do, StoredBy;
    if StoredBy(w, s).Some? {
      ResultDecidesStatus(w, s);
      StoredFits(w, s);
    } else if GivenBy(w, s).Some? {
      GivenStatusIsShown(w, s);
    } else {
      OtherwiseNothingChanges(w, s);
    }
  }

  /** A result waits for an approval or for input as its outcome says. */
  lemma {:induction false} StoredFits(w: World, s: Step)
    requires Enabled(w, s) && StoredBy(w, s).Some?
    ensures var r := StoredBy(w, s).value.1;
      r.pending.Some? ==>
        r.outcome == if r.pending.value.kind.Approval? then TurnAwaitsApproval else TurnAwaitsInput
  {
    hide AwaitingMessage, AwaitingReply;
  }

  // ---------------------------------------------------------------- runs and tasks

  /** A run changes only so: it goes on by an answer or a settled tool call, pauses and is held by itself,
      and ends by itself, by a rejection or by an effective cancellation. An ended run stays ended. */
  lemma {:induction false} RunsChangeOnlySo(w: World, s: Step, r: nat)
    requires Enabled(w, s) && r < |w.runs|
    ensures r < |Do(w, s).runs|
    ensures var a, b := w.runs[r], Do(w, s).runs[r];
      a != b ==>
        match b
        case Running =>
          || (a.Paused? && (s == AnswerElsewhere(r)
                            || (s.Resume? && s.outcome.Continues? && w.lock.pending.run == r)))
          || (a.Held? && s == RunContinues(r))
        case Paused(p, kind) => a.Running? && s == RunPauses(r, kind) && p == w.nextPause
        case Held(p) => a.Running? && s == RunHolds(r) && p == w.nextPause
        case Ended =>
          || s == RunEnds(r)
          || (s.Resume? && s.outcome.Rejected? && w.lock.pending.run == r)
          || (s == CancelRun(true) && w.lock.pending.run == r)
  {
    hide AwaitingMessage, AwaitingReply;
  }

  /** An answer that is taken lets the run go on, or ends it if it rejects; an effective cancellation ends
      it. */
  lemma {:induction false} AnswersMoveRuns(w: World, s: Step)
    requires Enabled(w, s) && (s.Resume? || s.CancelRun?) && w.lock.pending.run < |w.runs|
    ensures w.lock.pending.run < |Do(w, s).runs|
    ensures var run := Do(w, s).runs[w.lock.pending.run];
      match s
      case Resume(Continues, _) => run.Running?
      case Resume(Rejected, _) => run.Ended?
      case CancelRun(effective) => effective ==> run.Ended?
      case _ => true
  {
  }

  /** A cancelled task can stop, and then its message, if it had begun, is cancelled and nothing works on
      the conversation. */
  lemma {:induction false} CancelStopsTask(w: World)
    requires Inv(w) && Enabled(w, CancelTask)
    ensures var c, t := Do(w, CancelTask), w.table.value;
      && Enabled(c, TaskCancelled(t))
      && var d := Do(c, TaskCancelled(t));
         && d.live == map[] && d.table.None?
         && (w.live[t].begun ==> d.messages[w.live[t].message].status == Cancelled)
  {
    var t := w.table.value;
    OnlyLiveTask(w, t);
    assert forall u <- w.live :: u == t;
    hide Talk, NoneAwaits, PausesOk, NumbersOk;
  }

  /** From a shutdown until the process ends no submit and no answer is taken. */
  lemma {:induction false} ShutdownTakesNothing(w: World, steps: seq<Step>)
    requires !w.accepting && Possible(w, steps) && forall s <- steps :: !s.Crash?
    ensures !After(w, steps).accepting && forall s <- steps :: !s.SubmitCheck? && !s.RespondStart?
    decreases |steps|
  {
    if steps != [] {
      assert steps == [steps[0]] + steps[1..] && steps[0] in steps;
      assert forall s <- steps[1..] :: s in steps;
      StaysShut(w, steps[0]);
      hide Do;
      ShutdownTakesNothing(Do(w, steps[0]), steps[1..]);
    }
  }

  lemma {:induction false} StaysShut(w: World, s: Step)
    requires Enabled(w, s)
    ensures s.Shutdown? || (!w.accepting && !s.Crash?) ==> !Do(w, s).accepting
  {
    hide AwaitingMessage, AwaitingReply;
  }

  lemma {:induction false} ShutdownShuts(w: World)
    ensures !Do(w, Shutdown).accepting
  {
    StaysShut(w, Shutdown);
  }

  // ---------------------------------------------------------------- a recovery pass

  lemma {:induction false} WritesFail(w: World, steps: seq<Step>)
    requires Possible(w, steps) && (forall s <- steps :: s.RecoverWrite?)
    requires After(w, steps).recovering == {} && forall i <- w.recovering :: i < |w.messages|
    ensures |After(w, steps).messages| == |w.messages|
    ensures forall i :: 0 <= i < |w.messages| ==>
      After(w, steps).messages[i] ==
        if i in w.recovering then w.messages[i].(status := Failed, pending := None) else w.messages[i]
    decreases |steps|
  {
    if steps != [] {
      assert steps[0] in steps && forall s <- steps[1..] :: s in steps;
      hide Enabled;
      assert Do(w, steps[0]).messages
          == w.messages[steps[0].index := w.messages[steps[0].index].(status := Failed, pending := None)];
      assert Do(w, steps[0]).recovering == w.recovering - {steps[0].index};
      hide Do;
      WritesFail(Do(w, steps[0]), steps[1..]);
    }
  }

  /** A recovery pass that runs to its end fails exactly the answers that were accepted or streaming when
      it read the messages. */
  lemma {:induction false} RecoveryFailsInterrupted(w: World, steps: seq<Step>)
    requires Enabled(w, RecoverRead) && Possible(Do(w, RecoverRead), steps)
    requires (forall s <- steps :: s.RecoverWrite?) && After(Do(w, RecoverRead), steps).recovering == {}
    ensures |After(Do(w, RecoverRead), steps).messages| == |w.messages|
    ensures forall i :: 0 <= i < |w.messages| ==>
      After(Do(w, RecoverRead), steps).messages[i] ==
        if !w.messages[i].isUser && w.messages[i].status in {Accepted, Streaming}
        then w.messages[i].(status := Failed, pending := None) else w.messages[i]
  {
    WritesFail(Do(w, RecoverRead), steps);
    hide Possible, After;
  }

  // ---------------------------------------------------------------- whole runs

  /** Somewhere in the run a result with one of these outcomes is stored in the message. */
  ghost predicate WasStored(w: World, steps: seq<Step>, i: nat, outcomes: set<Outcome>)
    requires Possible(w, steps)
    decreases |steps|
  {
    steps != [] &&
    (|| (&& StoredBy(w, steps[0]).Some? && StoredBy(w, steps[0]).value.0 == i
         && StoredBy(w, steps[0]).value.1.outcome in outcomes)
     || WasStored(Do(w, steps[0]), steps[1..], i, outcomes))
  }

  /** Somewhere in the run the message is given this status without a result. */
  ghost predicate WasGiven(w: World, steps: seq<Step>, i: nat, status: Status)
    requires Possible(w, steps)
    decreases |steps|
  {
    steps != [] &&
    (GivenBy(w, steps[0]) == Some((i, status)) || WasGiven(Do(w, steps[0]), steps[1..], i, status))
  }

  function OutcomesOf(status: Status): set<Outcome> {
    match status
    case Completed => {TurnCompleted, TurnBlocked, TurnAwaitsClarification}
    case Failed => {TurnFailed}
    case Cancelled => {TurnCancelled}
    case Expired => {TurnExpired}
    case AwaitingApproval => {TurnAwaitsApproval}
    case AwaitingInput => {TurnAwaitsInput}
    case _ => {}
  }

  /** The answer has the status already. */
  ghost predicate Has(w: World, i: nat, status: Status) {
    i < |w.messages| && !w.messages[i].isUser && w.messages[i].status == status
  }

  lemma {:induction false} StepGivesStatus(w: World, s: Step, i: nat, status: Status)
    requires Inv(w) && Enabled(w, s) && Has(Do(w, s), i, status) && status != Accepted
    ensures || Has(w, i, status) || GivenBy(w, s) == Some((i, status))
            || (&& StoredBy(w, s).Some? && StoredBy(w, s).value.0 == i
                && StoredBy(w, s).value.1.outcome in OutcomesOf(status))
  {
    hide Inv, Do, StoredBy;
    if StoredBy(w, s).Some? {
      ResultDecidesStatus(w, s);
    } else if GivenBy(w, s).Some? {
      GivenStatusIsShown(w, s);
    } else {
      OtherwiseNothingChanges(w, s);
    }
  }

  lemma {:induction false} StatusWasGiven(w: World, steps: seq<Step>, i: nat, status: Status)
    requires Inv(w) && Possible(w, steps) && Has(After(w, steps), i, status) && status != Accepted
    ensures Has(w, i, status) || WasStored(w, steps, i, OutcomesOf(status)) || WasGiven(w, steps, i, status)
    decreases |steps|
  {
    if steps != [] {
      hide Inv, Do, Enabled, Has, StoredBy, GivenBy, OutcomesOf;
      StepKeepsInv(w, steps[0]);
      StatusWasGiven(Do(w, steps[0]), steps[1..], i, status);
      if Has(Do(w, steps[0]), i, status) {
        StepGivesStatus(w, steps[0], i, status);
      }
    }
  }

  lemma {:induction false} OnlySuch(w: World, steps: seq<Step>, i: nat, status: Status)
    requires Possible(w, steps) && !status.Streaming? && !status.Cancelled? && !status.Failed?
    ensures !WasGiven(w, steps, i, status)
    decreases |steps|
  {
    if steps != [] {
      hide Do, Enabled;
      OnlySuch(Do(w, steps[0]), steps[1..], i, status);
    }
  }

  lemma {:induction false} RunKeepsKinds(w: World, steps: seq<Step>)
    requires Inv(w) && KindsShown(w.messages) && Possible(w, steps)
    ensures KindsShown(After(w, steps).messages)
    decreases |steps|
  {
    if steps != [] {
      hide Inv, Do, Enabled, KindsShown;
      StepKeepsInv(w, steps[0]);
      StepKeepsKinds(w, steps[0]);
      RunKeepsKinds(Do(w, steps[0]), steps[1..]);
    }
  }

  /** In every run: an answer is completed only if a result that was completed, blocked or asked for
      clarification was stored in it, expired only by an expired result, awaiting only by an awaiting
      one, cancelled or failed only by such a result or by the task, the canceller or the recovery pass
      that gave it up; and what it waits for is what its status says. */
  lemma {:induction false} AnswersShowWhatHappened(steps: seq<Step>, i: nat)
    requires Possible(Begin(), steps) && i < |After(Begin(), steps).messages|
    requires !After(Begin(), steps).messages[i].isUser
    ensures var m := After(Begin(), steps).messages[i];
      && (m.status == Completed ==>
            WasStored(Begin(), steps, i, {TurnCompleted, TurnBlocked, TurnAwaitsClarification}))
      && (m.status == Expired ==> WasStored(Begin(), steps, i, {TurnExpired}))
      && (m.status == AwaitingApproval ==> WasStored(Begin(), steps, i, {TurnAwaitsApproval}))
      && (m.status == AwaitingInput ==> WasStored(Begin(), steps, i, {TurnAwaitsInput}))
      && (m.status == Cancelled ==>
            WasStored(Begin(), steps, i, {TurnCancelled}) || WasGiven(Begin(), steps, i, Cancelled))
      && (m.status == Failed ==>
            WasStored(Begin(), steps, i, {TurnFailed}) || WasGiven(Begin(), steps, i, Failed))
      && (m.pending.Some? ==>
            m.status == if m.pending.value.kind.Approval? then AwaitingApproval else AwaitingInput)
  {
    RunKeepsKinds(Begin(), steps);
    var status := After(Begin(), steps).messages[i].status;
    if status != Accepted {
      StatusWasGiven(Begin(), steps, i, status);
    }
    if !status.Streaming? && !status.Cancelled? && !status.Failed? {
      OnlySuch(Begin(), steps, i, status);
    }
    hide Possible, After, WasStored, WasGiven;
  }
}
