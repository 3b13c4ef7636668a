/** The turns of one conversation: submit, respond, cancel, recover and reconcile around the
    background task that answers, with crashes anywhere between two writes. */
module Turns {
  import opened Messages

  // ---------------------------------------------------------------- records

  datatype Status =
    | Accepted | Streaming | Completed | Failed | Cancelled | AwaitingApproval | AwaitingInput | Expired

  datatype Kind = Approval | Input

  /** What a paused turn waits for. `pause` identifies the pause that the message shows. */
  datatype Pending = Pending(kind: Kind, turn: nat, run: nat, pause: nat)

  /** A stored message; its id is its position. */
  datatype TurnMessage = TurnMessage(
    isUser: bool, status: Status, replyTo: Option<nat>, pending: Option<Pending>)

  datatype Outcome =
    | TurnCompleted | TurnFailed | TurnBlocked | TurnAwaitsClarification
    | TurnAwaitsApproval | TurnAwaitsInput | TurnCancelled | TurnExpired

  datatype TurnResult = TurnResult(outcome: Outcome, pending: Option<Pending>)

  predicate Awaits(s: Status) {
    s.AwaitingApproval? || s.AwaitingInput?
  }

  predicate Interrupted(m: TurnMessage) {
    !m.isUser && (m.status.Accepted? || m.status.Streaming?)
  }

  predicate AwaitingOutcome(o: Outcome) {
    o.TurnAwaitsApproval? || o.TurnAwaitsInput?
  }

  /** The validator of a turn's result. */
  predicate ValidResult(r: TurnResult) {
    AwaitingOutcome(r.outcome) == r.pending.Some?
  }

  function StatusOf(o: Outcome): Status {
    match o
    case TurnFailed => Failed
    case TurnCancelled => Cancelled
    case TurnExpired => Expired
    case TurnAwaitsApproval => AwaitingApproval
    case TurnAwaitsInput => AwaitingInput
    case _ => Completed
  }

  function Stored(m: TurnMessage, r: TurnResult): (m': TurnMessage)
    ensures ValidResult(r) ==> (m'.pending.Some? <==> Awaits(m'.status))
  {
    m.(status := StatusOf(r.outcome), pending := r.pending)
  }

  // ---------------------------------------------------------------- the world

  /** A paused run waits for an answer; a held one waits until the outcome of a tool call that may
      have taken effect is settled, and takes no answer. */
  datatype RunState = Running | Paused(pause: nat, kind: Kind) | Held(pause: nat) | Ended

  /** Following an existing run, or starting one (`run` is None until it has started). */
  datatype Task = Task(message: nat, run: Option<nat>, resumed: bool, begun: bool, cancelled: bool)

  /** Who holds the service's lock, and how far it is. */
  datatype Lock =
    | Free
    | SubmitReady | UserStored(user: nat) | AssistantStored(assistant: nat)
    | Responding(message: nat, pending: Pending) | Answered(message: nat, pending: Pending)
    | Reattaching(message: nat, pending: Pending)
    | Cancelling(message: nat, pending: Pending) | RunCancelled(message: nat)

  /** An answer given to a run: the pause it ended, and the pause the answered message showed. */
  datatype Answer = Answer(pause: nat, shown: Option<nat>)

  /** `messages` and `runs` are durable, `live`, `table`, `lock`, `accepting` and `recovering` die
      with the process; `answers` and the counters are observations. */
  datatype World = World(
    messages: seq<TurnMessage>, runs: seq<RunState>, nextPause: nat, answers: seq<Answer>,
    live: map<nat, Task>, table: Option<nat>, nextTask: nat,
    lock: Lock, accepting: bool, recovering: set<nat>)

  datatype ResumeOutcome = Continues | Rejected | Refused | PauseExpired

  datatype Step =
    | SubmitCheck(ending: TurnResult) | SubmitUser | SubmitAssistant | SubmitSpawn
    | RespondStart(turn: nat) | Resume(outcome: ResumeOutcome, ending: TurnResult) | RespondWrite
    | CancelTask | CancelStart | CancelRun(effective: bool) | CancelWrite
    | RecoverRead | RecoverWrite(index: nat)
    | Reconcile(turn: nat, ending: TurnResult) | Reattach
    | Shutdown | Crash
    | TaskBegin(task: nat) | TaskStartRun(task: nat) | TaskFinish(task: nat, result: TurnResult)
    | TaskFail(task: nat) | TaskCancelled(task: nat)
    | RunPauses(run: nat, kind: Kind) | RunEnds(run: nat) | AnswerElsewhere(run: nat)
    | RunHolds(run: nat) | RunContinues(run: nat)

  function Begin(): World {
    World([], [], 0, [], map[], None, 0, Free, true, {})
  }

  predicate HasLiveTask(w: World) {
    w.table.Some? && w.table.value in w.live
  }

  function Max(a: int, b: int): int { if a >= b then a else b }

  /** The latest awaiting assistant message among those from `from` on. */
  function LastAwaiting(ms: seq<TurnMessage>, from: nat): Option<nat>
    decreases |ms|
  {
    if |ms| <= from then None
    else if !ms[|ms| - 1].isUser && Awaits(ms[|ms| - 1].status) then Some(|ms| - 1)
    else LastAwaiting(ms[..|ms| - 1], from)
  }

  /** The search looks at the latest 50 messages. */
  function AwaitingMessage(ms: seq<TurnMessage>): Option<nat> {
    LastAwaiting(ms, Max(0, |ms| - 50))
  }

  /** The latest answer to `turn` among the messages from `from` on. */
  function LastReply(ms: seq<TurnMessage>, turn: nat, from: nat): Option<nat>
    decreases |ms|
  {
    if |ms| <= from then None
    else if !ms[|ms| - 1].isUser && ms[|ms| - 1].replyTo == Some(turn) then Some(|ms| - 1)
    else LastReply(ms[..|ms| - 1], turn, from)
  }

  /** The assistant message of a turn, found among the latest 1000 messages like its question. */
  function ReplyOf(ms: seq<TurnMessage>, turn: nat): Option<nat> {
    var from := Max(0, |ms| - 1000);
    if from <= turn < |ms| && ms[turn].isUser then LastReply(ms, turn, from) else None
  }

  /** An awaiting answer to `turn`. */
  function AwaitingReply(ms: seq<TurnMessage>, turn: nat): Option<nat> {
    var i := ReplyOf(ms, turn);
    if i.Some? && i.value < |ms| && Awaits(ms[i.value].status) && ms[i.value].pending.Some? then i else None
  }

  function StateOf(runs: seq<RunState>, run: nat): RunState {
    if run < |runs| then runs[run] else Ended
  }

  predicate Ending(r: TurnResult) {
    ValidResult(r) && r.pending.None?
  }

  /** What waiting for a run gives: a pause to wait for, or an ending. A held run is shown as if it
      waited for an approval. */
  predicate ResultFits(state: RunState, turn: nat, run: nat, r: TurnResult) {
    match state
    case Running => false
    case Ended => Ending(r)
    case Paused(p, Approval) => r == TurnResult(TurnAwaitsApproval, Some(Pending(Approval, turn, run, p)))
    case Held(p) => r == TurnResult(TurnAwaitsApproval, Some(Pending(Approval, turn, run, p)))
    case Paused(p, Input) => r == TurnResult(TurnAwaitsInput, Some(Pending(Input, turn, run, p)))
  }

  /** A run takes an answer of the kind it waits for: a decision or a clarification. The handler
      sends the kind that the message shows. */
  predicate Accepts(runs: seq<RunState>, p: Pending) {
    StateOf(runs, p.run).Paused? && StateOf(runs, p.run).kind == p.kind
  }

  predicate Enabled(w: World, s: Step) {
    match s
    case SubmitCheck(ending) => w.lock.Free? && w.accepting && !HasLiveTask(w) && Ending(ending)
    case SubmitUser => w.lock.SubmitReady?
    case SubmitAssistant => w.lock.UserStored?
    case SubmitSpawn => w.lock.AssistantStored?
    case RespondStart(_) => w.lock.Free? && w.accepting && !HasLiveTask(w)
    case Resume(outcome, ending) =>
      && w.lock.Responding? && Ending(ending)
      && (outcome.Continues? || outcome.Rejected? ==> Accepts(w.runs, w.lock.pending))
      && (outcome.Rejected? ==> w.lock.pending.kind.Approval?)
    case RespondWrite => w.lock.Answered? && w.lock.message < |w.messages|
    case CancelTask => HasLiveTask(w)
    case CancelStart => w.lock.Free?
    case CancelRun(_) => w.lock.Cancelling?
    case CancelWrite => w.lock.RunCancelled? && w.lock.message < |w.messages|
    case RecoverRead => w.recovering == {}
    case RecoverWrite(i) => i in w.recovering && i < |w.messages|
    case Reconcile(_, ending) => w.lock.Free? && !HasLiveTask(w) && Ending(ending)
    case Reattach => w.lock.Reattaching? && w.lock.message < |w.messages|
    case Shutdown => true
    case Crash => true
    case TaskBegin(t) => t in w.live && !w.live[t].begun && w.live[t].message < |w.messages|
    case TaskStartRun(t) => t in w.live && w.live[t].begun && w.live[t].run.None?
    case TaskFinish(t, r) =>
      && t in w.live && w.live[t].begun && 0 < w.live[t].message < |w.messages|
      && w.live[t].run.Some? && w.live[t].run.value < |w.runs|
      && ResultFits(w.runs[w.live[t].run.value], w.live[t].message - 1, w.live[t].run.value, r)
    case TaskFail(t) => t in w.live && w.live[t].begun && w.live[t].message < |w.messages|
    case TaskCancelled(t) => t in w.live && w.live[t].cancelled && w.live[t].message < |w.messages|
    case RunPauses(r, _) => r < |w.runs| && w.runs[r].Running?
    case RunEnds(r) => r < |w.runs|
    case AnswerElsewhere(r) => r < |w.runs| && w.runs[r].Paused?
    case RunHolds(r) => r < |w.runs| && w.runs[r].Running?
    case RunContinues(r) => r < |w.runs| && w.runs[r].Held?
  }

  function Write(w: World, i: nat, status: Status, pending: Option<Pending>): World
    requires i < |w.messages|
  {
    w.(messages := w.messages[i := w.messages[i].(status := status, pending := pending)])
  }

  function Settle(w: World, i: nat, r: TurnResult): World
    requires i < |w.messages|
  {
    w.(messages := w.messages[i := Stored(w.messages[i], r)])
  }

  function Spawn(w: World, t: Task): World {
    w.(live := w.live[w.nextTask := t], table := Some(w.nextTask), nextTask := w.nextTask + 1, lock := Free)
  }

  /** A finished background job leaves the live set, and the table if it is the registered one. */
  function EndTask(w: World, t: nat): World {
    w.(live := w.live - {t}, table := if w.table == Some(t) then None else w.table)
  }

  function AnswerRun(w: World, run: nat, shown: Option<nat>, next: RunState): World
    requires run < |w.runs| && w.runs[run].Paused?
  {
    w.(answers := w.answers + [Answer(w.runs[run].pause, shown)], runs := w.runs[run := next])
  }

  function Follow(w: World, i: nat, run: nat): World
    requires i < |w.messages|
  {
    Spawn(Write(w, i, Streaming, None), Task(i, Some(run), true, false, false))
  }

  function Do(w: World, s: Step): World
    requires Enabled(w, s)
  {
    match s
    case SubmitCheck(ending) =>
      (match AwaitingMessage(w.messages)
       case None => w.(lock := SubmitReady)
       case Some(i) =>
         if i < |w.messages| && w.messages[i].pending.Some?
            && StateOf(w.runs, w.messages[i].pending.value.run).Ended?
         then Settle(w, i, ending).(lock := SubmitReady)
         else w)
    case SubmitUser =>
      w.(messages := w.messages + [TurnMessage(true, Completed, None, None)],
         lock := UserStored(|w.messages|))
    case SubmitAssistant =>
      w.(messages := w.messages + [TurnMessage(false, Accepted, Some(w.lock.user), None)],
         lock := AssistantStored(|w.messages|))
    case SubmitSpawn => Spawn(w, Task(w.lock.assistant, None, false, false, false))
    case RespondStart(turn) =>
      (match AwaitingReply(w.messages, turn)
       case None => w
       case Some(i) => w.(lock := Responding(i, w.messages[i].pending.value)))
    case Resume(outcome, ending) =>
      var i, p := w.lock.message, w.lock.pending;
      (match outcome
       case Continues => AnswerRun(w, p.run, Some(p.pause), Running).(lock := Answered(i, p))
       case Rejected => AnswerRun(w, p.run, Some(p.pause), Ended).(lock := Answered(i, p))
       case Refused =>
         if i < |w.messages| && StateOf(w.runs, p.run).Ended? then Settle(w, i, ending).(lock := Free)
         else w.(lock := Free)
       case PauseExpired =>
         if i < |w.messages| then Settle(w, i, TurnResult(TurnExpired, None)).(lock := Free)
         else w.(lock := Free))
    case RespondWrite => Follow(w, w.lock.message, w.lock.pending.run)
    case CancelTask => w.(live := w.live[w.table.value := w.live[w.table.value].(cancelled := true)])
    case CancelStart =>
      (match AwaitingMessage(w.messages)
       case None => w
       case Some(i) =>
         if i < |w.messages| && w.messages[i].pending.Some?
         then w.(lock := Cancelling(i, w.messages[i].pending.value)) else w)
    case CancelRun(effective) =>
      var w' := w.(lock := RunCancelled(w.lock.message));
      if effective && w.lock.pending.run < |w.runs|
      then w'.(runs := w.runs[w.lock.pending.run := Ended]) else w'
    case CancelWrite => Write(w, w.lock.message, Cancelled, None).(lock := Free)
    case RecoverRead => w.(recovering := set i | 0 <= i < |w.messages| && Interrupted(w.messages[i]))
    case RecoverWrite(i) => Write(w, i, Failed, None).(recovering := w.recovering - {i})
    case Reconcile(turn, ending) =>
      (match AwaitingReply(w.messages, turn)
       case None => w
       case Some(i) =>
         var p := w.messages[i].pending.value;
         match StateOf(w.runs, p.run)
         case Paused(_, _) => w
         case Held(_) => w
         case Ended => Settle(w, i, ending)
         case Running => w.(lock := Reattaching(i, p)))
    case Reattach => Follow(w, w.lock.message, w.lock.pending.run)
    case Shutdown => w.(accepting := false)
    case Crash => w.(live := map[], table := None, lock := Free, accepting := true, recovering := {})
    case TaskBegin(t) =>
      var w' := w.(live := w.live[t := w.live[t].(begun := true)]);
      if w.live[t].resumed then w' else Write(w', w.live[t].message, Streaming, None)
    case TaskStartRun(t) =>
      w.(runs := w.runs + [Running], live := w.live[t := w.live[t].(run := Some(|w.runs|))])
    case TaskFinish(t, r) => EndTask(Settle(w, w.live[t].message, r), t)
    case TaskFail(t) => EndTask(Write(w, w.live[t].message, Failed, None), t)
    case TaskCancelled(t) =>
      if w.live[t].begun then EndTask(Write(w, w.live[t].message, Cancelled, None), t) else EndTask(w, t)
    case RunPauses(r, kind) =>
      w.(runs := w.runs[r := Paused(w.nextPause, kind)], nextPause := w.nextPause + 1)
    case RunEnds(r) => w.(runs := w.runs[r := Ended])
    case AnswerElsewhere(r) => AnswerRun(w, r, None, Running)
    case RunHolds(r) => w.(runs := w.runs[r := Held(w.nextPause)], nextPause := w.nextPause + 1)
    case RunContinues(r) => w.(runs := w.runs[r := Running])
  }

  // ---------------------------------------------------------------- the messages

  ghost predicate MessageOk(ms: seq<TurnMessage>, i: nat, runs: nat)
    requires i < |ms|
  {
    var m := ms[i];
    if m.isUser then m.status == Completed && m.replyTo.None? && m.pending.None?
    else
      && i > 0 && ms[i - 1].isUser && m.replyTo == Some(i - 1)
      && (m.pending.Some? <==> Awaits(m.status))
      && (m.pending.Some? ==> m.pending.value.turn == i - 1 && m.pending.value.run < runs)
  }

  /** Every answer follows its question, a message has something pending exactly when it awaits,
      and only the last message may. */
  ghost predicate Talk(ms: seq<TurnMessage>, runs: nat) {
    forall i :: 0 <= i < |ms| ==> MessageOk(ms, i, runs) && (Awaits(ms[i].status) ==> i == |ms| - 1)
  }

  ghost predicate NoneAwaits(ms: seq<TurnMessage>) {
    forall i :: 0 <= i < |ms| ==> !Awaits(ms[i].status)
  }

  /** `i` is the last message and an answer. */
  ghost predicate LastAnswer(ms: seq<TurnMessage>, i: nat) {
    0 < |ms| && i == |ms| - 1 && !ms[i].isUser
  }

  lemma {:induction false} WriteKeepsTalk(
    ms: seq<TurnMessage>, runs: nat, i: nat, status: Status, pending: Option<Pending>)
    requires Talk(ms, runs) && i < |ms| && !ms[i].isUser
    requires pending.Some? <==> Awaits(status)
    requires pending.Some? ==> i == |ms| - 1 && pending.value.turn == i - 1 && pending.value.run < runs
    ensures var ms' := ms[i := ms[i].(status := status, pending := pending)];
      && Talk(ms', runs)
      && (forall j :: LastAnswer(ms, j) ==> LastAnswer(ms', j))
      && (!Awaits(status) && (NoneAwaits(ms) || i == |ms| - 1) ==> NoneAwaits(ms'))
  {
    var ms' := ms[i := ms[i].(status := status, pending := pending)];
    forall j | 0 <= j < |ms'|
      ensures MessageOk(ms', j, runs) && (Awaits(ms'[j].status) ==> j == |ms'| - 1)
    {
      assert MessageOk(ms, j, runs) && MessageOk(ms, i, runs);
      assert ms'[j].isUser == ms[j].isUser && ms'[j].replyTo == ms[j].replyTo;
    }
  }

  lemma {:induction false} AppendKeepsTalk(ms: seq<TurnMessage>, runs: nat, m: TurnMessage)
    requires Talk(ms, runs) && NoneAwaits(ms) && !Awaits(m.status) && m.pending.None?
    requires if m.isUser then m.status == Completed && m.replyTo.None?
             else |ms| > 0 && ms[|ms| - 1].isUser && m.replyTo == Some(|ms| - 1)
    ensures Talk(ms + [m], runs) && NoneAwaits(ms + [m])
  {
    var ms' := ms + [m];
    forall j | 0 <= j < |ms'|
      ensures MessageOk(ms', j, runs) && !Awaits(ms'[j].status)
    {
      if j < |ms| {
        assert MessageOk(ms, j, runs);
      }
    }
  }

  lemma {:induction false} MoreRunsKeepTalk(ms: seq<TurnMessage>, runs: nat, more: nat)
    requires Talk(ms, runs) && runs <= more
    ensures Talk(ms, more)
  {
    forall j | 0 <= j < |ms|
      ensures MessageOk(ms, j, more)
    {
      assert MessageOk(ms, j, runs);
    }
  }

  lemma {:induction false} LastAwaitingFound(ms: seq<TurnMessage>, from: nat)
    ensures var r := LastAwaiting(ms, from);
      && (r.Some? ==> from <= r.value < |ms| && !ms[r.value].isUser && Awaits(ms[r.value].status))
      && (r.None? ==> forall i :: from <= i < |ms| && !ms[i].isUser ==> !Awaits(ms[i].status))
  {
    if |ms| > from {
      LastAwaitingFound(ms[..|ms| - 1], from);
    }
  }

  lemma {:induction false} LastReplyFound(ms: seq<TurnMessage>, turn: nat, from: nat)
    ensures var r := LastReply(ms, turn, from);
      && (r.Some? ==> from <= r.value < |ms| && !ms[r.value].isUser && ms[r.value].replyTo == Some(turn))
      && (r.None? ==> forall i :: from <= i < |ms| && !ms[i].isUser ==> ms[i].replyTo != Some(turn))
  {
    if |ms| > from {
      LastReplyFound(ms[..|ms| - 1], turn, from);
    }
  }

  /** The bounded search finds the awaiting message, if there is one. */
  lemma {:induction false} SearchFindsAwaiting(ms: seq<TurnMessage>, runs: nat)
    requires Talk(ms, runs)
    ensures var r := AwaitingMessage(ms);
      && (r.None? <==> NoneAwaits(ms))
      && (r.Some? ==>
            && LastAnswer(ms, r.value) && Awaits(ms[r.value].status) && ms[r.value].pending.Some?
            && ms[r.value].pending.value.turn == r.value - 1 && ms[r.value].pending.value.run < runs)
  {
    LastAwaitingFound(ms, Max(0, |ms| - 50));
    hide LastAwaiting;
    forall i | 0 <= i < |ms|
      ensures MessageOk(ms, i, runs)
    {
    }
  }

  /** A turn that awaits is found by its id, and only that one. */
  lemma {:induction false} TurnFindsAwaiting(ms: seq<TurnMessage>, runs: nat, turn: nat)
    requires Talk(ms, runs)
    ensures var r := AwaitingReply(ms, turn);
      && (r.Some? ==>
            && LastAnswer(ms, r.value) && Awaits(ms[r.value].status) && ms[r.value].pending.Some?
            && ms[r.value].pending.value.turn == turn == r.value - 1 && ms[r.value].pending.value.run < runs)
      && (r.None? ==> forall i :: 0 <= i < |ms| && Awaits(ms[i].status) ==> turn != i - 1)
  {
    LastReplyFound(ms, turn, Max(0, |ms| - 1000));
    hide LastReply;
    forall i | 0 <= i < |ms|
      ensures MessageOk(ms, i, runs)
    {
    }
  }

  // ---------------------------------------------------------------- what every step keeps

  ghost predicate TasksOk(w: World) {
    && (forall t <- w.live ::
          && w.table == Some(t) && t < w.nextTask && LastAnswer(w.messages, w.live[t].message)
          && (w.live[t].run.Some? ==> w.live[t].run.value < |w.runs|))
    && (w.live != map[] ==> NoneAwaits(w.messages))
  }

  /** The message shows `p`, unless a recovery pass has failed it meanwhile. */
  predicate ShowsOrFailed(m: TurnMessage, p: Pending) {
    m.pending == Some(p) || (m.pending.None? && m.status.Failed?)
  }

  ghost predicate PendingOk(w: World, i: nat, p: Pending) {
    LastAnswer(w.messages, i) && p.turn == i - 1 && p.run < |w.runs| && ShowsOrFailed(w.messages[i], p)
  }

  /** What the holder of the lock read from its message. */
  function HeldPending(l: Lock): Option<Pending> {
    match l
    case Responding(_, p) => Some(p)
    case Answered(_, p) => Some(p)
    case Reattaching(_, p) => Some(p)
    case Cancelling(_, p) => Some(p)
    case _ => None
  }

  /** While the lock is held no task lives, and the holder's message is the last one. */
  ghost predicate LockOk(w: World) {
    && (!w.lock.Free? ==> w.live == map[])
    && match w.lock
       case Free => true
       case SubmitReady => NoneAwaits(w.messages)
       case UserStored(u) =>
         NoneAwaits(w.messages) && |w.messages| > 0 && u == |w.messages| - 1 && w.messages[u].isUser
       case AssistantStored(a) => NoneAwaits(w.messages) && LastAnswer(w.messages, a)
       case Responding(i, p) => PendingOk(w, i, p)
       case Answered(i, p) => PendingOk(w, i, p)
       case Reattaching(i, p) => PendingOk(w, i, p)
       case Cancelling(i, p) => PendingOk(w, i, p)
       case RunCancelled(i) => LastAnswer(w.messages, i)
  }

  ghost predicate RecoveringOk(w: World) {
    forall i <- w.recovering :: i < |w.messages| && !w.messages[i].isUser
  }

  ghost predicate TurnsOk(w: World) {
    Talk(w.messages, |w.runs|) && TasksOk(w) && LockOk(w) && RecoveringOk(w)
  }

  lemma {:induction false} NoLiveTask(w: World)
    requires TurnsOk(w) && !HasLiveTask(w)
    ensures w.live == map[]
  {
    assert forall t <- w.live :: w.table == Some(t);
  }

  lemma {:induction false} ReleaseKeeps(w: World)
    requires TurnsOk(w)
    ensures TurnsOk(w.(lock := Free))
  {
    hide Talk, NoneAwaits;
  }

  /** A write to an answer that leaves it not awaiting. */
  lemma {:induction false} WriteKeeps(w: World, i: nat, status: Status)
    requires TurnsOk(w) && i < |w.messages| && !w.messages[i].isUser && !Awaits(status)
    requires HeldPending(w.lock).None? || status.Failed?
    ensures TurnsOk(Write(w, i, status, None))
    ensures i == |w.messages| - 1 ==> NoneAwaits(Write(w, i, status, None).messages)
  {
    WriteKeepsTalk(w.messages, |w.runs|, i, status, None);
    hide Talk, NoneAwaits;
  }

  lemma {:induction false} FollowKeeps(w: World, i: nat, run: nat)
    requires TurnsOk(w) && LastAnswer(w.messages, i) && run < |w.runs| && w.live == map[]
    ensures TurnsOk(Follow(w, i, run))
  {
    ReleaseKeeps(w);
    WriteKeeps(w.(lock := Free), i, Streaming);
    hide Talk, NoneAwaits;
  }

  lemma {:induction false} SettleKeeps(w: World, i: nat, r: TurnResult)
    requires TurnsOk(w) && i < |w.messages| && !w.messages[i].isUser && Ending(r)
    requires HeldPending(w.lock).None?
    ensures TurnsOk(Settle(w, i, r))
    ensures i == |w.messages| - 1 ==> NoneAwaits(Settle(w, i, r).messages)
  {
    WriteKeeps(w, i, StatusOf(r.outcome));
    hide Talk, NoneAwaits;
  }

  lemma {:induction false} SubmitKeeps(w: World, s: Step)
    requires TurnsOk(w) && Enabled(w, s)
    requires s.SubmitCheck? || s.SubmitUser? || s.SubmitAssistant? || s.SubmitSpawn?
    ensures TurnsOk(Do(w, s))
  {
    match s
    case SubmitCheck(ending) =>
      NoLiveTask(w);
      SearchFindsAwaiting(w.messages, |w.runs|);
      var r := AwaitingMessage(w.messages);
      if r.Some? {
        SettleKeeps(w, r.value, ending);
      }
      hide Talk, NoneAwaits;
    case SubmitUser =>
      AppendKeepsTalk(w.messages, |w.runs|, TurnMessage(true, Completed, None, None));
      hide Talk, NoneAwaits;
    case SubmitAssistant =>
      AppendKeepsTalk(w.messages, |w.runs|, TurnMessage(false, Accepted, Some(w.lock.user), None));
      hide Talk, NoneAwaits;
    case SubmitSpawn =>
      hide Talk, NoneAwaits;
  }

  lemma {:induction false} ResumeKeeps(w: World, outcome: ResumeOutcome, ending: TurnResult)
    requires TurnsOk(w) && Enabled(w, Resume(outcome, ending))
    ensures TurnsOk(Do(w, Resume(outcome, ending)))
  {
    ReleaseKeeps(w);
    SettleKeeps(w.(lock := Free), w.lock.message, ending);
    SettleKeeps(w.(lock := Free), w.lock.message, TurnResult(TurnExpired, None));
    hide Talk, NoneAwaits;
  }

  lemma {:induction false} RespondKeeps(w: World, s: Step)
    requires TurnsOk(w) && Enabled(w, s)
    requires s.RespondStart? || s.Resume? || s.RespondWrite? || s.Reconcile? || s.Reattach?
    ensures TurnsOk(Do(w, s))
  {
    match s
    case RespondStart(turn) =>
      NoLiveTask(w);
      TurnFindsAwaiting(w.messages, |w.runs|, turn);
      hide Talk, NoneAwaits;
    case Resume(outcome, ending) => ResumeKeeps(w, outcome, ending);
    case Reconcile(turn, ending) =>
      NoLiveTask(w);
      TurnFindsAwaiting(w.messages, |w.runs|, turn);
      var r := AwaitingReply(w.messages, turn);
      if r.Some? {
        SettleKeeps(w, r.value, ending);
      }
      hide Talk, NoneAwaits;
    case RespondWrite => FollowKeeps(w, w.lock.message, w.lock.pending.run);
    case Reattach => FollowKeeps(w, w.lock.message, w.lock.pending.run);
  }

  lemma {:induction false} CancelWriteKeeps(w: World)
    requires TurnsOk(w) && Enabled(w, CancelWrite)
    ensures TurnsOk(Do(w, CancelWrite))
  {
    WriteKeeps(w, w.lock.message, Cancelled);
    hide Talk, NoneAwaits;
  }

  lemma {:induction false} RecoverWriteKeeps(w: World, i: nat)
    requires TurnsOk(w) && Enabled(w, RecoverWrite(i))
    ensures TurnsOk(Do(w, RecoverWrite(i)))
  {
    WriteKeeps(w, i, Failed);
    hide Talk, NoneAwaits;
  }

  lemma {:induction false} CancelKeeps(w: World, s: Step)
    requires TurnsOk(w) && Enabled(w, s)
    requires s.CancelTask? || s.CancelStart? || s.CancelRun? || s.CancelWrite?
             || s.RecoverRead? || s.RecoverWrite? || s.Shutdown? || s.Crash?
    ensures TurnsOk(Do(w, s))
  {
    if s.CancelStart? {
      SearchFindsAwaiting(w.messages, |w.runs|);
      hide Talk;
    } else if s.CancelWrite? {
      CancelWriteKeeps(w);
    } else if s.RecoverWrite? {
      RecoverWriteKeeps(w, s.index);
    } else {
      SignalKeeps(w, s);
    }
  }

  lemma {:induction false} SignalKeeps(w: World, s: Step)
    requires TurnsOk(w) && Enabled(w, s)
    requires s.CancelTask? || s.CancelRun? || s.RecoverRead? || s.Shutdown? || s.Crash?
    ensures TurnsOk(Do(w, s))
  {
    hide Talk, NoneAwaits;
  }

  lemma {:induction false} FinishKeeps(w: World, t: nat, r: TurnResult)
    requires TurnsOk(w) && Enabled(w, TaskFinish(t, r))
    ensures TurnsOk(Do(w, TaskFinish(t, r)))
  {
    var i := w.live[t].message;
    WriteKeepsTalk(w.messages, |w.runs|, i, StatusOf(r.outcome), r.pending);
    OnlyLiveTask(w, t);
    hide Talk, NoneAwaits;
  }

  lemma {:induction false} OnlyLiveTask(w: World, t: nat)
    requires TurnsOk(w) && t in w.live
    ensures EndTask(w, t).live == map[] && w.lock.Free?
  {
  }

  /** A task that ends with a status it does not wait in. */
  lemma {:induction false} EndKeeps(w: World, t: nat, status: Status)
    requires TurnsOk(w) && t in w.live && !Awaits(status)
    ensures TurnsOk(EndTask(Write(w, w.live[t].message, status, None), t)) && TurnsOk(EndTask(w, t))
  {
    OnlyLiveTask(w, t);
    WriteKeeps(w, w.live[t].message, status);
    hide Talk, NoneAwaits;
  }

  lemma {:induction false} BeginKeeps(w: World, t: nat)
    requires TurnsOk(w) && Enabled(w, TaskBegin(t))
    ensures TurnsOk(Do(w, TaskBegin(t)))
  {
    OnlyLiveTask(w, t);
    WriteKeeps(w, w.live[t].message, Streaming);
    hide Talk, NoneAwaits;
  }

  lemma {:induction false} StartRunKeeps(w: World, t: nat)
    requires TurnsOk(w) && Enabled(w, TaskStartRun(t))
    ensures TurnsOk(Do(w, TaskStartRun(t)))
  {
    OnlyLiveTask(w, t);
    MoreRunsKeepTalk(w.messages, |w.runs|, |w.runs| + 1);
    hide Talk, NoneAwaits;
  }

  lemma {:induction false} TaskKeeps(w: World, s: Step)
    requires TurnsOk(w) && Enabled(w, s)
    requires s.TaskBegin? || s.TaskStartRun? || s.TaskFinish? || s.TaskFail? || s.TaskCancelled?
    ensures TurnsOk(Do(w, s))
  {
    match s
    case TaskBegin(t) => BeginKeeps(w, t);
    case TaskStartRun(t) => StartRunKeeps(w, t);
    case TaskFinish(t, r) => FinishKeeps(w, t, r);
    case TaskFail(t) =>
      EndKeeps(w, t, Failed);
      hide TurnsOk;
    case TaskCancelled(t) =>
      EndKeeps(w, t, Cancelled);
      hide TurnsOk;
  }

  lemma {:induction false} StepKeepsTurns(w: World, s: Step)
    requires TurnsOk(w) && Enabled(w, s)
    ensures TurnsOk(Do(w, s))
  {
    if s.SubmitCheck? || s.SubmitUser? || s.SubmitAssistant? || s.SubmitSpawn? {
      SubmitKeeps(w, s);
    } else if s.RespondStart? || s.Resume? || s.RespondWrite? || s.Reconcile? || s.Reattach? {
      RespondKeeps(w, s);
    } else if s.TaskBegin? || s.TaskStartRun? || s.TaskFinish? || s.TaskFail? || s.TaskCancelled? {
      TaskKeeps(w, s);
    } else if s.RunPauses? || s.RunEnds? || s.AnswerElsewhere? || s.RunHolds? || s.RunContinues? {
      hide Talk, NoneAwaits;
    } else {
      CancelKeeps(w, s);
    }
  }

  // ---------------------------------------------------------------- pauses and answers

  ghost predicate IsAnswered(answers: seq<Answer>, pause: nat) {
    exists k :: 0 <= k < |answers| && answers[k].pause == pause
  }

  /** No pause is answered twice. */
  ghost predicate AnsweredOnce(answers: seq<Answer>) {
    forall j, k :: 0 <= j < k < |answers| ==> answers[j].pause != answers[k].pause
  }

  /** Moreover none that still waits is answered, and no two runs wait at the same pause. */
  ghost predicate PausesOk(runs: seq<RunState>, answers: seq<Answer>, next: nat) {
    && AnsweredOnce(answers)
    && (forall k :: 0 <= k < |answers| ==> answers[k].pause < next)
    && (forall r :: 0 <= r < |runs| && runs[r].Paused? ==>
          runs[r].pause < next && !IsAnswered(answers, runs[r].pause))
    && (forall r, q :: 0 <= r < q < |runs| && runs[r].Paused? && runs[q].Paused? ==>
          runs[r].pause != runs[q].pause)
  }

  lemma {:induction false} AnswerKeepsPauses(
    runs: seq<RunState>, answers: seq<Answer>, next: nat, run: nat, shown: Option<nat>, after: RunState)
    requires PausesOk(runs, answers, next) && run < |runs| && runs[run].Paused? && !after.Paused?
    ensures PausesOk(runs[run := after], answers + [Answer(runs[run].pause, shown)], next)
  {
    var p := runs[run].pause;
    var answers' := answers + [Answer(p, shown)];
    assert !IsAnswered(answers, p);
    forall r | 0 <= r < |runs| && runs[r].Paused? && r != run
      ensures !IsAnswered(answers', runs[r].pause)
    {
      assert !IsAnswered(answers, runs[r].pause);
    }
  }

  lemma {:induction false} PauseKeepsPauses(
    runs: seq<RunState>, answers: seq<Answer>, next: nat, run: nat, kind: Kind)
    requires PausesOk(runs, answers, next) && run < |runs|
    ensures PausesOk(runs[run := Paused(next, kind)], answers, next + 1)
  {
    assert !IsAnswered(answers, next);
  }

  lemma {:induction false} EndKeepsPauses(
    runs: seq<RunState>, answers: seq<Answer>, next: nat, run: nat, after: RunState, next': nat)
    requires PausesOk(runs, answers, next) && run < |runs| && !after.Paused? && next <= next'
    ensures PausesOk(runs[run := after], answers, next')
  {
  }

  lemma {:induction false} StartKeepsPauses(runs: seq<RunState>, answers: seq<Answer>, next: nat)
    requires PausesOk(runs, answers, next)
    ensures PausesOk(runs + [Running], answers, next)
  {
  }

  lemma {:induction false} StepKeepsPauses(w: World, s: Step)
    requires PausesOk(w.runs, w.answers, w.nextPause) && Enabled(w, s)
    ensures var w' := Do(w, s); PausesOk(w'.runs, w'.answers, w'.nextPause)
  {
    hide PausesOk;
    match s
    case Resume(outcome, _) =>
      if outcome.Continues? || outcome.Rejected? {
        var p := w.lock.pending;
        AnswerKeepsPauses(w.runs, w.answers, w.nextPause, p.run, Some(p.pause),
                          if outcome.Continues? then Running else Ended);
      }
    case AnswerElsewhere(r) => AnswerKeepsPauses(w.runs, w.answers, w.nextPause, r, None, Running);
    case RunPauses(r, kind) => PauseKeepsPauses(w.runs, w.answers, w.nextPause, r, kind);
    case RunEnds(r) => EndKeepsPauses(w.runs, w.answers, w.nextPause, r, Ended, w.nextPause);
    case RunHolds(r) => EndKeepsPauses(w.runs, w.answers, w.nextPause, r, Held(w.nextPause), w.nextPause + 1);
    case RunContinues(r) => EndKeepsPauses(w.runs, w.answers, w.nextPause, r, Running, w.nextPause);
    case CancelRun(effective) =>
      if effective && w.lock.pending.run < |w.runs| {
        EndKeepsPauses(w.runs, w.answers, w.nextPause, w.lock.pending.run, Ended, w.nextPause);
      }
    case TaskStartRun(_) => StartKeepsPauses(w.runs, w.answers, w.nextPause);
    case _ =>
  }

  /** What is shown or held are pauses of the past. */
  ghost predicate NumbersOk(w: World) {
    && (forall i :: 0 <= i < |w.messages| && w.messages[i].pending.Some? ==>
          w.messages[i].pending.value.pause < w.nextPause)
    && (HeldPending(w.lock).Some? ==> HeldPending(w.lock).value.pause < w.nextPause)
    && (forall r :: 0 <= r < |w.runs| && w.runs[r].Held? ==> w.runs[r].pause < w.nextPause)
  }

  lemma {:induction false} CallKeepsNumbers(w: World, s: Step)
    requires TurnsOk(w) && NumbersOk(w) && Enabled(w, s)
    requires s.SubmitCheck? || s.CancelStart? || s.RespondStart? || s.Reconcile?
    ensures NumbersOk(Do(w, s))
  {
    SearchFindsAwaiting(w.messages, |w.runs|);
    if s.RespondStart? || s.Reconcile? {
      TurnFindsAwaiting(w.messages, |w.runs|, s.turn);
    }
    hide TurnsOk, Talk, AwaitingMessage, AwaitingReply, NoneAwaits;
  }

  lemma {:induction false} FinishKeepsNumbers(w: World, t: nat, r: TurnResult)
    requires PausesOk(w.runs, w.answers, w.nextPause) && NumbersOk(w) && Enabled(w, TaskFinish(t, r))
    ensures NumbersOk(Do(w, TaskFinish(t, r)))
  {
    var run := w.live[t].run.value;
    assert w.runs[run].Paused? || w.runs[run].Held? ==> w.runs[run].pause < w.nextPause;
    hide PausesOk;
  }

  lemma {:induction false} TaskKeepsNumbers(w: World, s: Step)
    requires NumbersOk(w) && Enabled(w, s)
    requires s.TaskBegin? || s.TaskStartRun? || s.TaskFail? || s.TaskCancelled?
    ensures NumbersOk(Do(w, s))
  {
    if s.TaskStartRun? {
      assert Do(w, s).runs == w.runs + [Running];
    } else {
      var i := w.live[s.task].message;
      assert Do(w, s).messages == w.messages || Do(w, s).messages[i].pending.None?;
      assert Do(w, s).runs == w.runs;
    }
    hide Do, Enabled;
  }

  lemma {:induction false} RunKeepsNumbers(w: World, s: Step)
    requires NumbersOk(w) && Enabled(w, s)
    requires s.RunPauses? || s.RunEnds? || s.AnswerElsewhere? || s.RunHolds? || s.RunContinues?
    ensures NumbersOk(Do(w, s))
  {
    var w' := Do(w, s);
    assert w'.messages == w.messages && w'.lock == w.lock && w.nextPause <= w'.nextPause;
    assert forall r :: 0 <= r < |w'.runs| && w'.runs[r].Held? ==>
      w'.runs[r] == w.runs[r] || w'.runs[r].pause < w'.nextPause;
    hide Do, Enabled;
  }

  lemma {:induction false} HolderKeepsNumbers(w: World, s: Step)
    requires NumbersOk(w) && Enabled(w, s)
    requires s.SubmitUser? || s.SubmitAssistant? || s.SubmitSpawn? || s.RespondWrite? || s.Reattach?
             || s.CancelRun? || s.CancelWrite?
    ensures NumbersOk(Do(w, s))
  {
  }

  lemma {:induction false} ResumeKeepsNumbers(w: World, outcome: ResumeOutcome, ending: TurnResult)
    requires NumbersOk(w) && Enabled(w, Resume(outcome, ending))
    ensures NumbersOk(Do(w, Resume(outcome, ending)))
  {
  }

  lemma {:induction false} OtherKeepsNumbers(w: World, s: Step)
    requires NumbersOk(w) && Enabled(w, s)
    requires s.CancelTask? || s.RecoverRead? || s.RecoverWrite? || s.Shutdown? || s.Crash?
    ensures NumbersOk(Do(w, s))
  {
  }

  lemma {:induction false} StepKeepsNumbers(w: World, s: Step)
    requires Inv(w) && Enabled(w, s)
    ensures NumbersOk(Do(w, s))
  {
    hide TurnsOk, PausesOk, NumbersOk, Do, Enabled;
    if s.SubmitCheck? || s.CancelStart? || s.RespondStart? || s.Reconcile? {
      CallKeepsNumbers(w, s);
    } else if s.TaskFinish? {
      FinishKeepsNumbers(w, s.task, s.result);
    } else if s.TaskBegin? || s.TaskStartRun? || s.TaskFail? || s.TaskCancelled? {
      TaskKeepsNumbers(w, s);
    } else if s.RunPauses? || s.RunEnds? || s.AnswerElsewhere? || s.RunHolds? || s.RunContinues? {
      RunKeepsNumbers(w, s);
    } else if s.CancelTask? || s.RecoverRead? || s.RecoverWrite? || s.Shutdown? || s.Crash? {
      OtherKeepsNumbers(w, s);
    } else if s.Resume? {
      ResumeKeepsNumbers(w, s.outcome, s.ending);
    } else {
      HolderKeepsNumbers(w, s);
    }
  }

  // ---------------------------------------------------------------- whole runs

  ghost predicate Possible(w: World, steps: seq<Step>)
    decreases |steps|
  {
    steps == [] || (Enabled(w, steps[0]) && Possible(Do(w, steps[0]), steps[1..]))
  }

  ghost function After(w: World, steps: seq<Step>): World
    requires Possible(w, steps)
    decreases |steps|
  {
    if steps == [] then w else After(Do(w, steps[0]), steps[1..])
  }

  lemma {:induction false} RunAppends(w: World, a: seq<Step>, b: seq<Step>)
    requires Possible(w, a) && Possible(After(w, a), b)
    ensures Possible(w, a + b) && After(w, a + b) == After(After(w, a), b)
    decreases |a|
  {
    hide Do, Enabled;
    if a == [] {
      assert a + b == b;
    } else {
      assert (a + b)[1..] == a[1..] + b;
      RunAppends(Do(w, a[0]), a[1..], b);
    }
  }

  ghost predicate Inv(w: World) {
    TurnsOk(w) && PausesOk(w.runs, w.answers, w.nextPause) && NumbersOk(w)
  }

  lemma {:induction false} StepKeepsInv(w: World, s: Step)
    requires Inv(w) && Enabled(w, s)
    ensures Inv(Do(w, s))
  {
    StepKeepsTurns(w, s);
    StepKeepsPauses(w, s);
    StepKeepsNumbers(w, s);
    hide TurnsOk, PausesOk, NumbersOk, Do, Enabled;
  }

  lemma {:induction false} RunKeepsInv(w: World, steps: seq<Step>)
    requires Inv(w) && Possible(w, steps)
    ensures Inv(After(w, steps))
    decreases |steps|
  {
    if steps != [] {
      hide Inv, Do, Enabled;
      StepKeepsInv(w, steps[0]);
      RunKeepsInv(Do(w, steps[0]), steps[1..]);
    }
  }

  lemma {:induction false} PausesAnsweredOnce(w: World)
    ensures PausesOk(w.runs, w.answers, w.nextPause) ==> AnsweredOnce(w.answers)
  {
  }

  /** In every reachable state: a message has something pending exactly when it awaits, an
      awaiting message is an answer and the last message, at most one task lives and it is the
      registered one, and none lives while a message awaits. No pause was answered twice; that is what
      the runtime's resume guarantees, which is one step here. */
  lemma {:induction false} TurnProtocol(steps: seq<Step>)
    requires Possible(Begin(), steps)
    ensures var w := After(Begin(), steps);
      && (forall i :: 0 <= i < |w.messages| ==> (w.messages[i].pending.Some? <==> Awaits(w.messages[i].status)))
      && (forall i :: 0 <= i < |w.messages| && Awaits(w.messages[i].status) ==>
            i == |w.messages| - 1 && !w.messages[i].isUser)
      && (forall t <- w.live :: w.table == Some(t))
      && (w.live != map[] ==> NoneAwaits(w.messages))
      && AnsweredOnce(w.answers)
  {
    RunKeepsInv(Begin(), steps);
    var w := After(Begin(), steps);
    hide After, Possible, PausesOk, NumbersOk;
    assert PausesOk(w.runs, w.answers, w.nextPause) ==> AnsweredOnce(w.answers) by { PausesAnsweredOnce(w); }
    assert forall i :: 0 <= i < |w.messages| ==> MessageOk(w.messages, i, |w.runs|);
  }

  // ---------------------------------------------------------------- a crash after the answer

  /** Reconciling a turn that awaits answers nothing: a run that was resumed is followed, one that
      ended settles the turn, and one that is paused or held is left, at a pause nobody has answered. */
  lemma {:induction false} ReconcileNeverAnswers(w: World, i: nat, ending: TurnResult)
    requires Inv(w) && w.lock.Free? && !HasLiveTask(w) && Ending(ending)
    requires i < |w.messages| && Awaits(w.messages[i].status)
    ensures i > 0 && w.messages[i].pending.Some? && w.messages[i].pending.value.run < |w.runs|
    ensures var run := w.messages[i].pending.value.run;
      var r := Do(w, Reconcile(i - 1, ending));
      match w.runs[run]
      case Paused(p, _) => r == w && !IsAnswered(w.answers, p)
      case Held(_) => r == w
      case Ended => r == w.(messages := w.messages[i := Stored(w.messages[i], ending)])
      case Running => r == w.(lock := Reattaching(i, w.messages[i].pending.value))
  {
    assert MessageOk(w.messages, i, |w.runs|);
    TurnFindsAwaiting(w.messages, |w.runs|, i - 1);
    hide Talk, AwaitingReply, NoneAwaits;
  }

  lemma {:induction false} HeldTurn(w: World)
    requires TurnsOk(w) && w.lock.Answered?
    ensures var i, p := w.lock.message, w.lock.pending;
      && p.turn == i - 1 && p.run < |w.runs| && i < |w.messages| && ShowsOrFailed(w.messages[i], p)
      && (Awaits(w.messages[i].status) <==> w.messages[i].pending.Some?)
      && (w.messages[i].pending.None? ==> NoneAwaits(w.messages))
  {
    assert MessageOk(w.messages, w.lock.message, |w.runs|);
  }

  lemma {:induction false} CrashForgets(w: World)
    requires Inv(w)
    ensures var c := Do(w, Crash);
      && Inv(c) && c.lock.Free? && c.live == map[] && !HasLiveTask(c)
      && c.messages == w.messages && c.answers == w.answers && c.runs == w.runs && c.nextTask == w.nextTask
  {
    hide Inv;
    StepKeepsInv(w, Crash);
  }

  lemma {:induction false} ReattachFollows(w: World)
    requires w.lock.Reattaching? && w.lock.message < |w.messages| && w.live == map[]
    ensures var i, f := w.lock.message, Do(w, Reattach);
      && f.answers == w.answers
      && f.messages == w.messages[i := w.messages[i].(status := Streaming, pending := None)]
      && f.table == Some(w.nextTask)
      && f.live == map[w.nextTask := Task(i, Some(w.lock.pending.run), true, false, false)]
  {
  }

  lemma {:induction false} NothingToReconcile(w: World, turn: nat, ending: TurnResult)
    requires TurnsOk(w) && NoneAwaits(w.messages) && Enabled(w, Reconcile(turn, ending))
    ensures Do(w, Reconcile(turn, ending)) == w
  {
    TurnFindsAwaiting(w.messages, |w.runs|, turn);
    hide Talk, AwaitingReply;
  }

  /** A crash between an answer and its message's update, while the run runs on: either a recovery
      pass has failed the message, and reconciling leaves that, or the message still shows the
      answered pause, and reconciling follows the run again. Neither answers. */
  lemma {:induction false} CrashedAnswerIsFollowed(w: World, c: World, r: World, ending: TurnResult)
    requires Inv(w) && w.lock.Answered? && Ending(ending) && c == Do(w, Crash)
    requires StateOf(w.runs, w.lock.pending.run).Running?
    ensures Enabled(c, Reconcile(w.lock.pending.turn, ending)) && w.lock.message < |w.messages|
    ensures r == Do(c, Reconcile(w.lock.pending.turn, ending)) ==>
      var i := w.lock.message;
      if w.messages[i].pending.None? then w.messages[i].status.Failed? && r == c
      else
        && w.messages[i].pending == Some(w.lock.pending) && Enabled(r, Reattach)
        && var f := Do(r, Reattach);
           && f.answers == w.answers
           && f.messages == w.messages[i := w.messages[i].(status := Streaming, pending := None)]
           && f.table == Some(w.nextTask)
           && f.live == map[w.nextTask := Task(i, Some(w.lock.pending.run), true, false, false)]
  {
    var i := w.lock.message;
    HeldTurn(w);
    CrashForgets(w);
    hide TurnsOk, PausesOk, NumbersOk, Do;
    if w.messages[i].pending.None? {
      NothingToReconcile(c, w.lock.pending.turn, ending);
    } else {
      ReconcileNeverAnswers(c, i, ending);
      if r == Do(c, Reconcile(w.lock.pending.turn, ending)) {
        ReattachFollows(r);
      }
    }
  }

  // ---------------------------------------------------------------- finished turns

  /** The message of the lock's holder, if it has one. */
  function HeldMessage(l: Lock): Option<nat> {
    match l
    case Free => None
    case SubmitReady => None
    case UserStored(_) => None
    case AssistantStored(a) => Some(a)
    case Responding(i, _) => Some(i)
    case Answered(i, _) => Some(i)
    case Reattaching(i, _) => Some(i)
    case Cancelling(i, _) => Some(i)
    case RunCancelled(i) => Some(i)
  }

  /** A finished message nobody is about to write: no task, no lock holder, no recovery pass. */
  ghost predicate AtRest(w: World, i: nat) {
    && i < |w.messages| && !Awaits(w.messages[i].status) && !Interrupted(w.messages[i])
    && i !in w.recovering && HeldMessage(w.lock) != Some(i)
    && (forall t <- w.live :: w.live[t].message != i)
  }

  ghost predicate StaysAtRest(w: World, w': World, i: nat) {
    AtRest(w, i) && AtRest(w', i) && w'.messages[i] == w.messages[i]
  }

  lemma {:induction false} CallKeepsRest(w: World, s: Step, i: nat)
    requires Inv(w) && AtRest(w, i) && Enabled(w, s)
    requires s.SubmitCheck? || s.CancelStart? || s.RespondStart? || s.Reconcile?
    ensures StaysAtRest(w, Do(w, s), i)
  {
    SearchFindsAwaiting(w.messages, |w.runs|);
    if s.RespondStart? || s.Reconcile? {
      TurnFindsAwaiting(w.messages, |w.runs|, s.turn);
    }
    hide Inv, AwaitingMessage, AwaitingReply, TurnsOk, Talk, NoneAwaits;
  }

  lemma {:induction false} HolderKeepsRest(w: World, s: Step, i: nat)
    requires AtRest(w, i) && Enabled(w, s)
    requires s.SubmitUser? || s.SubmitAssistant? || s.SubmitSpawn? || s.Resume? || s.RespondWrite?
             || s.CancelRun? || s.CancelWrite? || s.Reattach?
    ensures StaysAtRest(w, Do(w, s), i)
  {
  }

  lemma {:induction false} TaskKeepsRest(w: World, s: Step, i: nat)
    requires AtRest(w, i) && Enabled(w, s)
    requires s.TaskBegin? || s.TaskStartRun? || s.TaskFinish? || s.TaskFail? || s.TaskCancelled?
    ensures StaysAtRest(w, Do(w, s), i)
  {
  }

  lemma {:induction false} RunKeepsRest(w: World, s: Step, i: nat)
    requires AtRest(w, i) && Enabled(w, s)
    requires s.RunPauses? || s.RunEnds? || s.AnswerElsewhere? || s.RunHolds? || s.RunContinues?
    ensures StaysAtRest(w, Do(w, s), i)
  {
    hide AtRest, StaysAtRest;
    SameRest(w, Do(w, s), i);
  }

  lemma {:induction false} SameRest(w: World, w': World, i: nat)
    requires AtRest(w, i) && w'.messages == w.messages && w'.lock == w.lock
    requires w'.recovering == w.recovering && w'.live == w.live
    ensures StaysAtRest(w, w', i)
  {
  }

  lemma {:induction false} OtherKeepsRest(w: World, s: Step, i: nat)
    requires AtRest(w, i) && Enabled(w, s)
    requires s.CancelTask? || s.RecoverRead? || s.RecoverWrite? || s.Shutdown? || s.Crash?
    ensures StaysAtRest(w, Do(w, s), i)
  {
  }

  lemma {:induction false} StepKeepsRest(w: World, s: Step, i: nat)
    requires Inv(w) && AtRest(w, i) && Enabled(w, s)
    ensures AtRest(Do(w, s), i) && Do(w, s).messages[i] == w.messages[i]
  {
    hide Inv, Do, Enabled;
    if s.SubmitCheck? || s.CancelStart? || s.RespondStart? || s.Reconcile? {
      CallKeepsRest(w, s, i);
    } else if s.CancelTask? || s.RecoverRead? || s.RecoverWrite? || s.Shutdown? || s.Crash? {
      OtherKeepsRest(w, s, i);
    } else if s.TaskBegin? || s.TaskStartRun? || s.TaskFinish? || s.TaskFail? || s.TaskCancelled? {
      TaskKeepsRest(w, s, i);
    } else if s.RunPauses? || s.RunEnds? || s.AnswerElsewhere? || s.RunHolds? || s.RunContinues? {
      RunKeepsRest(w, s, i);
    } else {
      HolderKeepsRest(w, s, i);
    }
  }

  /** A finished message that nobody is about to write never changes again. */
  lemma {:induction false} FinishedTurnsStay(w: World, steps: seq<Step>, i: nat)
    requires Inv(w) && AtRest(w, i) && Possible(w, steps)
    ensures AtRest(After(w, steps), i) && After(w, steps).messages[i] == w.messages[i]
    decreases |steps|
  {
    if steps != [] {
      hide Inv, Do, Enabled;
      StepKeepsInv(w, steps[0]);
      StepKeepsRest(w, steps[0], i);
      FinishedTurnsStay(Do(w, steps[0]), steps[1..], i);
    }
  }
}
