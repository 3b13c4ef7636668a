/** Whole runs of a compacting agent: messages are said, prefixes are summarized, archived and
    possibly dropped. What every reachable state keeps. */
module ContextRuns {
  import opened Messages
  import opened Grouping
  import opened History
  import opened Compaction
  import TurnMemory

  /** `log` is every message ever said; `chain` lists the archives, newest first. */
  datatype World = World(
    state: Snapshot, log: seq<Message>, artifacts: map<string, Payload>, chain: seq<string>)

  datatype Event =
    | Say(message: Message)
    | Compact(pendingTools: bool, tokens: nat, summary: string, archiveId: string, archive: bool)

  function Start(log: seq<Message>): World {
    World(Initial(log), log, map[], [])
  }

  predicate HasPlan(s: Snapshot, p: Settings, e: Event) {
    && e.Compact?
    && s.offset <= Cursor(s)
    && var a := Assess(s, p, e.pendingTools, e.tokens);
    a.Ok? && a.value.plan.Some?
  }

  function PlanOf(s: Snapshot, p: Settings, e: Event): Plan
    requires HasPlan(s, p, e)
  {
    Assess(s, p, e.pendingTools, e.tokens).value.plan.value
  }

  function Committed(s: Snapshot, p: Settings, e: Event): Snapshot
    requires HasPlan(s, p, e)
  {
    s.(compaction := Some(History.Compaction(PlanOf(s, p, e).through, e.summary, e.archiveId)))
  }

  /** The runtime appends a result only after its call, and archive ids are fresh. */
  predicate Enabled(w: World, p: Settings, e: Event) {
    match e
    case Say(m) => MessageGroups(w.log + [m]).Ok?
    case Compact(_, _, _, id, _) =>
      && id != "" && id !in w.artifacts
      && HasPlan(w.state, p, e)
  }

  function Next(w: World, p: Settings, e: Event): World
    requires Enabled(w, p, e)
  {
    match e
    case Say(m) => w.(state := Appended(w.state, m), log := w.log + [m])
    case Compact(_, _, _, id, archive) =>
      var s := Committed(w.state, p, e);
      World(if archive && Archive(s).Ok? then Archive(s).value else s, w.log,
            w.artifacts[id := PlanOf(w.state, p, e).archive], [id] + w.chain)
  }

  ghost predicate Runs(w: World, p: Settings, events: seq<Event>)
    decreases |events|
  {
    events == [] ||
    (Enabled(w, p, events[0]) && Runs(Next(w, p, events[0]), p, events[1..]))
  }

  ghost function After(w: World, p: Settings, events: seq<Event>): World
    requires Runs(w, p, events)
    decreases |events|
  {
    if events == [] then w else After(Next(w, p, events[0]), p, events[1..])
  }

  // ---------------------------------------------------------------- invariant

  /** The retained history is the log from the offset on. */
  ghost predicate Retains(w: World) {
    && w.state.history.Some?
    && w.state.offset <= Cursor(w.state) <= |w.log|
    && w.state.history.value == w.log[w.state.offset..]
    && (w.state.compaction.None? ==> w.state.offset == 0)
  }

  /** The cursor lies after `k` groups, all finished, with the newest groups beyond it. */
  ghost predicate OnBoundary(gs: seq<Group>, cursor: nat, keepRecent: nat, k: nat) {
    && k <= |gs|
    && (forall j :: 0 <= j < |gs| ==> |gs[j]| > 0)
    && cursor == |Flatten(gs[..k])|
    && (forall j :: 0 <= j < k ==> !Unfinished(gs[j]))
    && (k > 0 ==> k + keepRecent <= |gs|)
  }

  ghost predicate NeverCuts(w: World, keepRecent: nat) {
    && MessageGroups(w.log).Ok?
    && exists k: nat :: OnBoundary(MessageGroups(w.log).value, Cursor(w.state), keepRecent, k)
  }

  function UserCount(ms: seq<Message>): nat {
    if ms == [] then 0 else (if ms[0].role == User then 1 else 0) + UserCount(ms[1..])
  }

  /** What the `RunState` validator demands of the pinned messages. */
  ghost predicate PinsValid(s: Snapshot) {
    && (forall m :: m in s.pinned ==> m.role == System || m.role == User)
    && UserCount(s.pinned) <= 1
    && (s.offset == 0 ==> s.pinned == [])
  }

  /** The archives lead back from `through` to the start of the log. */
  ghost predicate Chain(
    artifacts: map<string, Payload>, id: Option<string>, through: nat, log: seq<Message>, ids: seq<string>)
    decreases |ids|
  {
    if ids == [] then id == None && through == 0
    else
      && id == Some(ids[0]) && ids[0] != "" && ids[0] in artifacts
      && ids[0] !in ids[1..]
      && var a := artifacts[ids[0]];
      && a.start < a.through == through <= |log|
      && a.messages == log[a.start..a.through]
      && Chain(artifacts, a.previous, a.start, log, ids[1..])
  }

  ghost predicate Invariant(w: World, keepRecent: nat) {
    && Retains(w)
    && NeverCuts(w, keepRecent)
    && PinsValid(w.state)
    && Chain(w.artifacts, PreviousArchive(w.state), Cursor(w.state), w.log, w.chain)
  }

  // ---------------------------------------------------------------- steps

  lemma {:induction false} GroupsAfterBoundary(log: seq<Message>, gs: seq<Group>, k: nat)
    requires MessageGroups(log) == Ok(gs) && k <= |gs|
    ensures |Flatten(gs[..k])| <= |log|
    ensures MessageGroups(log[|Flatten(gs[..k])|..]) == Ok(gs[k..])
  {
    hide MessageGroups, Flatten, WellGrouped;
    GroupingSound(log);
    FlattenPrefix(gs, k);
    GroupingComplete(gs[k..]);
  }

  lemma {:induction false} ChainMonotone(
    artifacts: map<string, Payload>, id: Option<string>, through: nat, log: seq<Message>, ids: seq<string>,
    artifacts': map<string, Payload>, log': seq<Message>)
    requires Chain(artifacts, id, through, log, ids)
    requires log <= log'
    requires forall k :: k in artifacts ==> k in artifacts' && artifacts'[k] == artifacts[k]
    ensures Chain(artifacts', id, through, log', ids)
    ensures forall k :: k in ids ==> k in artifacts
    decreases |ids|
  {
    if ids != [] {
      var a := artifacts[ids[0]];
      assert log'[a.start..a.through] == log[a.start..a.through];
      ChainMonotone(artifacts, a.previous, a.start, log, ids[1..], artifacts', log');
    }
  }

  lemma {:induction false} SayKeepsBoundary(log: seq<Message>, m: Message, cursor: nat, keepRecent: nat, k: nat)
    requires keepRecent >= 1
    requires MessageGroups(log).Ok? && MessageGroups(log + [m]).Ok?
    requires OnBoundary(MessageGroups(log).value, cursor, keepRecent, k)
    ensures OnBoundary(MessageGroups(log + [m]).value, cursor, keepRecent, k)
  {
    var gs, gs' := MessageGroups(log).value, MessageGroups(log + [m]).value;
    assert (log + [m])[..|log|] == log;
    assert AddMessage(gs, m) == Ok(gs');
    hide MessageGroups, Flatten, Unfinished;
    if m.role == Tool {
      assert forall j :: 0 <= j < k ==> gs'[j] == gs[j];
      assert gs'[..k] == gs[..k];
    } else {
      assert gs'[..k] == gs[..k];
    }
  }

  lemma {:induction false} SayKeepsInvariant(w: World, p: Settings, e: Event)
    requires p.keepRecent >= 1 && Invariant(w, p.keepRecent) && e.Say? && Enabled(w, p, e)
    ensures Invariant(Next(w, p, e), p.keepRecent)
  {
    var m, w' := e.message, Next(w, p, e);
    ChainMonotone(w.artifacts, PreviousArchive(w.state), Cursor(w.state), w.log, w.chain,
                  w'.artifacts, w'.log);
    var k: nat :| OnBoundary(MessageGroups(w.log).value, Cursor(w.state), p.keepRecent, k);
    SayKeepsBoundary(w.log, m, Cursor(w.state), p.keepRecent, k);
    assert w'.log[w.state.offset..] == w.log[w.state.offset..] + [m];
  }

  lemma {:induction false} RetainedAfterCursor(w: World)
    requires Retains(w)
    ensures AfterCursor(w.state) == w.log[Cursor(w.state)..]
  {
    SplitLog(w.log, w.state.offset, Cursor(w.state));
  }

  /** Where the committed plan puts the cursor. */
  lemma {:induction false} CommitKeepsBoundary(w: World, p: Settings, e: Event)
    requires p.keepRecent >= 1 && Retains(w) && NeverCuts(w, p.keepRecent) && HasPlan(w.state, p, e)
    ensures var plan := PlanOf(w.state, p, e);
      && Cursor(w.state) == plan.start < plan.through <= |w.log|
      && plan.archive == Payload(plan.start, plan.through, PreviousArchive(w.state),
                                 w.log[plan.start..plan.through])
      && exists k: nat :: k > 0 && OnBoundary(MessageGroups(w.log).value, plan.through, p.keepRecent, k)
  {
    hide MessageGroups, Flatten, Unfinished, Assess, AfterCursor;
    var gs, c, plan := MessageGroups(w.log).value, Cursor(w.state), PlanOf(w.state, p, e);
    var k: nat :| OnBoundary(gs, c, p.keepRecent, k);
    GroupsAfterBoundary(w.log, gs, k);
    RetainedAfterCursor(w);
    var hs, count := PlanEndsOnBoundary(w.state, p, e.pendingTools, e.tokens);
    assert hs == gs[k..];
    var taken := Flatten(hs[..count]);
    assert taken == w.log[c..][..|taken|] == w.log[c..c + |taken|];
    assert gs[..k + count] == gs[..k] + hs[..count];
    FlattenAppend(gs[..k], hs[..count]);
    forall j | 0 <= j < k + count
      ensures !Unfinished(gs[j])
    {
      if j >= k {
        assert gs[j] == hs[j - k];
      }
    }
    assert OnBoundary(gs, plan.through, p.keepRecent, k + count);
  }

  lemma {:induction false} UserCountAppend(a: seq<Message>, b: seq<Message>)
    ensures UserCount(a + b) == UserCount(a) + UserCount(b)
  {
    if a == [] {
      assert a + b == b;
    } else {
      assert (a + b)[1..] == a[1..] + b;
      UserCountAppend(a[1..], b);
    }
  }

  lemma {:induction false} NoUsers(ms: seq<Message>)
    requires forall m :: m in ms ==> m.role == System
    ensures UserCount(ms) == 0
  {
    if ms != [] {
      NoUsers(ms[1..]);
    }
  }

  lemma {:induction false} PinsHoldOneUser(earlier: seq<Message>, tail: seq<Message>)
    ensures UserCount(Pins(earlier, tail)) <= 1
    ensures forall m :: m in Pins(earlier, tail) ==> m.role == System || m.role == User
  {
    hide SystemOnly, LatestGenuine;
    SystemOnlyIdempotent(earlier);
    NoUsers(SystemOnly(earlier));
    var request := if HasUser(tail) then []
                   else match LatestGenuine(earlier) case None => [] case Some(m) => [m];
    UserCountAppend(SystemOnly(earlier), request);
    PinsFacts(earlier, tail);
  }

  /** Dropping the archived prefix, when asked for, changes neither the log nor the cursor. */
  lemma {:induction false} ArchiveKeepsRetained(s: Snapshot, log: seq<Message>)
    requires s.history.Some? && s.compaction.Some?
    requires s.offset <= Cursor(s) <= |log| && s.history.value == log[s.offset..]
    requires Cursor(s) > 0
    ensures Archive(s).Ok?
    ensures var a := Archive(s).value;
      && a.history == Some(log[Cursor(s)..])
      && a.offset == Cursor(s) == Cursor(a)
      && a.compaction == s.compaction
      && PinsValid(a)
  {
    hide Pins, ProjectHistory, SummaryMessage;
    SplitLog(log, s.offset, Cursor(s));
    var t := Cursor(s) - s.offset;
    var earlier, tail := s.pinned + s.history.value[..t], s.history.value[t..];
    ViewOf(s);
    PinsHoldOneUser(earlier, tail);
    assert Archive(s).value.pinned == Pins(earlier, tail);
  }

  lemma {:induction false} CompactKeepsInvariant(w: World, p: Settings, e: Event)
    requires p.keepRecent >= 1 && Invariant(w, p.keepRecent) && e.Compact? && Enabled(w, p, e)
    ensures Invariant(Next(w, p, e), p.keepRecent)
    ensures Cursor(Next(w, p, e).state) > Cursor(w.state)
  {
    hide MessageGroups, Assess, Archive, OnBoundary;
    CommitKeepsBoundary(w, p, e);
    var w', plan, id := Next(w, p, e), PlanOf(w.state, p, e), e.archiveId;
    var s := Committed(w.state, p, e);
    if e.archive {
      ArchiveKeepsRetained(s, w.log);
    }
    ChainMonotone(w.artifacts, PreviousArchive(w.state), Cursor(w.state), w.log, w.chain,
                  w'.artifacts, w'.log);
    assert w'.chain[1..] == w.chain;
    assert Chain(w'.artifacts, Some(id), plan.through, w.log, w'.chain);
  }

  lemma {:induction false} RunKeepsInvariant(w: World, p: Settings, events: seq<Event>)
    requires p.keepRecent >= 1 && Invariant(w, p.keepRecent) && Runs(w, p, events)
    ensures Invariant(After(w, p, events), p.keepRecent)
    decreases |events|
  {
    hide Invariant, Enabled, Next;
    if events != [] {
      if events[0].Say? {
        SayKeepsInvariant(w, p, events[0]);
      } else {
        CompactKeepsInvariant(w, p, events[0]);
      }
      RunKeepsInvariant(Next(w, p, events[0]), p, events[1..]);
    }
  }

  lemma {:induction false} StartIsInvariant(log: seq<Message>, keepRecent: nat)
    requires MessageGroups(log).Ok?
    ensures Invariant(Start(log), keepRecent)
  {
    var w, gs := Start(log), MessageGroups(log).value;
    assert log[0..] == log;
    assert gs[..0] == [];
    assert forall j :: 0 <= j < |gs| ==> gs[j] in gs;
    assert OnBoundary(gs, 0, keepRecent, 0);
  }

  // ---------------------------------------------------------------- theorems

  function Singletons(ms: seq<Message>): seq<Group> {
    seq(|ms|, i requires 0 <= i < |ms| => [ms[i]])
  }

  lemma {:induction false} SingletonGroups(ms: seq<Message>)
    requires forall m :: m in ms ==> m.role != Tool
    ensures MessageGroups(ms) == Ok(Singletons(ms))
  {
    if ms != [] {
      SingletonGroups(ms[..|ms| - 1]);
      assert ms[|ms| - 1] in ms;
      assert Singletons(ms) == Singletons(ms[..|ms| - 1]) + [[ms[|ms| - 1]]];
    }
  }

  /** In every reachable state the cursor lies on a group boundary, everything before it is made
      of finished exchanges, and the newest `keepRecent` groups are after it. */
  lemma {:induction false} CompactionNeverCutsExchanges(log: seq<Message>, p: Settings, events: seq<Event>)
    returns (k: nat)
    requires p.keepRecent >= 1 && MessageGroups(log).Ok? && Runs(Start(log), p, events)
    ensures var w := After(Start(log), p, events);
      && MessageGroups(w.log).Ok?
      && OnBoundary(MessageGroups(w.log).value, Cursor(w.state), p.keepRecent, k)
      && (w.state.compaction.Some? <==> k > 0)
      && PinsValid(w.state)
  {
    StartIsInvariant(log, p.keepRecent);
    RunKeepsInvariant(Start(log), p, events);
    var w := After(Start(log), p, events);
    k :| OnBoundary(MessageGroups(w.log).value, Cursor(w.state), p.keepRecent, k);
    CursorCountsGroups(w, p.keepRecent, k);
  }

  lemma {:induction false} CursorCountsGroups(w: World, keepRecent: nat, k: nat)
    requires Invariant(w, keepRecent)
    requires OnBoundary(MessageGroups(w.log).value, Cursor(w.state), keepRecent, k)
    ensures w.state.compaction.Some? <==> k > 0
  {
    hide MessageGroups;
    var gs := MessageGroups(w.log).value;
    if k > 0 {
      NonEmptyFlatten(gs[..k]);
    } else {
      assert gs[..0] == [];
    }
  }

  /** The active view of every reachable state groups: pinned messages and the summary stand
      alone, and the tail keeps the log's own groups. */
  lemma {:induction false} ProjectedViewGroups(log: seq<Message>, p: Settings, events: seq<Event>)
    returns (k: nat, pins: seq<Message>)
    requires p.keepRecent >= 1 && MessageGroups(log).Ok? && Runs(Start(log), p, events)
    ensures var w := After(Start(log), p, events);
      && ProjectHistory(w.state).Ok?
      && MessageGroups(w.log).Ok? && k <= |MessageGroups(w.log).value|
      && MessageGroups(ProjectHistory(w.state).value) == Ok(
           (if w.state.compaction.None? then []
            else Singletons(pins) + [[SummaryMessage(w.state.compaction.value)]])
           + MessageGroups(w.log).value[k..])
  {
    hide After, MessageGroups, Singletons, ProjectHistory, SummaryMessage, Unfinished, Invariant;
    k := CompactionNeverCutsExchanges(log, p, events);
    StartIsInvariant(log, p.keepRecent);
    RunKeepsInvariant(Start(log), p, events);
    var w := After(Start(log), p, events);
    pins := ViewGroups(w, p.keepRecent, k);
  }

  lemma {:induction false} ViewGroups(w: World, keepRecent: nat, k: nat) returns (pins: seq<Message>)
    requires Invariant(w, keepRecent)
    requires OnBoundary(MessageGroups(w.log).value, Cursor(w.state), keepRecent, k)
    ensures ProjectHistory(w.state).Ok?
    ensures MessageGroups(ProjectHistory(w.state).value) == Ok(
           (if w.state.compaction.None? then []
            else Singletons(pins) + [[SummaryMessage(w.state.compaction.value)]])
           + MessageGroups(w.log).value[k..])
  {
    hide MessageGroups, Singletons, ProjectHistory, SummaryMessage, Unfinished, Chain, PinsValid;
    CursorCountsGroups(w, keepRecent, k);
    if w.state.compaction.None? {
      pins := [];
      var gs := MessageGroups(w.log).value;
      assert k == 0;
      UncompactedView(w);
      assert [] + gs[0..] == gs;
    } else {
      pins := CompactedView(w, MessageGroups(w.log).value, k);
    }
  }

  lemma {:induction false} UncompactedView(w: World)
    requires Retains(w) && w.state.compaction.None?
    ensures ProjectHistory(w.state) == Ok(w.log)
  {
    hide Pins;
    assert w.log[0..] == w.log;
  }

  lemma {:induction false} CompactedView(w: World, gs: seq<Group>, k: nat) returns (pins: seq<Message>)
    requires Retains(w) && w.state.compaction.Some?
    requires MessageGroups(w.log) == Ok(gs) && k <= |gs| && Cursor(w.state) == |Flatten(gs[..k])|
    ensures ProjectHistory(w.state).Ok?
    ensures MessageGroups(ProjectHistory(w.state).value) ==
      Ok(Singletons(pins) + [[SummaryMessage(w.state.compaction.value)]] + gs[k..])
  {
    hide MessageGroups, Singletons, ProjectHistory, SummaryMessage, Pins, Flatten, UserCount;
    var s := w.state;
    GroupsAfterBoundary(w.log, gs, k);
    ViewOf(s);
    SplitLog(w.log, s.offset, Cursor(s));
    var t := Cursor(s) - s.offset;
    var earlier, tail := s.pinned + s.history.value[..t], s.history.value[t..];
    pins := Pins(earlier, tail);
    PinsHoldOneUser(earlier, tail);
    SummaryIsPlain(s.compaction.value);
    ThreeParts(pins, SummaryMessage(s.compaction.value), tail, gs[k..]);
  }

  lemma {:induction false} ThreeParts(pins: seq<Message>, summary: Message, tail: seq<Message>, groups: seq<Group>)
    requires forall m :: m in pins ==> m.role != Tool
    requires summary.role != Tool
    requires MessageGroups(tail) == Ok(groups)
    ensures MessageGroups(pins + [summary] + tail) == Ok(Singletons(pins) + [[summary]] + groups)
  {
    hide MessageGroups, Singletons;
    SingletonGroups(pins);
    TurnMemory.OneGroup(summary);
    GroupsConcatenate(pins, [summary]);
    GroupsConcatenate(pins + [summary], tail);
  }

  /** Hence assessing a reachable state never fails on a split exchange. */
  lemma {:induction false} AssessmentNeverConflicts(
    log: seq<Message>, p: Settings, events: seq<Event>, pendingTools: bool, tokens: nat)
    requires p.keepRecent >= 1 && MessageGroups(log).Ok? && Runs(Start(log), p, events)
    ensures var s := After(Start(log), p, events).state;
      s.offset <= Cursor(s) && Assess(s, p, pendingTools, tokens).Ok?
  {
    hide MessageGroups, Scan, Flatten, Unfinished, After, Chain;
    StartIsInvariant(log, p.keepRecent);
    RunKeepsInvariant(Start(log), p, events);
    var w := After(Start(log), p, events);
    var k: nat :| OnBoundary(MessageGroups(w.log).value, Cursor(w.state), p.keepRecent, k);
    GroupsAfterBoundary(w.log, MessageGroups(w.log).value, k);
    RetainedAfterCursor(w);
  }

  lemma {:induction false} SummaryIsPlain(c: History.Compaction)
    ensures SummaryMessage(c).role == Assistant
  {
  }

  // ---------------------------------------------------------------- archiving on or off

  function NeverArchive(e: Event): Event {
    if e.Compact? then e.(archive := false) else e
  }

  /** The same run with and without dropping archived prefixes. */
  ghost predicate Twins(w: World, full: World) {
    && Trims(w.state, full.state)
    && full.state.history == Some(full.log)
    && w.log == full.log && w.artifacts == full.artifacts && w.chain == full.chain
  }

  ghost predicate ArchivesSafely(w: World, p: Settings, e: Event) {
    && Enabled(w, p, e)
    && (e.Compact? && e.archive ==> SafeToArchive(Committed(w.state, p, e)))
  }

  lemma {:induction false} CommitInLog(s: Snapshot, r: Snapshot, p: Settings, e: Event)
    requires p.keepRecent >= 1 && Trims(s, r) && HasPlan(s, p, e)
    ensures HasPlan(r, p, e) && PlanOf(r, p, e) == PlanOf(s, p, e)
    ensures Cursor(s) < PlanOf(s, p, e).through <= |r.history.value|
    ensures Trims(Committed(s, p, e), Committed(r, p, e))
  {
    hide MessageGroups, SystemOnly, LatestGenuine, Flatten, NonSystem, Unfinished, Scan;
    AssessmentIgnoresTrim(s, r, p, e.pendingTools, e.tokens);
    var groups, count := PlanEndsOnBoundary(s, p, e.pendingTools, e.tokens);
    SplitLog(r.history.value, s.offset, Cursor(s));
  }

  lemma {:induction false} TwinsStep(w: World, full: World, p: Settings, e: Event)
    requires p.keepRecent >= 1 && Twins(w, full) && ArchivesSafely(w, p, e)
    ensures Enabled(full, p, NeverArchive(e))
    ensures Twins(Next(w, p, e), Next(full, p, NeverArchive(e)))
  {
    hide Trims, MessageGroups, Assess, Archive, SafeToArchive;
    if e.Say? {
      StatesHaveHistory(w.state, full.state);
      PlainStepKeepsTrims(w.state, full.state, Append(e.message));
    } else {
      var e' := NeverArchive(e);
      CommitInLog(w.state, full.state, p, e);
      SamePlan(full.state, p, e);
      var s, r := Committed(w.state, p, e), Committed(full.state, p, e);
      assert r == Committed(full.state, p, e');
      if e.archive {
        ArchivableState(s, r);
        ArchiveKeepsTrims(s, r);
      }
    }
  }

  lemma {:induction false} SamePlan(r: Snapshot, p: Settings, e: Event)
    requires HasPlan(r, p, e)
    ensures HasPlan(r, p, NeverArchive(e)) && PlanOf(r, p, NeverArchive(e)) == PlanOf(r, p, e)
  {
    hide Assess;
  }

  lemma {:induction false} StatesHaveHistory(s: Snapshot, r: Snapshot)
    requires Trims(s, r)
    ensures s.history.Some? && r.history.Some?
  {
    hide SystemOnly, LatestGenuine;
  }

  lemma {:induction false} ArchivableState(s: Snapshot, r: Snapshot)
    requires Trims(s, r) && s.compaction.Some?
    ensures History.Valid(s, ArchivePrefix) && Archive(s).Ok?
  {
    hide SystemOnly, LatestGenuine, Pins, SummaryMessage, ProjectHistory;
    ViewOf(s);
  }

  ghost predicate RunsSafely(w: World, p: Settings, events: seq<Event>)
    decreases |events|
  {
    events == [] ||
    (ArchivesSafely(w, p, events[0]) && RunsSafely(Next(w, p, events[0]), p, events[1..]))
  }

  /** Turning the dropping of archived prefixes on changes nothing the model sees: the same
      events are possible, with the same plans, archives and active view, as long as each
      archive step is safe. */
  lemma {:induction false} ArchivePolicyIsInvisible(
    w: World, full: World, p: Settings, events: seq<Event>) returns (plain: seq<Event>)
    requires p.keepRecent >= 1 && Twins(w, full) && RunsSafely(w, p, events)
    ensures |plain| == |events|
    ensures forall i :: 0 <= i < |events| ==> plain[i] == NeverArchive(events[i])
    ensures Runs(w, p, events) && Runs(full, p, plain)
    ensures var a, b := After(w, p, events), After(full, p, plain);
      && Twins(a, b)
      && ProjectHistory(a.state).Ok?
      && ProjectHistory(a.state) == ProjectHistory(b.state)
    decreases |events|
  {
    hide Next, Enabled, Trims, ProjectHistory;
    if events == [] {
      plain := [];
      TrimmedViewsAgree(w.state, full.state);
    } else {
      TwinsStep(w, full, p, events[0]);
      var rest := ArchivePolicyIsInvisible(
        Next(w, p, events[0]), Next(full, p, NeverArchive(events[0])), p, events[1..]);
      plain := [NeverArchive(events[0])] + rest;
      assert plain[1..] == rest;
    }
  }

  lemma {:induction false} StartIsItsOwnTwin(log: seq<Message>)
    ensures Twins(Start(log), Start(log))
  {
    assert log[0..] == log && log[..0] == [];
  }

  /** In particular from the start of a run: dropping archived prefixes on the way, safely, ends with
      the log, the archives and the active view of the run that never drops anything. */
  lemma {:induction false} ArchivingFromStartIsInvisible(log: seq<Message>, p: Settings, events: seq<Event>)
    returns (plain: seq<Event>)
    requires p.keepRecent >= 1 && RunsSafely(Start(log), p, events)
    ensures |plain| == |events| && forall i :: 0 <= i < |events| ==> plain[i] == NeverArchive(events[i])
    ensures Runs(Start(log), p, events) && Runs(Start(log), p, plain)
    ensures var a, b := After(Start(log), p, events), After(Start(log), p, plain);
      && b.state.history == Some(b.log) && a.log == b.log && a.artifacts == b.artifacts && a.chain == b.chain
      && ProjectHistory(a.state).Ok? && ProjectHistory(a.state) == ProjectHistory(b.state)
  {
    StartIsItsOwnTwin(log);
    hide Start, Runs, RunsSafely, After, ProjectHistory, Trims;
    plain := ArchivePolicyIsInvisible(Start(log), Start(log), p, events);
  }
}
