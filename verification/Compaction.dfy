/** Choosing a prefix of the history to summarize: `assess_compaction`. */
module Compaction {
  import opened Messages
  import opened Grouping
  import opened History

  /** The archive text, as the data it carries. */
  datatype Payload = Payload(
    start: nat, through: nat, previous: Option<string>, messages: seq<Message>)

  datatype Plan = Plan(start: nat, through: nat, source: seq<Message>, archive: Payload)

  datatype Reason =
    | Disabled | HistoryUninitialized | PendingTools | BelowTrigger | RecentGroupsOnly
    | NoSource | IncompleteToolGroup | InputLimit | Ready

  datatype Assessment = Assessment(reason: Reason, plan: Option<Plan>)

  /** `tokens` is the estimated context size; `requestTokens` estimates the summary request for
      a previous summary and a source. */
  datatype Settings = Settings(
    enabled: bool, keepRecent: nat, trigger: nat, inputLimit: nat,
    requestTokens: (Option<string>, seq<Message>) -> nat)

  function NonSystem(ms: seq<Message>): seq<Message> {
    if ms == [] then []
    else (if ms[0].role != System then [ms[0]] else []) + NonSystem(ms[1..])
  }

  /** A tool exchange that still misses a result. */
  predicate Unfinished(g: Group)
    requires |g| > 0
  {
    g[0].toolCalls != [] && CallIds(g[0]) != ResultIds(g[1..])
  }

  /** The groups that may be compacted: all but the newest `keepRecent`. */
  function Eligible(groups: seq<Group>, keepRecent: nat): seq<Group> {
    if keepRecent <= |groups| then groups[..|groups| - keepRecent] else []
  }

  /** The scan over eligible groups: how many are selected in the end, and why it stopped. */
  function Scan(p: Settings, previous: Option<string>, eligible: seq<Group>, i: nat, best: nat)
    : (r: (nat, Reason))
    requires forall g :: g in eligible ==> |g| > 0
    requires best <= i <= |eligible|
    ensures best <= r.0 <= |eligible|
    decreases |eligible| - i
  {
    if i == |eligible| then (best, NoSource)
    else if Unfinished(eligible[i]) then (best, IncompleteToolGroup)
    else
      var source := NonSystem(Flatten(eligible[..i + 1]));
      if source == [] then Scan(p, previous, eligible, i + 1, best)
      else if p.requestTokens(previous, source) > p.inputLimit then (best, InputLimit)
      else Scan(p, previous, eligible, i + 1, i + 1)
  }

  /** The plan that covers `taken`, the messages right after the cursor. */
  function PlanAt(start: nat, previous: Option<string>, taken: seq<Message>): Plan {
    Plan(start, start + |taken|, NonSystem(taken),
         Payload(start, start + |taken|, previous, taken))
  }

  function PreviousArchive(s: Snapshot): Option<string> {
    if s.compaction.Some? then Some(s.compaction.value.archiveId) else None
  }

  function PreviousSummary(s: Snapshot): Option<string> {
    if s.compaction.Some? then Some(s.compaction.value.summary) else None
  }

  /** The messages after the cursor; nothing when the cursor is past the end. */
  function AfterCursor(s: Snapshot): seq<Message>
    requires s.history.Some? && s.offset <= Cursor(s)
  {
    var t := Cursor(s) - s.offset;
    if t <= |s.history.value| then s.history.value[t..] else []
  }

  function Assess(s: Snapshot, p: Settings, pendingTools: bool, tokens: nat)
    : Result<Assessment, ContextError>
    requires s.offset <= Cursor(s)
  {
    if !p.enabled then Ok(Assessment(Disabled, None))
    else if s.history.None? then Ok(Assessment(HistoryUninitialized, None))
    else if pendingTools then Ok(Assessment(PendingTools, None))
    else if tokens <= p.trigger then Ok(Assessment(BelowTrigger, None))
    else
      match MessageGroups(AfterCursor(s))
      case Err(e) => Err(e)
      case Ok(groups) =>
        var eligible := Eligible(groups, p.keepRecent);
        if eligible == [] then Ok(Assessment(RecentGroupsOnly, None))
        else
          var (count, reason) := Scan(p, PreviousSummary(s), eligible, 0, 0);
          if count > 0 then
            Ok(Assessment(Ready, Some(PlanAt(Cursor(s), PreviousArchive(s), Flatten(eligible[..count])))))
          else Ok(Assessment(reason, None))
  }

  method FilterNonSystem(ms: seq<Message>) returns (kept: seq<Message>)
    ensures kept == NonSystem(ms)
  {
    kept := [];
    for i := 0 to |ms|
      invariant kept + NonSystem(ms[i..]) == NonSystem(ms)
    {
      assert ms[i..][1..] == ms[i + 1..];
      if ms[i].role != System {
        kept := kept + [ms[i]];
      }
    }
  }

  /** The loop of `assess_compaction`: `end` advances group by group, and the slice of the
      history up to it is the candidate. */
  method SelectPrefix(p: Settings, summary: Option<string>, archive: Option<string>, start: nat,
                      after: seq<Message>, eligible: seq<Group>)
    returns (selected: Option<Plan>, reason: Reason)
    requires forall g :: g in eligible ==> |g| > 0
    requires Flatten(eligible) <= after
    ensures var (count, why) := Scan(p, summary, eligible, 0, 0);
      if count == 0 then selected == None && reason == why
      else selected == Some(PlanAt(start, archive, Flatten(eligible[..count])))
  {
    hide NonSystem, Flatten, Scan, Unfinished;
    var end := start;
    selected, reason := None, NoSource;
    ghost var best := 0;
    FlattenPrefix(eligible, 0);
    for i := 0 to |eligible|
      invariant best <= i
      invariant end == start + |Flatten(eligible[..i])|
      invariant selected == if best == 0 then None
                            else Some(PlanAt(start, archive, Flatten(eligible[..best])))
      invariant reason == NoSource
      invariant Scan(p, summary, eligible, 0, 0) == Scan(p, summary, eligible, i, best)
    {
      var group := eligible[i];
      ScanStep(p, summary, eligible, i, best);
      if Unfinished(group) {
        reason := IncompleteToolGroup;
        return;
      }
      end := end + |group|;
      FlattenPrefix(eligible, i + 1);
      var taken := after[..end - start];
      var source := FilterNonSystem(taken);
      assert taken == Flatten(eligible[..i + 1]);
      if source == [] {
        continue;
      }
      if p.requestTokens(summary, source) > p.inputLimit {
        reason := InputLimit;
        return;
      }
      selected := Some(Plan(start, end, source, Payload(start, end, archive, taken)));
      best := i + 1;
    }
    ScanStep(p, summary, eligible, |eligible|, best);
  }

  lemma {:induction false} ScanStep(p: Settings, previous: Option<string>, eligible: seq<Group>, i: nat, best: nat)
    requires forall g :: g in eligible ==> |g| > 0
    requires best <= i <= |eligible|
    ensures i == |eligible| ==> Scan(p, previous, eligible, i, best) == (best, NoSource)
    ensures i < |eligible| ==>
      var source := NonSystem(Flatten(eligible[..i + 1]));
      Scan(p, previous, eligible, i, best) ==
        if Unfinished(eligible[i]) then (best, IncompleteToolGroup)
        else if source == [] then Scan(p, previous, eligible, i + 1, best)
        else if p.requestTokens(previous, source) > p.inputLimit then (best, InputLimit)
        else Scan(p, previous, eligible, i + 1, i + 1)
  {
    hide NonSystem, Flatten, Unfinished;
  }

  /** `assess_compaction` as the source runs it. */
  method AssessCompaction(s: Snapshot, p: Settings, pendingTools: bool, tokens: nat)
    returns (r: Result<Assessment, ContextError>)
    requires s.offset <= Cursor(s)
    requires p.keepRecent >= 1
    ensures r == Assess(s, p, pendingTools, tokens)
    ensures Decides(s, p, pendingTools, tokens, r)
  {
    AssessmentDecides(s, p, pendingTools, tokens);
    hide Decides;
    hide NonSystem, Flatten, MessageGroups, Scan, PlanAt, AfterCursor;
    if !p.enabled { return Ok(Assessment(Disabled, None)); }
    if s.history.None? { return Ok(Assessment(HistoryUninitialized, None)); }
    if pendingTools { return Ok(Assessment(PendingTools, None)); }
    if tokens <= p.trigger { return Ok(Assessment(BelowTrigger, None)); }
    var after := AfterCursor(s);
    var grouped := GroupMessages(after);
    if grouped.Err? { return Err(grouped.error); }
    var groups := grouped.value;
    var eligible := Eligible(groups, p.keepRecent);
    if eligible == [] { return Ok(Assessment(RecentGroupsOnly, None)); }
    GroupingSound(after);
    FlattenPrefix(groups, |eligible|);
    var selected, reason :=
      SelectPrefix(p, PreviousSummary(s), PreviousArchive(s), Cursor(s), after, eligible);
    r := Ok(Assessment(if selected.Some? then Ready else reason, selected));
  }

  /** Flattening the first groups gives a prefix, longer by each group. */
  lemma {:induction false} FlattenPrefix(groups: seq<Group>, i: nat)
    requires i <= |groups|
    ensures |Flatten(groups[..i])| <= |Flatten(groups)|
    ensures Flatten(groups[..i]) == Flatten(groups)[..|Flatten(groups[..i])|]
    ensures Flatten(groups[i..]) == Flatten(groups)[|Flatten(groups[..i])|..]
    ensures i == 0 ==> Flatten(groups[..i]) == []
    ensures i > 0 ==> |Flatten(groups[..i])| == |Flatten(groups[..i - 1])| + |groups[i - 1]|
  {
    assert groups == groups[..i] + groups[i..];
    FlattenAppend(groups[..i], groups[i..]);
    if i > 0 {
      assert groups[..i] == groups[..i - 1] + [groups[i - 1]];
      FlattenSnoc(groups[..i - 1], groups[i - 1]);
    }
  }

  // ---------------------------------------------------------------- what the assessment decides

  /** The source of a request is the messages without the system ones, in order. */
  lemma {:induction false} NonSystemFacts(a: seq<Message>, b: seq<Message>, m: Message)
    ensures NonSystem(a + b) == NonSystem(a) + NonSystem(b)
    ensures NonSystem([m]) == if m.role == System then [] else [m]
  {
    assert [m][1..] == [];
    if a == [] {
      assert a + b == b;
    } else {
      assert (a + b)[1..] == a[1..] + b;
      NonSystemFacts(a[1..], b, m);
    }
  }

  lemma {:induction false} SourceIsEmpty(a: seq<Message>)
    ensures NonSystem(a) == [] <==> forall m <- a :: m.role == System
  {
    if a != [] {
      SourceIsEmpty(a[1..]);
      assert forall m :: m in a <==> m == a[0] || m in a[1..];
    }
  }

  /** Every call of the group has a result in it. */
  ghost predicate AllAnswered(g: Group)
    requires |g| > 0
  {
    forall call <- g[0].toolCalls :: exists m :: m in g[1..] && m.toolCallId == Some(call.id)
  }

  lemma {:induction false} FinishedMeansAnswered(g: Group)
    requires WellGrouped(g)
    ensures Unfinished(g) <==> !AllAnswered(g)
  {
    if AllAnswered(g) {
      forall m | m in g[1..]
        ensures m.toolCallId in CallIds(g[0])
      {
        var i :| 0 <= i < |g[1..]| && g[1..][i] == m;
        assert g[i + 1] == m;
      }
      assert CallIds(g[0]) == ResultIds(g[1..]);
    } else {
      var call :| call in g[0].toolCalls && forall m :: m in g[1..] ==> m.toolCallId != Some(call.id);
      assert Some(call.id) in CallIds(g[0]) && Some(call.id) !in ResultIds(g[1..]);
    }
  }

  ghost predicate HasSource(groups: seq<Group>, k: nat)
    requires k <= |groups|
  {
    exists m :: m in Flatten(groups[..k]) && m.role != System
  }

  /** The request for the first `k` groups, if they hold something to summarize, is small enough. */
  ghost predicate FitsRequest(p: Settings, summary: Option<string>, groups: seq<Group>, k: nat)
    requires k <= |groups|
  {
    HasSource(groups, k) ==> p.requestTokens(summary, NonSystem(Flatten(groups[..k]))) <= p.inputLimit
  }

  /** The scan can pass the first `k` groups: finished exchanges, and every request up to there fits. */
  ghost predicate Passable(p: Settings, summary: Option<string>, groups: seq<Group>, k: nat)
    requires forall g <- groups :: |g| > 0
  {
    && k <= |groups|
    && (forall j :: 0 <= j < k ==> AllAnswered(groups[j]))
    && (forall j :: 0 <= j <= k ==> FitsRequest(p, summary, groups, j))
  }

  /** The first `k` groups may be summarized: some message in them, and older than the newest ones. */
  ghost predicate Coverable(p: Settings, summary: Option<string>, groups: seq<Group>, k: nat)
    requires forall g <- groups :: |g| > 0
  {
    k + p.keepRecent <= |groups| && Passable(p, summary, groups, k) && HasSource(groups, k)
  }

  /** The plan covers the longest run of groups that may be summarized, and nothing else. */
  ghost predicate CoversLongest(s: Snapshot, p: Settings, groups: seq<Group>, plan: Plan)
    requires forall g <- groups :: |g| > 0
  {
    exists k: nat :: Coverable(p, PreviousSummary(s), groups, k)
      && (forall j: nat :: Coverable(p, PreviousSummary(s), groups, j) ==> j <= k)
      && var taken := Flatten(groups[..k]);
         && plan.start == plan.archive.start == Cursor(s)
         && plan.through == plan.archive.through == Cursor(s) + |taken|
         && plan.archive.messages == taken && plan.source == NonSystem(taken)
         && plan.archive.previous == PreviousArchive(s)
  }

  /** Why nothing is planned although it is due: the first group that cannot be passed. */
  ghost predicate StoppedBy(p: Settings, summary: Option<string>, groups: seq<Group>, reason: Reason)
    requires forall g <- groups :: |g| > 0
  {
    var n := |groups| - p.keepRecent;
    match reason
    case RecentGroupsOnly => n <= 0
    case NoSource => n > 0 && Passable(p, summary, groups, n) && !HasSource(groups, n)
    case IncompleteToolGroup =>
      exists k :: 0 <= k < n && Passable(p, summary, groups, k) && !HasSource(groups, k) && !AllAnswered(groups[k])
    case InputLimit =>
      exists k :: 0 <= k < n && Passable(p, summary, groups, k) && !HasSource(groups, k)
        && AllAnswered(groups[k]) && !FitsRequest(p, summary, groups, k + 1)
    case _ => false
  }

  /** Compaction is switched on, there is a history, nothing is under way and the context is too big. */
  predicate Due(s: Snapshot, p: Settings, pendingTools: bool, tokens: nat) {
    p.enabled && s.history.Some? && !pendingTools && tokens > p.trigger
  }

  /** What the answer says about the state: why compaction is not due, or which groups it covers. */
  ghost predicate Decides(
    s: Snapshot, p: Settings, pendingTools: bool, tokens: nat, r: Result<Assessment, ContextError>)
    requires s.offset <= Cursor(s)
  {
    && (r == Ok(Assessment(Disabled, None)) <==> !p.enabled)
    && (r == Ok(Assessment(HistoryUninitialized, None)) <==> p.enabled && s.history.None?)
    && (r == Ok(Assessment(PendingTools, None)) <==> p.enabled && s.history.Some? && pendingTools)
    && (r == Ok(Assessment(BelowTrigger, None)) <==>
          p.enabled && s.history.Some? && !pendingTools && tokens <= p.trigger)
    && (r.Ok? && (r.value.reason == Ready || r.value.plan.Some?) ==> Due(s, p, pendingTools, tokens))
    && (Due(s, p, pendingTools, tokens) ==>
          match MessageGroups(AfterCursor(s))
          case Err(e) => r == Err(e)
          case Ok(groups) => r.Ok? && Selects(s, p, groups, r.value))
  }

  /** There is a plan exactly if some groups may be summarized, and it covers as many as possible. */
  ghost predicate Selects(s: Snapshot, p: Settings, groups: seq<Group>, a: Assessment)
    requires forall g <- groups :: |g| > 0
  {
    && (a.plan.Some? <==> exists k: nat :: Coverable(p, PreviousSummary(s), groups, k))
    && (a.plan.Some? ==> a.reason == Ready && CoversLongest(s, p, groups, a.plan.value))
    && (a.plan.None? ==> StoppedBy(p, PreviousSummary(s), groups, a.reason))
  }

  lemma {:induction false} SourceGrows(groups: seq<Group>, j: nat, k: nat)
    requires j <= k <= |groups| && HasSource(groups, j)
    ensures HasSource(groups, k)
  {
    var m :| m in Flatten(groups[..j]) && m.role != System;
    assert groups[..k] == groups[..j] + groups[j..k];
    FlattenAppend(groups[..j], groups[j..k]);
    hide Flatten;
  }

  lemma {:induction false} SourceExists(groups: seq<Group>, k: nat)
    requires k <= |groups|
    ensures NonSystem(Flatten(groups[..k])) != [] <==> HasSource(groups, k)
  {
    SourceIsEmpty(Flatten(groups[..k]));
    hide Flatten, NonSystem;
  }

  lemma {:induction false} PassOne(p: Settings, summary: Option<string>, groups: seq<Group>, i: nat)
    requires (forall g <- groups :: |g| > 0) && i < |groups| && Passable(p, summary, groups, i)
    ensures Passable(p, summary, groups, i + 1) <==>
              AllAnswered(groups[i]) && FitsRequest(p, summary, groups, i + 1)
  {
    hide AllAnswered, FitsRequest;
  }

  /** Whatever can be passed beyond `i` includes the group at `i`. */
  lemma {:induction false} PassesThrough(p: Settings, summary: Option<string>, groups: seq<Group>, i: nat)
    requires (forall g <- groups :: |g| > 0) && i < |groups|
    requires !AllAnswered(groups[i]) || !FitsRequest(p, summary, groups, i + 1)
    ensures forall j: nat :: Passable(p, summary, groups, j) ==> j <= i
  {
    hide AllAnswered, FitsRequest;
  }

  /** What the scan over the first `n` groups finds. */
  ghost predicate Found(
    p: Settings, summary: Option<string>, groups: seq<Group>, n: nat, count: nat, reason: Reason)
    requires (forall g <- groups :: |g| > 0) && n <= |groups|
  {
    && (forall j: nat :: j <= n && Passable(p, summary, groups, j) && HasSource(groups, j) ==> j <= count)
    && (if count > 0
        then count <= n && Passable(p, summary, groups, count) && HasSource(groups, count)
        else match reason
             case NoSource => Passable(p, summary, groups, n) && !HasSource(groups, n)
             case IncompleteToolGroup =>
               exists k :: 0 <= k < n && Passable(p, summary, groups, k) && !HasSource(groups, k)
                 && !AllAnswered(groups[k])
             case InputLimit =>
               exists k :: 0 <= k < n && Passable(p, summary, groups, k) && !HasSource(groups, k)
                 && AllAnswered(groups[k]) && !FitsRequest(p, summary, groups, k + 1)
             case _ => false)
  }

  lemma {:induction false} ScanFinds(
    p: Settings, summary: Option<string>, groups: seq<Group>, n: nat, i: nat, best: nat)
    requires AllWellGrouped(groups) && (forall g <- groups :: |g| > 0) && i <= n <= |groups|
    requires Passable(p, summary, groups, i) && best == if HasSource(groups, i) then i else 0
    ensures forall g <- groups[..n] :: |g| > 0
    ensures var (count, reason) := Scan(p, summary, groups[..n], i, best);
      Found(p, summary, groups, n, count, reason)
    decreases n - i
  {
    hide Flatten, NonSystem, Scan, Unfinished, Passable, HasSource, AllAnswered, WellGrouped;
    var eligible := groups[..n];
    NothingIsPassable(p, summary, groups);
    ScanStep(p, summary, eligible, i, best);
    forall j: nat | j <= i && HasSource(groups, j)
      ensures j <= best
    {
      SourceGrows(groups, j, i);
    }
    if i < n {
      var source := NonSystem(Flatten(eligible[..i + 1]));
      assert eligible[..i + 1] == groups[..i + 1] && eligible[i] == groups[i];
      SourceExists(groups, i + 1);
      FinishedMeansAnswered(groups[i]);
      PassOne(p, summary, groups, i);
      if HasSource(groups, i) {
        SourceGrows(groups, i, i + 1);
      }
      if Unfinished(groups[i]) || (source != [] && p.requestTokens(summary, source) > p.inputLimit) {
        PassesThrough(p, summary, groups, i);
      } else {
        ScanFinds(p, summary, groups, n, i + 1, if source == [] then best else i + 1);
      }
    }
  }

  /** What an assessment makes of the scan over the groups that may be compacted. */
  lemma {:induction false} FoundSelects(
    s: Snapshot, p: Settings, groups: seq<Group>, n: nat, count: nat, reason: Reason)
    requires (forall g <- groups :: |g| > 0) && n > 0 && n + p.keepRecent == |groups|
    requires Found(p, PreviousSummary(s), groups, n, count, reason)
    ensures count <= n
    ensures Selects(s, p, groups,
              if count > 0
              then Assessment(Ready, Some(PlanAt(Cursor(s), PreviousArchive(s), Flatten(groups[..count]))))
              else Assessment(reason, None))
    ensures count == 0 ==> reason.NoSource? || reason.IncompleteToolGroup? || reason.InputLimit?
  {
    hide Flatten, NonSystem, Passable, HasSource, AllAnswered, FitsRequest;
    if count > 0 {
      assert Coverable(p, PreviousSummary(s), groups, count);
    } else {
      NothingIsPassable(p, PreviousSummary(s), groups);
    }
  }

  lemma {:induction false} RecentOnlySelects(s: Snapshot, p: Settings, groups: seq<Group>)
    requires (forall g <- groups :: |g| > 0) && |groups| <= p.keepRecent
    ensures Selects(s, p, groups, Assessment(RecentGroupsOnly, None))
  {
    NothingIsPassable(p, PreviousSummary(s), groups);
    hide Flatten, NonSystem, Passable, HasSource;
  }

  /** Whatever the assessment answers is what its inputs call for. */
  lemma {:induction false} AssessmentDecides(s: Snapshot, p: Settings, pendingTools: bool, tokens: nat)
    requires s.offset <= Cursor(s)
    ensures Decides(s, p, pendingTools, tokens, Assess(s, p, pendingTools, tokens))
  {
    hide Flatten, NonSystem, Scan, AfterCursor, MessageGroups, PlanAt;
    hide Selects, Found, AllWellGrouped, Passable, HasSource;
    if Due(s, p, pendingTools, tokens) && MessageGroups(AfterCursor(s)).Ok? {
      var groups, summary := MessageGroups(AfterCursor(s)).value, PreviousSummary(s);
      GroupingSound(AfterCursor(s));
      NothingIsPassable(p, summary, groups);
      if |groups| <= p.keepRecent {
        RecentOnlySelects(s, p, groups);
      } else {
        var n := |groups| - p.keepRecent;
        ScanFinds(p, summary, groups, n, 0, 0);
        var (count, reason) := Scan(p, summary, groups[..n], 0, 0);
        FoundSelects(s, p, groups, n, count, reason);
        assert groups[..n][..count] == groups[..count];
      }
    }
  }

  lemma {:induction false} NothingIsPassable(p: Settings, summary: Option<string>, groups: seq<Group>)
    requires forall g <- groups :: |g| > 0
    ensures Passable(p, summary, groups, 0) && !HasSource(groups, 0)
  {
    assert groups[..0] == [];
  }

  // ---------------------------------------------------------------- what a plan guarantees

  /** The first `count` groups hold something to summarize and the request for it fits. */
  ghost predicate Summarizable(p: Settings, previous: Option<string>, eligible: seq<Group>, count: nat)
    requires count <= |eligible|
  {
    count > 0 ==>
      var source := NonSystem(Flatten(eligible[..count]));
      source != [] && p.requestTokens(previous, source) <= p.inputLimit
  }

  lemma {:induction false} ScanSelects(
    p: Settings, previous: Option<string>, eligible: seq<Group>, i: nat, best: nat)
    requires forall g :: g in eligible ==> |g| > 0
    requires best <= i <= |eligible|
    requires forall j :: 0 <= j < i ==> !Unfinished(eligible[j])
    requires Summarizable(p, previous, eligible, best)
    ensures var count := Scan(p, previous, eligible, i, best).0;
      && count <= |eligible|
      && (forall j :: 0 <= j < count ==> !Unfinished(eligible[j]))
      && Summarizable(p, previous, eligible, count)
    decreases |eligible| - i
  {
    hide Flatten, NonSystem, Scan, Unfinished;
    ScanStep(p, previous, eligible, i, best);
    if i < |eligible| && !Unfinished(eligible[i]) {
      var source := NonSystem(Flatten(eligible[..i + 1]));
      if source == [] {
        ScanSelects(p, previous, eligible, i + 1, best);
      } else if p.requestTokens(previous, source) <= p.inputLimit {
        ScanSelects(p, previous, eligible, i + 1, i + 1);
      }
    }
  }

  lemma {:induction false} NonEmptyFlatten(groups: seq<Group>)
    requires groups != [] && forall g :: g in groups ==> |g| > 0
    ensures |Flatten(groups)| > 0
  {
    assert |groups[0]| > 0;
  }

  /** A ready plan ends on a group boundary, covers only finished exchanges, advances the cursor,
      archives exactly the covered messages and leaves the newest groups alone. */
  lemma {:induction false} PlanEndsOnBoundary(s: Snapshot, p: Settings, pendingTools: bool, tokens: nat)
    returns (groups: seq<Group>, count: nat)
    requires s.offset <= Cursor(s) && p.keepRecent >= 1
    requires Assess(s, p, pendingTools, tokens).Ok?
    requires Assess(s, p, pendingTools, tokens).value.plan.Some?
    ensures s.history.Some? && MessageGroups(AfterCursor(s)) == Ok(groups)
    ensures 1 <= count <= |groups| - p.keepRecent
    ensures forall j :: 0 <= j < count ==> |groups[j]| > 0 && !Unfinished(groups[j])
    ensures var plan := Assess(s, p, pendingTools, tokens).value.plan.value;
      var taken := Flatten(groups[..count]);
      && plan == PlanAt(Cursor(s), PreviousArchive(s), taken)
      && |taken| > 0
      && taken <= AfterCursor(s)
      && p.requestTokens(PreviousSummary(s), plan.source) <= p.inputLimit
  {
    hide MessageGroups, Flatten, NonSystem, Scan, Unfinished, AfterCursor;
    groups := MessageGroups(AfterCursor(s)).value;
    var eligible := Eligible(groups, p.keepRecent);
    count := Scan(p, PreviousSummary(s), eligible, 0, 0).0;
    ScanSelects(p, PreviousSummary(s), eligible, 0, 0);
    assert eligible[..count] == groups[..count];
    assert forall j :: 0 <= j < count ==> eligible[j] == groups[j] && groups[j] in groups;
    FlattenPrefix(groups, count);
    GroupingSound(AfterCursor(s));
    NonEmptyFlatten(groups[..count]);
  }

  /** The decision does not see the trim: a trimmed state and the full log plan the same. */
  lemma {:induction false} AssessmentIgnoresTrim(s: Snapshot, r: Snapshot, p: Settings, pendingTools: bool, tokens: nat)
    requires Trims(s, r)
    ensures Assess(s, p, pendingTools, tokens) == Assess(r, p, pendingTools, tokens)
  {
    hide MessageGroups, Scan, Flatten, NonSystem, Eligible, SystemOnly, LatestGenuine;
    SplitLog(r.history.value, s.offset, Cursor(s));
    assert AfterCursor(s) == AfterCursor(r);
  }
}
