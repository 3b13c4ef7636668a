/** What a turn leaves in session memory: `whole_tool_exchanges` and `turn_messages`. */
module TurnMemory {
  import opened Messages
  import opened Grouping

  const TRUNCATION_MARKER := "… [truncated for memory]"

  predicate AsksTools(m: Message) {
    m.role == Assistant && m.toolCalls != []
  }

  function FirstUser(ms: seq<Message>): (k: nat)
    ensures k <= |ms|
    ensures forall i :: 0 <= i < k ==> ms[i].role != User
    ensures k < |ms| ==> ms[k].role == User
  {
    if ms == [] || ms[0].role == User then 0 else 1 + FirstUser(ms[1..])
  }

  function AnsweredIds(ms: seq<Message>): set<Option<string>> {
    set m | m in ms && m.role == Tool :: m.toolCallId
  }

  /** The single pass over the messages, with the calls asked so far. */
  function DropHalves(ms: seq<Message>, answered: set<Option<string>>, asked: set<Option<string>>)
    : seq<Message>
  {
    if ms == [] then []
    else
      var m, rest := ms[0], ms[1..];
      if AsksTools(m) then
        if CallIds(m) <= answered then [m] + DropHalves(rest, answered, asked + CallIds(m))
        else DropHalves(rest, answered, asked)
      else if m.role == Tool && m.toolCallId !in asked then DropHalves(rest, answered, asked)
      else [m] + DropHalves(rest, answered, asked)
  }

  function WholeToolExchanges(ms: seq<Message>): seq<Message> {
    var k := FirstUser(ms);
    if k == |ms| then [] else DropHalves(ms[k..], AnsweredIds(ms[k..]), {})
  }

  method FindFirstUser(messages: seq<Message>) returns (first: nat)
    ensures first == FirstUser(messages)
  {
    first := 0;
    while first < |messages| && messages[first].role != User
      invariant 0 <= first <= |messages|
      invariant first + FirstUser(messages[first..]) == FirstUser(messages)
    {
      assert messages[first..][1..] == messages[first + 1..];
      first := first + 1;
    }
  }

  /** `whole_tool_exchanges` as the source runs it. */
  method KeepWholeExchanges(messages: seq<Message>) returns (complete: seq<Message>)
    ensures complete == WholeToolExchanges(messages)
  {
    hide DropHalves, CallIds, FirstUser, AnsweredIds;
    var first := FindFirstUser(messages);
    if first == |messages| {
      return [];
    }
    var window := messages[first..];
    var answered := AnsweredIds(window);
    var asked: set<Option<string>> := {};
    complete := [];
    for i := 0 to |window|
      invariant complete + DropHalves(window[i..], answered, asked) == DropHalves(window, answered, {})
    {
      var message := window[i];
      assert window[i..] == [message] + window[i + 1..];
      DropHead(message, window[i + 1..], answered, asked);
      if AsksTools(message) {
        if !(CallIds(message) <= answered) {
          continue;
        }
        asked := asked + CallIds(message);
      } else if message.role == Tool && message.toolCallId !in asked {
        continue;
      }
      complete := complete + [message];
    }
    DropNothing(answered);
  }

  // ---------------------------------------------------------------- well-formed logs

  /** Every call id is asked once, and only by an assistant message. */
  ghost predicate UniqueCalls(ms: seq<Message>) {
    && (forall i, j :: 0 <= i < j < |ms| ==> CallIds(ms[i]) !! CallIds(ms[j]))
    && (forall i :: 0 <= i < |ms| && ms[i].toolCalls != [] ==> ms[i].role == Assistant)
  }

  /** Every call of the group has a result in it. */
  ghost predicate Complete(g: Group) {
    |g| > 0 && CallIds(g[0]) <= ResultIds(g[1..])
  }

  ghost function CompleteOnly(gs: seq<Group>): seq<Group> {
    if gs == [] then []
    else (if Complete(gs[0]) then [gs[0]] else []) + CompleteOnly(gs[1..])
  }

  /** The same uniqueness on groups. */
  ghost predicate UniqueGroups(gs: seq<Group>) {
    && AllWellGrouped(gs)
    && (forall i, j :: 0 <= i < j < |gs| ==> CallIds(gs[i][0]) !! CallIds(gs[j][0]))
    && (forall i :: 0 <= i < |gs| && gs[i][0].toolCalls != [] ==> gs[i][0].role == Assistant)
  }

  lemma {:induction false} NoCalls(m: Message)
    ensures CallIds(m) == {} <==> m.toolCalls == []
  {
    if m.toolCalls != [] {
      assert Some(m.toolCalls[0].id) in CallIds(m);
    }
  }

  lemma {:induction false} GroupsAreUnique(gs: seq<Group>)
    requires AllWellGrouped(gs) && UniqueCalls(Flatten(gs))
    ensures UniqueGroups(gs)
  {
    if gs != [] {
      var all, rest := Flatten(gs), Flatten(gs[1..]);
      assert all == gs[0] + rest;
      forall i, j | 0 <= i < j < |rest|
        ensures CallIds(rest[i]) !! CallIds(rest[j])
      {
        assert rest[i] == all[|gs[0]| + i] && rest[j] == all[|gs[0]| + j];
      }
      forall i | 0 <= i < |rest| && rest[i].toolCalls != []
        ensures rest[i].role == Assistant
      {
        assert rest[i] == all[|gs[0]| + i];
      }
      GroupsAreUnique(gs[1..]);
      forall j | 1 <= j < |gs|
        ensures CallIds(gs[0][0]) !! CallIds(gs[j][0])
      {
        HeadOccurs(gs[1..], j - 1);
        var k :| 0 <= k < |rest| && rest[k] == gs[j][0];
        assert all[|gs[0]| + k] == gs[j][0] && all[0] == gs[0][0];
      }
      assert all[0] == gs[0][0];
      assert forall i :: 1 <= i < |gs| ==> gs[i] == gs[1..][i - 1];
    }
  }

  lemma {:induction false} HeadOccurs(gs: seq<Group>, j: nat)
    requires AllWellGrouped(gs) && j < |gs|
    ensures gs[j][0] in Flatten(gs)
  {
    if j == 0 {
      assert Flatten(gs)[0] == gs[0][0];
    } else {
      HeadOccurs(gs[1..], j - 1);
    }
  }

  // ---------------------------------------------------------------- the pass, group by group

  lemma {:induction false} DropHead(
    m: Message, rest: seq<Message>, answered: set<Option<string>>, asked: set<Option<string>>)
    ensures DropHalves([m] + rest, answered, asked) ==
      if AsksTools(m) then
        if CallIds(m) <= answered then [m] + DropHalves(rest, answered, asked + CallIds(m))
        else DropHalves(rest, answered, asked)
      else if m.role == Tool && m.toolCallId !in asked then DropHalves(rest, answered, asked)
      else [m] + DropHalves(rest, answered, asked)
  {
    assert ([m] + rest)[1..] == rest;
  }

  lemma {:induction false} ResultsTogether(
    rs: seq<Message>, rest: seq<Message>, answered: set<Option<string>>, asked: set<Option<string>>)
    requires forall m :: m in rs ==> m.role == Tool
    ensures (forall m :: m in rs ==> m.toolCallId in asked) ==>
              DropHalves(rs + rest, answered, asked) == rs + DropHalves(rest, answered, asked)
    ensures (forall m :: m in rs ==> m.toolCallId !in asked) ==>
              DropHalves(rs + rest, answered, asked) == DropHalves(rest, answered, asked)
  {
    hide DropHalves, CallIds;
    if rs == [] {
      assert rs + rest == rest;
    } else {
      assert rs[0] in rs;
      assert rs + rest == [rs[0]] + (rs[1..] + rest);
      DropHead(rs[0], rs[1..] + rest, answered, asked);
      ResultsTogether(rs[1..], rest, answered, asked);
    }
  }

  lemma {:induction false} NoCallsNoResults(g: Group)
    requires WellGrouped(g)
    ensures |g| > 1 ==> CallIds(g[0]) != {}
  {
    if |g| > 1 {
      assert g[1].toolCallId in CallIds(g[0]);
    }
  }

  lemma {:induction false} ResultsAnswerHead(g: Group)
    requires WellGrouped(g)
    ensures forall m :: m in g[1..] ==> m.role == Tool && m.toolCallId in CallIds(g[0])
  {
    hide CallIds;
  }

  lemma {:induction false} ExchangeTogether(head: Message, rs: seq<Message>, rest: seq<Message>,
                         answered: set<Option<string>>, asked: set<Option<string>>)
    requires AsksTools(head) && CallIds(head) !! asked
    requires forall m :: m in rs ==> m.role == Tool && m.toolCallId in CallIds(head)
    ensures DropHalves([head] + rs + rest, answered, asked) ==
      if CallIds(head) <= answered
      then [head] + rs + DropHalves(rest, answered, asked + CallIds(head))
      else DropHalves(rest, answered, asked)
  {
    hide DropHalves, CallIds;
    assert [head] + rs + rest == [head] + (rs + rest);
    DropHead(head, rs + rest, answered, asked);
    if CallIds(head) <= answered {
      ResultsTogether(rs, rest, answered, asked + CallIds(head));
      var kept := DropHalves(rest, answered, asked + CallIds(head));
      assert [head] + (rs + kept) == [head] + rs + kept;
    } else {
      ResultsTogether(rs, rest, answered, asked);
    }
  }

  /** A group is kept whole if it is complete and dropped whole if it is not. */
  lemma {:induction false} GroupTogether(
    g: Group, rest: seq<Message>, answered: set<Option<string>>, asked: set<Option<string>>)
    requires WellGrouped(g)
    requires g[0].toolCalls != [] ==> g[0].role == Assistant
    requires CallIds(g[0]) * answered == ResultIds(g[1..])
    requires CallIds(g[0]) !! asked
    ensures DropHalves(g + rest, answered, asked) ==
      if Complete(g) then g + DropHalves(rest, answered, asked + CallIds(g[0]))
      else DropHalves(rest, answered, asked)
  {
    assert g[0].role != Tool;
    ResultsAnswerHead(g);
    NoCallsNoResults(g);
    hide DropHalves, CallIds, ResultIds, WellGrouped;
    NoCalls(g[0]);
    assert g == [g[0]] + g[1..];
    if g[0].toolCalls == [] {
      assert g == [g[0]];
      assert asked + CallIds(g[0]) == asked;
      DropHead(g[0], rest, answered, asked);
    } else {
      ExchangeTogether(g[0], g[1..], rest, answered, asked);
    }
  }

  lemma {:induction false} PassKeepsComplete(
    gs: seq<Group>, answered: set<Option<string>>, asked: set<Option<string>>)
    requires UniqueGroups(gs)
    requires forall i :: 0 <= i < |gs| ==> CallIds(gs[i][0]) * answered == ResultIds(gs[i][1..])
    requires forall i :: 0 <= i < |gs| ==> CallIds(gs[i][0]) !! asked
    ensures DropHalves(Flatten(gs), answered, asked) == Flatten(CompleteOnly(gs))
  {
    if gs != [] {
      hide DropHalves, ResultIds, WellGrouped, CallIds;
      var g, rest := gs[0], gs[1..];
      assert WellGrouped(g);
      GroupTogether(g, Flatten(rest), answered, asked);
      assert forall i :: 0 <= i < |rest| ==> rest[i] == gs[i + 1];
      PassKeepsComplete(rest, answered, if Complete(g) then asked + CallIds(g[0]) else asked);
      if Complete(g) {
        assert ([g] + CompleteOnly(rest))[1..] == CompleteOnly(rest);
      } else {
        assert [] + CompleteOnly(rest) == CompleteOnly(rest);
      }
    } else {
      assert Flatten(gs) == [];
    }
  }

  lemma {:induction false} MessageInGroup(gs: seq<Group>, m: Message) returns (i: nat)
    requires m in Flatten(gs)
    ensures i < |gs| && m in gs[i]
  {
    if m in gs[0] {
      i := 0;
    } else {
      i := MessageInGroup(gs[1..], m);
      i := i + 1;
    }
  }

  lemma {:induction false} GroupInFlat(gs: seq<Group>, i: nat, m: Message)
    requires i < |gs| && m in gs[i]
    ensures m in Flatten(gs)
  {
    if i > 0 {
      GroupInFlat(gs[1..], i - 1, m);
    }
  }

  /** With unique calls, a call is answered somewhere exactly when it is answered in its group. */
  lemma {:induction false} AnsweredInGroup(gs: seq<Group>, i: nat)
    requires UniqueGroups(gs) && i < |gs|
    ensures CallIds(gs[i][0]) * AnsweredIds(Flatten(gs)) == ResultIds(gs[i][1..])
  {
    var answered := AnsweredIds(Flatten(gs));
    forall id | id in ResultIds(gs[i][1..])
      ensures id in CallIds(gs[i][0]) && id in answered
    {
      var m :| m in gs[i][1..] && m.toolCallId == id;
      assert WellGrouped(gs[i]);
      GroupInFlat(gs, i, m);
    }
    forall id | id in CallIds(gs[i][0]) && id in answered
      ensures id in ResultIds(gs[i][1..])
    {
      var m :| m in Flatten(gs) && m.role == Tool && m.toolCallId == id;
      var k := MessageInGroup(gs, m);
      assert WellGrouped(gs[k]);
      var p :| 0 <= p < |gs[k]| && gs[k][p] == m;
      assert id in CallIds(gs[k][0]);
      assert k == i;
      assert gs[i][1..][p - 1] == m;
    }
  }

  lemma {:induction false} CompleteOnlyFacts(gs: seq<Group>)
    ensures forall g :: g in CompleteOnly(gs) ==> Complete(g) && g in gs
    ensures CompleteOnly(CompleteOnly(gs)) == CompleteOnly(gs)
  {
    if gs != [] {
      hide Complete;
      CompleteOnlyFacts(gs[1..]);
      var tail := CompleteOnly(gs[1..]);
      if Complete(gs[0]) {
        assert ([gs[0]] + tail)[1..] == tail;
      } else {
        assert [] + tail == tail;
      }
    }
  }

  lemma {:induction false} UniqueCons(g: Group, tail: seq<Group>)
    requires WellGrouped(g) && UniqueGroups(tail)
    requires g[0].toolCalls != [] ==> g[0].role == Assistant
    requires forall h :: h in tail ==> |h| > 0 && CallIds(g[0]) !! CallIds(h[0])
    ensures UniqueGroups([g] + tail)
  {
    hide CallIds;
  }

  lemma {:induction false} UniqueUncons(gs: seq<Group>)
    requires UniqueGroups(gs) && gs != []
    ensures WellGrouped(gs[0]) && UniqueGroups(gs[1..])
    ensures gs[0][0].toolCalls != [] ==> gs[0][0].role == Assistant
    ensures forall h :: h in gs[1..] ==> |h| > 0 && CallIds(gs[0][0]) !! CallIds(h[0])
  {
    hide CallIds;
    assert forall i :: 0 <= i < |gs| - 1 ==> gs[1..][i] == gs[i + 1];
  }

  lemma {:induction false} CompleteOnlyUnique(gs: seq<Group>)
    requires UniqueGroups(gs)
    ensures UniqueGroups(CompleteOnly(gs))
  {
    if gs != [] {
      hide WellGrouped, Complete, UniqueGroups;
      UniqueUncons(gs);
      CompleteOnlyUnique(gs[1..]);
      CompleteOnlyFacts(gs[1..]);
      var tail := CompleteOnly(gs[1..]);
      if Complete(gs[0]) {
        UniqueCons(gs[0], tail);
      } else {
        assert [] + tail == tail;
      }
    }
  }

  /** On groups with unique calls the function keeps exactly the complete exchanges, in order. */
  lemma {:induction false} WholeOfGroups(gs: seq<Group>)
    requires UniqueGroups(gs) && gs != [] && gs[0][0].role == User
    ensures WholeToolExchanges(Flatten(gs)) == Flatten(CompleteOnly(gs))
    ensures CompleteOnly(gs) != [] && CompleteOnly(gs)[0] == gs[0]
  {
    var all := Flatten(gs);
    assert WellGrouped(gs[0]) && all[0] == gs[0][0];
    NoCalls(gs[0][0]);
    assert all[0..] == all;
    forall i | 0 <= i < |gs|
      ensures CallIds(gs[i][0]) * AnsweredIds(all) == ResultIds(gs[i][1..])
    {
      AnsweredInGroup(gs, i);
    }
    PassKeepsComplete(gs, AnsweredIds(all), {});
  }

  // ---------------------------------------------------------------- windows of a log

  lemma {:induction false} PrefixGroups(log: seq<Message>, b: nat)
    requires MessageGroups(log).Ok? && b <= |log|
    ensures MessageGroups(log[..b]).Ok?
  {
    if MessageGroups(log[..b]).Err? {
      ConflictPersists(log, b);
    }
  }

  /** A log cut just before a message that is not a result is still a log. */
  lemma {:induction false} SuffixGroups(gs: seq<Group>, a: nat)
    requires AllWellGrouped(gs)
    requires a < |Flatten(gs)| && Flatten(gs)[a].role != Tool
    ensures MessageGroups(Flatten(gs)[a..]).Ok?
  {
    var all := Flatten(gs);
    assert WellGrouped(gs[0]);
    if a == 0 {
      assert all[0..] == all;
      GroupingComplete(gs);
    } else {
      var rest := Flatten(gs[1..]);
      assert all == gs[0] + rest;
      assert forall i :: 1 <= i < |gs[0]| ==> all[i] == gs[0][i] && all[i].role == Tool;
      assert all[a..] == rest[a - |gs[0]|..] && all[a] == rest[a - |gs[0]|];
      SuffixGroups(gs[1..], a - |gs[0]|);
    }
  }

  lemma {:induction false} UniqueSlice(log: seq<Message>, a: nat, b: nat)
    requires a <= b <= |log| && UniqueCalls(log)
    ensures UniqueCalls(log[a..b])
  {
    assert forall i :: 0 <= i < b - a ==> log[a..b][i] == log[a + i];
  }

  /** A conversation memory that is safe to send: nothing, or whole exchanges from a user turn. */
  ghost predicate SafeMemory(ms: seq<Message>) {
    && MessageGroups(ms).Ok?
    && (forall g :: g in MessageGroups(ms).value ==> Complete(g))
    && (ms != [] ==> ms[0].role == User)
  }

  /** The part of a window from its first user message on is itself a well-formed log. */
  lemma {:induction false} CutWindow(log: seq<Message>, a: nat, b: nat)
    requires MessageGroups(log).Ok? && UniqueCalls(log)
    requires a < b <= |log| && log[a].role == User
    ensures MessageGroups(log[a..b]).Ok?
    ensures UniqueGroups(MessageGroups(log[a..b]).value)
    ensures Flatten(MessageGroups(log[a..b]).value) == log[a..b]
  {
    hide MessageGroups, Flatten, UniqueGroups, CallIds;
    var front := log[..b];
    assert log[a..b] == front[a..];
    PrefixGroups(log, b);
    GroupingSound(front);
    SuffixGroups(MessageGroups(front).value, a);
    UniqueSlice(log, a, b);
    GroupingSound(log[a..b]);
    GroupsAreUnique(MessageGroups(log[a..b]).value);
  }

  /** Any window of a well-formed log becomes safe, and a safe one stays as it is. */
  lemma {:induction false} WindowBecomesSafe(log: seq<Message>, a: nat, b: nat)
    requires MessageGroups(log).Ok? && UniqueCalls(log)
    requires a <= b <= |log|
    ensures SafeMemory(WholeToolExchanges(log[a..b]))
    ensures WholeToolExchanges(WholeToolExchanges(log[a..b])) == WholeToolExchanges(log[a..b])
  {
    hide MessageGroups, Flatten, UniqueGroups, SafeMemory, WholeToolExchanges, UniqueCalls, FirstUser;
    hide AllWellGrouped;
    var window := log[a..b];
    var k := FirstUser(window);
    if k == |window| {
      NoUserNoMemory(window);
    } else {
      assert window[k..] == log[a + k..b];
      CutWindow(log, a + k, b);
      var gs := MessageGroups(window[k..]).value;
      GroupingSound(window[k..]);
      TrimmedWindow(window, k);
      FirstGroupIsUser(gs);
      SafeFromGroups(gs);
    }
  }

  lemma {:induction false} NoUserNoMemory(window: seq<Message>)
    requires FirstUser(window) == |window|
    ensures WholeToolExchanges(window) == [] == WholeToolExchanges([])
    ensures SafeMemory([])
  {
  }

  lemma {:induction false} TrimmedWindow(window: seq<Message>, k: nat)
    requires k == FirstUser(window) && k < |window|
    ensures WholeToolExchanges(window) == WholeToolExchanges(window[k..])
  {
    assert window[k..][0] == window[k];
    assert window[k..][0..] == window[k..];
  }

  lemma {:induction false} FirstGroupIsUser(gs: seq<Group>)
    requires AllWellGrouped(gs) && Flatten(gs) != [] && Flatten(gs)[0].role == User
    ensures gs != [] && gs[0][0].role == User
  {
    assert WellGrouped(gs[0]);
    assert Flatten(gs)[0] == gs[0][0];
  }

  lemma {:induction false} SafeFromGroups(gs: seq<Group>)
    requires UniqueGroups(gs) && gs != [] && gs[0][0].role == User
    ensures SafeMemory(WholeToolExchanges(Flatten(gs)))
    ensures WholeToolExchanges(WholeToolExchanges(Flatten(gs))) == WholeToolExchanges(Flatten(gs))
    ensures MessageGroups(WholeToolExchanges(Flatten(gs))) == Ok(CompleteOnly(gs))
  {
    hide DropHalves, MessageGroups, WholeToolExchanges, Complete, CallIds;
    WholeOfGroups(gs);
    CompleteOnlyFacts(gs);
    CompleteOnlyUnique(gs);
    var kept := CompleteOnly(gs);
    GroupingComplete(kept);
    WholeOfGroups(kept);
    assert WellGrouped(kept[0]);
    assert Flatten(kept)[0] == kept[0][0];
  }

  // ---------------------------------------------------------------- a second pass

  /** An asking message all of whose calls have a result somewhere in the window. */
  ghost predicate Answerable(window: seq<Message>, i: int) {
    0 <= i < |window| && AsksTools(window[i]) && CallIds(window[i]) <= AnsweredIds(window)
  }

  /** A result of `id` that comes after an answerable message asking for it. */
  ghost predicate LateResult(window: seq<Message>, j: int, id: Option<string>) {
    && 0 <= j < |window| && window[j].role == Tool && window[j].toolCallId == id
    && exists i :: i < j && Answerable(window, i) && id in CallIds(window[i])
  }

  /** Every call of an answerable message has such a result. */
  ghost predicate ResultsFollowCalls(window: seq<Message>) {
    forall i, id :: Answerable(window, i) && id in CallIds(window[i]) ==>
      exists j :: LateResult(window, j, id)
  }

  /** The pass keeps exactly the asking messages whose calls count as answered. */
  lemma {:induction false} PassKeepsAskers(
    ms: seq<Message>, answered: set<Option<string>>, asked: set<Option<string>>, m: Message)
    requires AsksTools(m)
    ensures m in DropHalves(ms, answered, asked) <==> m in ms && CallIds(m) <= answered
  {
    hide DropHalves, CallIds;
    if ms == [] {
      DropNothing(answered);
    } else {
      assert ms == [ms[0]] + ms[1..];
      DropHead(ms[0], ms[1..], answered, asked);
      PassKeepsAskers(ms[1..], answered, asked, m);
      PassKeepsAskers(ms[1..], answered, asked + CallIds(ms[0]), m);
    }
  }

  /** Passing over a kept list with other answers keeps it iff they cover what it asks. */
  lemma {:induction false} RepeatedPass(
    ms: seq<Message>, answered: set<Option<string>>, again: set<Option<string>>, asked: set<Option<string>>)
    requires forall m <- DropHalves(ms, answered, asked) :: AsksTools(m) ==> CallIds(m) <= again
    ensures DropHalves(DropHalves(ms, answered, asked), again, asked) == DropHalves(ms, answered, asked)
  {
    hide DropHalves, CallIds;
    if ms == [] {
      DropNothing(answered);
      DropNothing(again);
    } else {
      var m, rest := ms[0], ms[1..];
      assert ms == [m] + rest;
      DropHead(m, rest, answered, asked);
      var asked' := if AsksTools(m) && CallIds(m) <= answered then asked + CallIds(m) else asked;
      var kept := DropHalves(rest, answered, asked');
      assert forall x <- kept :: x in DropHalves(ms, answered, asked);
      RepeatedPass(rest, answered, again, asked');
      if DropHalves(ms, answered, asked) != kept {
        assert m in DropHalves(ms, answered, asked);
        DropHead(m, kept, again, asked);
      }
    }
  }

  /** A result survives the pass exactly if its call was asked before, by a message that is kept. */
  ghost predicate AskedBefore(
    ms: seq<Message>, answered: set<Option<string>>, asked: set<Option<string>>, j: int, id: Option<string>)
  {
    && 0 <= j < |ms| && ms[j].role == Tool && ms[j].toolCallId == id
    && (id in asked || exists i :: 0 <= i < j && AsksTools(ms[i]) && CallIds(ms[i]) <= answered && id in CallIds(ms[i]))
  }

  lemma {:induction false} AnsweredHead(m: Message, rest: seq<Message>)
    ensures AnsweredIds([m] + rest) == (if m.role == Tool then {m.toolCallId} else {}) + AnsweredIds(rest)
  {
    var ms := [m] + rest;
    assert ms[0] == m && ms[1..] == rest;
    forall id | id in AnsweredIds(rest)
      ensures id in AnsweredIds(ms)
    {
      var x :| x in rest && x.role == Tool && x.toolCallId == id;
      assert x in ms;
    }
  }

  lemma {:induction false} PassKeepsResults(
    ms: seq<Message>, answered: set<Option<string>>, asked: set<Option<string>>, id: Option<string>)
    ensures id in AnsweredIds(DropHalves(ms, answered, asked)) <==> exists j :: AskedBefore(ms, answered, asked, j, id)
  {
    hide DropHalves, CallIds, AnsweredIds;
    if ms == [] {
      DropNothing(answered);
      NoMessagesNoAnswers();
    } else {
      var m, rest := ms[0], ms[1..];
      assert ms == [m] + rest;
      var asked' := if AsksTools(m) && CallIds(m) <= answered then asked + CallIds(m) else asked;
      var kept := DropHalves(rest, answered, asked');
      DropHead(m, rest, answered, asked);
      AnsweredHead(m, kept);
      PassKeepsResults(rest, answered, asked', id);
      AskedLater(ms, answered, asked, asked', id);
      if m.role == Tool && m.toolCallId == id && id in asked {
        assert AskedBefore(ms, answered, asked, 0, id);
      }
    }
  }

  lemma {:induction false} NoMessagesNoAnswers()
    ensures AnsweredIds([]) == {}
  {
  }

  lemma {:induction false} AskedLater(ms: seq<Message>, answered: set<Option<string>>, asked: set<Option<string>>,
                                      asked': set<Option<string>>, id: Option<string>)
    requires ms != []
    requires asked' == if AsksTools(ms[0]) && CallIds(ms[0]) <= answered then asked + CallIds(ms[0]) else asked
    ensures (exists j :: AskedBefore(ms[1..], answered, asked', j, id))
       <==> (exists j :: j > 0 && AskedBefore(ms, answered, asked, j, id))
  {
    hide CallIds;
    forall j | j > 0 && AskedBefore(ms, answered, asked, j, id)
      ensures AskedBefore(ms[1..], answered, asked', j - 1, id)
    {
      if id !in asked {
        var i :| 0 <= i < j && AsksTools(ms[i]) && CallIds(ms[i]) <= answered && id in CallIds(ms[i]);
        if i > 0 {
          assert ms[1..][i - 1] == ms[i];
        }
      }
    }
    forall j | AskedBefore(ms[1..], answered, asked', j, id)
      ensures AskedBefore(ms, answered, asked, j + 1, id)
    {
      if id !in asked' {
        var i :| 0 <= i < j && AsksTools(ms[1..][i]) && CallIds(ms[1..][i]) <= answered && id in CallIds(ms[1..][i]);
        assert ms[1..][i] == ms[i + 1];
      }
    }
  }

  /** What is kept starts at a user message, or is nothing. */
  lemma {:induction false} KeptStartsAtUser(window: seq<Message>)
    requires window != [] && window[0].role == User
    ensures var kept := DropHalves(window, AnsweredIds(window), {});
      WholeToolExchanges(kept) == DropHalves(kept, AnsweredIds(kept), {})
  {
    hide DropHalves, CallIds, AnsweredIds;
    var kept := DropHalves(window, AnsweredIds(window), {});
    assert window == [window[0]] + window[1..];
    DropHead(window[0], window[1..], AnsweredIds(window), {});
    assert kept[0] == window[0] && kept[0..] == kept;
  }

  /** Cleaning up again changes nothing if and only if what was kept answers what it asks. */
  lemma {:induction false} SecondPassIdentity(window: seq<Message>)
    requires window != [] && window[0].role == User
    ensures var kept := DropHalves(window, AnsweredIds(window), {});
      WholeToolExchanges(kept) == kept <==>
      forall m <- kept :: AsksTools(m) ==> CallIds(m) <= AnsweredIds(kept)
  {
    hide DropHalves, CallIds, AnsweredIds, WholeToolExchanges;
    var kept := DropHalves(window, AnsweredIds(window), {});
    KeptStartsAtUser(window);
    if WholeToolExchanges(kept) == kept {
      forall m | m in kept && AsksTools(m)
        ensures CallIds(m) <= AnsweredIds(kept)
      {
        PassKeepsAskers(kept, AnsweredIds(kept), {}, m);
      }
    }
    if forall m <- kept :: AsksTools(m) ==> CallIds(m) <= AnsweredIds(kept) {
      RepeatedPass(window, AnsweredIds(window), AnsweredIds(kept), {});
    }
  }

  lemma {:induction false} LateResultsAreKept(window: seq<Message>, id: Option<string>)
    ensures id in AnsweredIds(DropHalves(window, AnsweredIds(window), {})) <==> exists j :: LateResult(window, j, id)
  {
    hide DropHalves, CallIds, AnsweredIds;
    PassKeepsResults(window, AnsweredIds(window), {}, id);
    forall j | LateResult(window, j, id)
      ensures AskedBefore(window, AnsweredIds(window), {}, j, id)
    {
      var i :| i < j && Answerable(window, i) && id in CallIds(window[i]);
      assert AsksTools(window[i]);
    }
    forall j | AskedBefore(window, AnsweredIds(window), {}, j, id)
      ensures LateResult(window, j, id)
    {
      var i :| 0 <= i < j && AsksTools(window[i]) && CallIds(window[i]) <= AnsweredIds(window)
               && id in CallIds(window[i]);
      assert Answerable(window, i);
    }
  }

  /** What is kept answers what it asks if and only if, in the window, results follow their calls. */
  lemma {:induction false} KeptAnswersIffResultsFollow(window: seq<Message>)
    ensures var kept := DropHalves(window, AnsweredIds(window), {});
      (forall m <- kept :: AsksTools(m) ==> CallIds(m) <= AnsweredIds(kept)) <==> ResultsFollowCalls(window)
  {
    hide DropHalves, CallIds, AnsweredIds, LateResult;
    var kept := DropHalves(window, AnsweredIds(window), {});
    if forall m <- kept :: AsksTools(m) ==> CallIds(m) <= AnsweredIds(kept) {
      forall i, id | Answerable(window, i) && id in CallIds(window[i])
        ensures exists j :: LateResult(window, j, id)
      {
        PassKeepsAskers(window, AnsweredIds(window), {}, window[i]);
        LateResultsAreKept(window, id);
      }
    }
    if ResultsFollowCalls(window) {
      forall m, id | m in kept && AsksTools(m) && id in CallIds(m)
        ensures id in AnsweredIds(kept)
      {
        PassKeepsAskers(window, AnsweredIds(window), {}, m);
        var i :| 0 <= i < |window| && window[i] == m;
        assert Answerable(window, i);
        LateResultsAreKept(window, id);
      }
    }
  }

  /** The cleanup is idempotent on exactly the windows in which, from the first user message on,
      every call of a message that will be kept has a result after such a message. */
  lemma {:induction false} SecondPassChangesNothingIff(ms: seq<Message>)
    ensures WholeToolExchanges(WholeToolExchanges(ms)) == WholeToolExchanges(ms)
       <==> ResultsFollowCalls(ms[FirstUser(ms)..])
    ensures WholeToolExchanges(WholeToolExchanges(ms)) == WholeToolExchanges(ms)
       <==> var kept := WholeToolExchanges(ms);
            forall m <- kept :: AsksTools(m) ==> CallIds(m) <= AnsweredIds(kept)
  {
    var window := ms[FirstUser(ms)..];
    if window != [] {
      assert window[0].role == User;
      assert WholeToolExchanges(ms) == DropHalves(window, AnsweredIds(window), {});
      hide WholeToolExchanges, ResultsFollowCalls, DropHalves, AnsweredIds, CallIds;
      SecondPassIdentity(window);
      KeptAnswersIffResultsFollow(window);
    }
  }

  /** A window without that: a result before its call. */
  lemma {:induction false} SecondPassCanDropMore()
    ensures exists ms :: WholeToolExchanges(WholeToolExchanges(ms)) != WholeToolExchanges(ms)
  {
    var u := Message(User, [], None, None, []);
    var call := Message(Assistant, [], None, None, [ToolCall("x", "t", "")]);
    var res := Message(Tool, [], None, Some("x"), []);
    assert CallIds(call) == {res.toolCallId};
    FirstPassKeepsCall(u, call, res);
    SecondPassDropsCall(u, call, res);
  }

  lemma {:induction false} FirstPassKeepsCall(u: Message, call: Message, res: Message)
    requires u.role == User && AsksTools(call) && res.role == Tool && CallIds(call) == {res.toolCallId}
    ensures WholeToolExchanges([u, res, call]) == [u, call]
  {
    var ms, answered := [u, res, call], CallIds(call);
    assert AnsweredIds(ms) == answered by { assert res in ms; }
    assert ms[0..] == ms;
    hide DropHalves, CallIds, AnsweredIds;
    DropNothing(answered);
    assert [call] == [call] + [] && [res, call] == [res] + [call] && ms == [u] + [res, call];
    DropHead(call, [], answered, {});
    DropHead(res, [call], answered, {});
    DropHead(u, [res, call], answered, {});
  }

  lemma {:induction false} SecondPassDropsCall(u: Message, call: Message, res: Message)
    requires u.role == User && AsksTools(call) && CallIds(call) == {res.toolCallId}
    ensures WholeToolExchanges([u, call]) == [u]
  {
    var ms := [u, call];
    assert AnsweredIds(ms) == {};
    assert ms[0..] == ms;
    hide DropHalves, CallIds, AnsweredIds;
    DropNothing({});
    assert [call] == [call] + [] && ms == [u] + [call];
    DropHead(call, [], {}, {});
    DropHead(u, [call], {}, {});
  }

  lemma {:induction false} DropNothing(answered: set<Option<string>>)
    ensures forall asked :: DropHalves([], answered, asked) == []
  {
  }

  // ---------------------------------------------------------------- what a turn leaves behind

  function JoinText(blocks: seq<Block>): string {
    if blocks == [] then ""
    else if blocks[0].FileBlock? then JoinText(blocks[1..])
    else if forall b :: b in blocks[1..] ==> b.FileBlock? then blocks[0].text
    else blocks[0].text + "\n" + JoinText(blocks[1..])
  }

  function TextContent(m: Message): string {
    JoinText(m.content)
  }

  function Capped(m: Message, maxChars: nat): Message {
    var text := TextContent(m);
    if |text| <= maxChars then m
    else m.(content := [TextBlock(text[..maxChars] + TRUNCATION_MARKER)])
  }

  /** The last user message that asked `input`, or -1. */
  function LastAsked(history: seq<Message>, input: string): (start: int)
    ensures -1 <= start < |history|
    ensures start >= 0 ==> history[start].role == User
  {
    if history == [] then -1
    else
      var m := history[|history| - 1];
      if m.role == User && TextContent(m) == input then |history| - 1
      else LastAsked(history[..|history| - 1], input)
  }

  function TurnStep(m: Message, maxChars: nat): seq<Message> {
    if AsksTools(m) then [m]
    else if m.role == Tool then [Capped(m, maxChars)]
    else if m.role == User && m.name != Some(REPAIR_MESSAGE_NAME) then [m]
    else []
  }

  function TurnSteps(ms: seq<Message>, maxChars: nat): seq<Message> {
    if ms == [] then [] else TurnStep(ms[0], maxChars) + TurnSteps(ms[1..], maxChars)
  }

  function TurnMessages(history: seq<Message>, input: string, output: string, maxChars: nat,
                        question: Message): seq<Message>
  {
    var start := LastAsked(history, input);
    var steps := if start < 0 then [] else TurnSteps(history[start + 1..], maxChars);
    var answer := if output == "" then []
                  else [Message(Assistant, [TextBlock(output)], None, None, [])];
    WholeToolExchanges([question] + steps + answer)
  }

  predicate Asked(m: Message, input: string) {
    m.role == User && TextContent(m) == input
  }

  method FindQuestion(history: seq<Message>, input: string) returns (start: int)
    ensures start == LastAsked(history, input)
    ensures -1 <= start < |history| && (start >= 0 ==> Asked(history[start], input))
    ensures forall i :: start < i < |history| ==> !Asked(history[i], input)
  {
    start := |history| - 1;
    assert history[..|history|] == history;
    while start >= 0 && !(history[start].role == User && TextContent(history[start]) == input)
      invariant -1 <= start < |history|
      invariant LastAsked(history[..start + 1], input) == LastAsked(history, input)
      invariant forall i :: start < i < |history| ==> !Asked(history[i], input)
    {
      assert history[..start + 1][..start] == history[..start];
      start := start - 1;
    }
  }

  /** `turn_messages` as the source runs it. */
  method RememberTurn(history: seq<Message>, input: string, output: string, maxChars: nat,
                      question: Message) returns (r: seq<Message>)
    ensures r == TurnMessages(history, input, output, maxChars, question)
  {
    hide Capped, TextContent, WholeToolExchanges, LastAsked, TurnSteps;
    var start := FindQuestion(history, input);
    var steps := [];
    if start >= 0 {
      steps := KeepSteps(history[start + 1..], maxChars);
    }
    var kept := [question] + steps;
    if output != "" {
      kept := kept + [Message(Assistant, [TextBlock(output)], None, None, [])];
    } else {
      assert kept + [] == kept;
    }
    r := KeepWholeExchanges(kept);
  }

  lemma {:induction false} StepsHead()
    ensures forall n: nat :: TurnSteps([], n) == []
    ensures forall ms: seq<Message>, n: nat :: ms != [] ==>
              TurnSteps(ms, n) == TurnStep(ms[0], n) + TurnSteps(ms[1..], n)
  {
  }

  method KeepSteps(turn: seq<Message>, maxChars: nat) returns (kept: seq<Message>)
    ensures kept == TurnSteps(turn, maxChars)
  {
    hide Capped, TurnSteps;
    StepsHead();
    kept := [];
    for i := 0 to |turn|
      invariant kept + TurnSteps(turn[i..], maxChars) == TurnSteps(turn, maxChars)
    {
      var message := turn[i];
      assert turn[i..][1..] == turn[i + 1..] && turn[i..][0] == message;
      ghost var rest := TurnSteps(turn[i + 1..], maxChars);
      assert kept + (TurnStep(message, maxChars) + rest) == (kept + TurnStep(message, maxChars)) + rest;
      if message.role == Assistant && message.toolCalls != [] {
        kept := kept + [message];
      } else if message.role == Tool {
        kept := kept + [Capped(message, maxChars)];
      } else if message.role == User && message.name != Some(REPAIR_MESSAGE_NAME) {
        kept := kept + [message];
      }
    }
  }

  function CappedAll(ms: seq<Message>, maxChars: nat): seq<Message> {
    seq(|ms|, i requires 0 <= i < |ms| => Capped(ms[i], maxChars))
  }

  /** A turn's steps, group by group: exchanges with capped results, and genuine user messages. */
  ghost function StepGroups(gs: seq<Group>, maxChars: nat): seq<Group>
    requires forall g :: g in gs ==> |g| > 0
  {
    if gs == [] then [] else StepGroup(gs[0], maxChars) + StepGroups(gs[1..], maxChars)
  }

  ghost function StepGroup(g: Group, maxChars: nat): (steps: seq<Group>)
    requires |g| > 0
    ensures |steps| <= 1
  {
    if AsksTools(g[0]) then [[g[0]] + CappedAll(g[1..], maxChars)]
    else if TurnStep(g[0], maxChars) == [] then [] else [[g[0]]]
  }

  lemma {:induction false} StepsAppend(a: seq<Message>, b: seq<Message>, maxChars: nat)
    ensures TurnSteps(a + b, maxChars) == TurnSteps(a, maxChars) + TurnSteps(b, maxChars)
  {
    if a == [] {
      assert a + b == b;
    } else {
      assert (a + b)[1..] == a[1..] + b;
      StepsAppend(a[1..], b, maxChars);
    }
  }

  lemma {:induction false} StepsOfResults(rs: seq<Message>, maxChars: nat)
    requires forall m :: m in rs ==> m.role == Tool
    ensures TurnSteps(rs, maxChars) == CappedAll(rs, maxChars)
  {
    if rs != [] {
      StepsOfResults(rs[1..], maxChars);
      assert CappedAll(rs, maxChars) == [Capped(rs[0], maxChars)] + CappedAll(rs[1..], maxChars);
    }
  }

  lemma {:induction false} StepsOfGroup(g: Group, maxChars: nat)
    requires WellGrouped(g) && (g[0].toolCalls != [] ==> g[0].role == Assistant)
    ensures TurnSteps(g, maxChars) ==
      if AsksTools(g[0]) then [g[0]] + CappedAll(g[1..], maxChars)
      else if TurnStep(g[0], maxChars) == [] then [] else [g[0]]
  {
    hide CallIds;
    NoCalls(g[0]);
    NoCallsNoResults(g);
    assert forall m :: m in g[1..] ==> m.role == Tool;
    StepsOfResults(g[1..], maxChars);
  }

  lemma {:induction false} StepsByGroup(gs: seq<Group>, maxChars: nat)
    requires UniqueGroups(gs) && forall g :: g in gs ==> |g| > 0
    ensures TurnSteps(Flatten(gs), maxChars) == Flatten(StepGroups(gs, maxChars))
  {
    if gs != [] {
      hide UniqueGroups, WellGrouped, TurnSteps, TurnStep, CallIds;
      UniqueUncons(gs);
      var g, rest := gs[0], gs[1..];
      StepsAppend(g, Flatten(rest), maxChars);
      StepsOfGroup(g, maxChars);
      StepsByGroup(rest, maxChars);
      var tail := StepGroups(rest, maxChars);
      assert forall x: Group :: ([x] + tail)[1..] == tail;
      assert [] + tail == tail;
    } else {
      assert Flatten(gs) == [];
    }
  }

  lemma {:induction false} StepGroupsUnique(gs: seq<Group>, maxChars: nat)
    requires UniqueGroups(gs) && forall g :: g in gs ==> |g| > 0
    ensures UniqueGroups(StepGroups(gs, maxChars))
    ensures forall h :: h in StepGroups(gs, maxChars) ==>
              |h| > 0 && exists g :: g in gs && |g| > 0 && g[0] == h[0]
  {
    if gs != [] {
      hide UniqueGroups, WellGrouped, CallIds, StepGroup;
      UniqueUncons(gs);
      StepGroupsUnique(gs[1..], maxChars);
      var g, tail := gs[0], StepGroups(gs[1..], maxChars);
      forall h | h in tail
        ensures |h| > 0 && CallIds(g[0]) !! CallIds(h[0])
        ensures exists k :: k in gs && |k| > 0 && k[0] == h[0]
      {
        var k :| k in gs[1..] && |k| > 0 && k[0] == h[0];
      }
      StepGroupIsGroup(g, maxChars);
      var first := StepGroup(g, maxChars);
      if first == [] {
        assert [] + tail == tail;
      } else {
        assert first == [first[0]];
        UniqueCons(first[0], tail);
      }
    }
  }

  lemma {:induction false} StepGroupIsGroup(g: Group, maxChars: nat)
    requires WellGrouped(g)
    ensures forall k <- StepGroup(g, maxChars) :: WellGrouped(k) && |k| > 0 && k[0] == g[0]
  {
    hide CallIds;
  }

  /** What a finished turn leaves in memory starts with its question, contains only whole
      exchanges, and is a fixed point of the cleanup that reading it back applies. */
  lemma {:induction false} TurnIsSafeMemory(
    history: seq<Message>, input: string, output: string, maxChars: nat, question: Message)
    requires MessageGroups(history).Ok? && UniqueCalls(history)
    requires question.role == User && question.toolCalls == []
    ensures var turn := TurnMessages(history, input, output, maxChars, question);
      && SafeMemory(turn)
      && turn != [] && turn[0] == question
      && WholeToolExchanges(turn) == turn
  {
    hide MessageGroups, WholeToolExchanges, SafeMemory, UniqueCalls, TurnSteps, CallIds, UniqueGroups, Flatten;
    hide LastAsked, StepGroups, WellGrouped;
    var answer := if output == "" then []
                  else [Message(Assistant, [TextBlock(output)], None, None, [])];
    var start := LastAsked(history, input);
    var steps := if start < 0 then [] else TurnSteps(history[start + 1..], maxChars);
    var gs: seq<Group> := [];
    if start >= 0 {
      var hs;
      gs, hs := StepsAreGroups(history, start, maxChars);
    } else {
      NoGroups();
    }
    TurnGroups(question, gs, answer);
    var all := [[question]] + gs + if answer == [] then [] else [answer];
    SafeFromGroups(all);
    StartsWith(all);
  }

  lemma {:induction false} NoGroups()
    ensures UniqueGroups([]) && Flatten<Message>([]) == []
  {
  }

  lemma {:induction false} StartsWith(gs: seq<Group>)
    requires gs != [] && UniqueGroups(gs) && gs[0][0].role == User
    ensures WholeToolExchanges(Flatten(gs)) != []
    ensures WholeToolExchanges(Flatten(gs))[0] == gs[0][0]
  {
    hide WholeToolExchanges, CallIds;
    WholeOfGroups(gs);
    assert WellGrouped(gs[0]);
    assert Flatten(CompleteOnly(gs))[0] == gs[0][0];
  }

  lemma {:induction false} StepsAreGroups(history: seq<Message>, start: nat, maxChars: nat)
    returns (gs: seq<Group>, hs: seq<Group>)
    requires MessageGroups(history).Ok? && UniqueCalls(history)
    requires start < |history| && history[start].role == User
    ensures UniqueGroups(hs) && (forall g <- hs :: |g| > 0) && Flatten(hs) == history[start + 1..]
    ensures UniqueGroups(gs) && gs == StepGroups(hs, maxChars)
    ensures Flatten(gs) == TurnSteps(history[start + 1..], maxChars)
  {
    hide MessageGroups, UniqueCalls, CallIds, TurnSteps, StepGroups;
    var window := history[start..];
    assert window == history[start..|history|];
    CutWindow(history, start, |history|);
    var all := MessageGroups(window).value;
    FirstGroupIsUser(all);
    UniqueUncons(all);
    NoCalls(all[0][0]);
    NoCallsNoResults(all[0]);
    assert all[0] == [window[0]];
    hs := all[1..];
    assert Flatten(hs) == history[start + 1..];
    assert forall g :: g in hs ==> |g| > 0;
    StepsByGroup(hs, maxChars);
    StepGroupsUnique(hs, maxChars);
    gs := StepGroups(hs, maxChars);
  }

  // ---------------------------------------------------------------- which messages a turn leaves

  /** Text blocks are joined line by line; files have no text. */
  lemma {:induction false} JoinTextFacts(a: seq<Block>, b: Block)
    ensures JoinText(a + [b]) ==
      if b.FileBlock? then JoinText(a)
      else if OnlyFiles(a) then b.text
      else JoinText(a) + "\n" + b.text
  {
    hide JoinText, OnlyFiles;
    NoText([]);
    FilesSplit(a, b);
    if a == [] {
      assert a + [b] == [b] + [];
      JoinTextHead(b, []);
    } else {
      var rest := a[1..];
      JoinTextFacts(rest, b);
      FilesSplit(rest, b);
      FilesHead(a[0], rest);
      NoText(rest);
      JoinTextHead(a[0], rest);
      JoinTextHead(a[0], rest + [b]);
      assert a == [a[0]] + rest && a + [b] == [a[0]] + (rest + [b]);
    }
  }

  lemma {:induction false} FilesHead(b: Block, rest: seq<Block>)
    ensures OnlyFiles([b] + rest) <==> b.FileBlock? && OnlyFiles(rest)
  {
  }

  ghost predicate OnlyFiles(blocks: seq<Block>) {
    forall b <- blocks :: b.FileBlock?
  }

  lemma {:induction false} FilesSplit(a: seq<Block>, b: Block)
    ensures OnlyFiles(a + [b]) <==> OnlyFiles(a) && b.FileBlock?
  {
  }

  lemma {:induction false} NoText(blocks: seq<Block>)
    ensures OnlyFiles(blocks) ==> JoinText(blocks) == ""
    ensures blocks == [] ==> OnlyFiles(blocks)
  {
    if blocks != [] {
      NoText(blocks[1..]);
    }
  }

  lemma {:induction false} JoinTextHead(b: Block, rest: seq<Block>)
    ensures JoinText([b] + rest) ==
      if b.FileBlock? then JoinText(rest)
      else if OnlyFiles(rest) then b.text
      else b.text + "\n" + JoinText(rest)
  {
    assert ([b] + rest)[1..] == rest;
  }

  /** A result whose text is within the limit stays; of a longer one the beginning is kept, marked. */
  ghost predicate CappedTo(m: Message, k: Message, maxChars: nat) {
    if |TextContent(m)| <= maxChars then k == m
    else
      && k == m.(content := k.content)
      && |k.content| == 1 && k.content[0].TextBlock?
      && |k.content[0].text| == maxChars + |TRUNCATION_MARKER|
      && k.content[0].text[maxChars..] == TRUNCATION_MARKER
      && forall c :: 0 <= c < maxChars ==> k.content[0].text[c] == TextContent(m)[c]
  }

  ghost predicate ExchangeCappedTo(g: Group, k: Group, maxChars: nat) {
    && |k| == |g| > 0 && k[0] == g[0]
    && forall i :: 1 <= i < |g| ==> CappedTo(g[i], k[i], maxChars)
  }

  /** Memory keeps complete tool exchanges, and what the user said except repair messages. */
  ghost predicate Remembered(g: Group)
    requires |g| > 0
  {
    (AsksTools(g[0]) && Complete(g)) || (g[0].role == User && g[0].name != Some(REPAIR_MESSAGE_NAME))
  }

  lemma {:induction false} CappedMeans(m: Message, maxChars: nat)
    ensures CappedTo(m, Capped(m, maxChars), maxChars)
  {
    hide TextContent;
  }

  lemma {:induction false} CappedExchange(g: Group, maxChars: nat)
    requires |g| > 0
    ensures var k := [g[0]] + CappedAll(g[1..], maxChars);
      ExchangeCappedTo(g, k, maxChars) && (Complete(k) <==> Complete(g))
  {
    var k := [g[0]] + CappedAll(g[1..], maxChars);
    forall i | 1 <= i < |g|
      ensures CappedTo(g[i], k[i], maxChars)
    {
      CappedMeans(g[i], maxChars);
    }
    hide CappedTo;
    forall id
      ensures id in ResultIds(k[1..]) <==> id in ResultIds(g[1..])
    {
      assert forall i :: 0 <= i < |g| - 1 ==> k[1..][i].toolCallId == g[1..][i].toolCallId;
      if id in ResultIds(g[1..]) {
        var i :| 0 <= i < |g| - 1 && g[1..][i].toolCallId == id;
        assert k[1..][i] in k[1..];
      }
      if id in ResultIds(k[1..]) {
        var i :| 0 <= i < |g| - 1 && k[1..][i].toolCallId == id;
        assert g[1..][i] in g[1..];
      }
    }
  }

  lemma {:induction false} CompleteHead(first: seq<Group>, tail: seq<Group>)
    requires |first| <= 1
    ensures CompleteOnly(first + tail) == CompleteOnly(first) + CompleteOnly(tail)
  {
    if first == [] {
      assert first + tail == tail;
    } else {
      assert (first + tail)[1..] == tail && first[1..] == [];
    }
  }

  /** What becomes of one group of the turn. */
  lemma {:induction false} GroupRemembered(g: Group, maxChars: nat)
    requires WellGrouped(g) && (g[0].toolCalls != [] ==> g[0].role == Assistant)
    ensures var kept := CompleteOnly(StepGroup(g, maxChars));
      if Remembered(g) then |kept| == 1 && ExchangeCappedTo(g, kept[0], maxChars) else kept == []
  {
    hide CappedTo, CallIds;
    NoCalls(g[0]);
    NoCallsNoResults(g);
    CappedExchange(g, maxChars);
    hide WellGrouped;
    var steps := StepGroup(g, maxChars);
    if steps != [] {
      assert steps == [steps[0]] && steps[1..] == [];
    }
  }

  /** From the group at `i` on: the groups kept, and where they come from. */
  lemma {:induction false} PickKept(hs: seq<Group>, i: nat, maxChars: nat) returns (from: seq<nat>, kept: seq<Group>)
    requires UniqueGroups(hs) && (forall g <- hs :: |g| > 0) && i <= |hs|
    ensures kept == CompleteOnly(StepGroups(hs[i..], maxChars))
    ensures IsPick(hs, i, maxChars, from, kept)
    decreases |hs| - i
  {
    if i == |hs| {
      from, kept := [], [];
    } else {
      var at, rest := PickKept(hs, i + 1, maxChars);
      assert hs[i..][1..] == hs[i + 1..] && hs[i..][0] == hs[i] && WellGrouped(hs[i]);
      GroupRemembered(hs[i], maxChars);
      CompleteHead(StepGroup(hs[i], maxChars), StepGroups(hs[i + 1..], maxChars));
      hide StepGroup, CompleteOnly, Remembered, ExchangeCappedTo, UniqueGroups, WellGrouped, IsPick;
      kept := CompleteOnly(StepGroup(hs[i], maxChars)) + rest;
      from := (if Remembered(hs[i]) then [i] else []) + at;
      PickOneMore(hs, i, maxChars, at, rest, CompleteOnly(StepGroup(hs[i], maxChars)));
    }
  }

  lemma {:induction false} PickOneMore(
    hs: seq<Group>, i: nat, maxChars: nat, at: seq<nat>, rest: seq<Group>, first: seq<Group>)
    requires (forall g <- hs :: |g| > 0) && i < |hs| && IsPick(hs, i + 1, maxChars, at, rest)
    requires if Remembered(hs[i]) then |first| == 1 && ExchangeCappedTo(hs[i], first[0], maxChars) else first == []
    ensures IsPick(hs, i, maxChars, (if Remembered(hs[i]) then [i] else []) + at, first + rest)
  {
    hide Remembered, ExchangeCappedTo;
    var one := if Remembered(hs[i]) then [i] else [];
    var from, kept := one + at, first + rest;
    assert |one| == |first|;
    forall p | 0 <= p < |from|
      ensures i <= from[p] < |hs| && ExchangeCappedTo(hs[from[p]], kept[p], maxChars)
      ensures forall q :: p < q < |from| ==> from[p] < from[q]
    {
      if p >= |one| {
        assert from[p] == at[p - |one|] && kept[p] == rest[p - |one|];
      }
      forall q | p < q < |from|
        ensures from[p] < from[q]
      {
        assert from[q] == at[q - |one|];
      }
    }
    assert i !in at;
    forall j
      ensures j in from <==> j in one || j in at
    {
    }
  }

  ghost predicate IsPick(hs: seq<Group>, i: nat, maxChars: nat, from: seq<nat>, kept: seq<Group>)
    requires (forall g <- hs :: |g| > 0) && i <= |hs|
  {
    && |from| == |kept|
    && (forall p :: 0 <= p < |from| ==>
          i <= from[p] < |hs| && ExchangeCappedTo(hs[from[p]], kept[p], maxChars))
    && (forall p, q :: 0 <= p < q < |from| ==> from[p] < from[q])
    && (forall j :: i <= j < |hs| ==> (j in from <==> Remembered(hs[j])))
  }

  lemma {:induction false} CompleteInside(question: Message, gs: seq<Group>, answer: seq<Message>)
    requires question.toolCalls == [] && forall m <- answer :: m.toolCalls == []
    ensures CompleteOnly([[question]] + gs + if answer == [] then [] else [answer])
      == [[question]] + CompleteOnly(gs) + if answer == [] then [] else [answer]
  {
    NoCalls(question);
    hide CallIds;
    var last := if answer == [] then [] else [answer];
    if answer != [] {
      assert answer[0] in answer;
      NoCalls(answer[0]);
    }
    assert ([[question]] + gs + last)[1..] == gs + last;
    CompleteSnoc(gs, last);
  }

  lemma {:induction false} CompleteSnoc(gs: seq<Group>, last: seq<Group>)
    requires |last| <= 1 && forall g <- last :: Complete(g)
    ensures CompleteOnly(gs + last) == CompleteOnly(gs) + last
  {
    hide Complete;
    if gs == [] {
      assert gs + last == last;
      if last != [] {
        assert last[0] in last && last[1..] == [] && last == [last[0]];
      }
    } else {
      assert (gs + last)[1..] == gs[1..] + last;
      CompleteSnoc(gs[1..], last);
    }
  }

  /** What a turn leaves in memory, exactly: its question, then of what came after the question was last
      asked the complete tool exchanges with their results capped and whatever else the user said except
      repair messages, all in order, and the final answer if there is one. */
  lemma {:induction false} TurnKeepsExactly(
    history: seq<Message>, input: string, output: string, maxChars: nat, question: Message)
    returns (hs: seq<Group>, from: seq<nat>, kept: seq<Group>)
    requires MessageGroups(history).Ok? && UniqueCalls(history)
    requires question.role == User && question.toolCalls == []
    ensures (forall g <- hs :: |g| > 0)
    ensures var start := LastAsked(history, input);
      Flatten(hs) == if start < 0 then [] else history[start + 1..]
    ensures IsPick(hs, 0, maxChars, from, kept)
    ensures TurnMessages(history, input, output, maxChars, question) ==
      [question] + Flatten(kept)
      + if output == "" then [] else [Message(Assistant, [TextBlock(output)], None, None, [])]
  {
    hide MessageGroups, UniqueCalls, TurnSteps, UniqueGroups, Flatten, LastAsked, StepGroups, TurnMessages;
    hide CompleteOnly, IsPick;
    var gs: seq<Group> := [];
    hs := [];
    NoGroups();
    if LastAsked(history, input) >= 0 {
      gs, hs := StepsAreGroups(history, LastAsked(history, input), maxChars);
    } else {
      NoStepGroups(maxChars);
    }
    from, kept := PickKept(hs, 0, maxChars);
    assert hs[0..] == hs;
    TurnOfGroups(history, input, output, maxChars, question, gs);
  }

  /** The cleanup of a turn whose steps are these groups keeps the question, the complete ones and the
      answer. */
  lemma {:induction false} TurnOfGroups(
    history: seq<Message>, input: string, output: string, maxChars: nat, question: Message, gs: seq<Group>)
    requires question.role == User && question.toolCalls == [] && UniqueGroups(gs)
    requires var start := LastAsked(history, input);
      Flatten(gs) == if start < 0 then [] else TurnSteps(history[start + 1..], maxChars)
    ensures TurnMessages(history, input, output, maxChars, question) ==
      [question] + Flatten(CompleteOnly(gs))
      + if output == "" then [] else [Message(Assistant, [TextBlock(output)], None, None, [])]
  {
    hide WholeToolExchanges, TurnSteps, UniqueGroups, Flatten, LastAsked, CompleteOnly;
    var answer := if output == "" then []
                  else [Message(Assistant, [TextBlock(output)], None, None, [])];
    TurnGroups(question, gs, answer);
    CompleteInside(question, gs, answer);
    StartsWithUser([[question]] + gs + if answer == [] then [] else [answer]);
    FlattenTurn(question, CompleteOnly(gs), answer);
  }

  lemma {:induction false} NoStepGroups(maxChars: nat)
    ensures StepGroups([], maxChars) == []
  {
  }

  lemma {:induction false} StartsWithUser(gs: seq<Group>)
    requires gs != [] && UniqueGroups(gs) && |gs[0]| > 0 && gs[0][0].role == User
    ensures WholeToolExchanges(Flatten(gs)) == Flatten(CompleteOnly(gs))
  {
    WholeOfGroups(gs);
  }

  lemma {:induction false} FlattenTurn(question: Message, kept: seq<Group>, answer: seq<Message>)
    ensures Flatten([[question]] + kept + if answer == [] then [] else [answer])
         == [question] + Flatten(kept) + answer
  {
    FlattenOne([question]);
    FlattenAppend([[question]], kept);
    if answer == [] {
      assert [[question]] + kept + [] == [[question]] + kept;
    } else {
      FlattenSnoc([[question]] + kept, answer);
    }
  }

  lemma {:induction false} UniqueSnoc(gs: seq<Group>, m: Message)
    requires UniqueGroups(gs) && m.role != Tool && m.toolCalls == []
    ensures UniqueGroups(gs + [[m]])
  {
    hide CallIds;
    NoCalls(m);
    assert WellGrouped([m]);
  }

  lemma {:induction false} TurnGroups(question: Message, gs: seq<Group>, answer: seq<Message>)
    requires UniqueGroups(gs)
    requires question.role == User && question.toolCalls == []
    requires |answer| <= 1 && forall m :: m in answer ==> m.role == Assistant && m.toolCalls == []
    ensures var all := [[question]] + gs + if answer == [] then [] else [answer];
      UniqueGroups(all) && Flatten(all) == [question] + Flatten(gs) + answer
  {
    hide CallIds, Flatten, WellGrouped, UniqueGroups;
    NoCalls(question);
    WellGroupedOne(question);
    AllNonEmptyGroups(gs);
    UniqueCons([question], gs);
    FlattenAppend([[question]], gs);
    FlattenOne([question]);
    var front := [[question]] + gs;
    if answer == [] {
      assert front + [] == front;
    } else {
      assert answer == [answer[0]] && answer[0] in answer;
      UniqueSnoc(front, answer[0]);
      FlattenSnoc(front, answer);
    }
  }

  lemma {:induction false} WellGroupedOne(m: Message)
    requires m.role != Tool
    ensures WellGrouped([m])
  {
  }

  lemma {:induction false} AllNonEmptyGroups(gs: seq<Group>)
    requires UniqueGroups(gs)
    ensures forall g :: g in gs ==> |g| > 0
  {
  }

  /** `initialize_history`: the fresh history it assembles. */
  function InitialHistory(instructions: Message, memory: seq<Message>, request: Message): seq<Message> {
    [instructions] + WholeToolExchanges(memory) + [request]
  }

  /** Whatever window of a well-formed memory log is loaded, the assembled history groups. */
  lemma {:induction false} InitialHistoryGroups(
    instructions: Message, log: seq<Message>, a: nat, b: nat, request: Message)
    requires MessageGroups(log).Ok? && UniqueCalls(log) && a <= b <= |log|
    requires instructions.role == System && request.role == User
    ensures var kept := WholeToolExchanges(log[a..b]);
      && MessageGroups(kept).Ok?
      && MessageGroups(InitialHistory(instructions, log[a..b], request))
           == Ok([[instructions]] + MessageGroups(kept).value + [[request]])
      && forall g :: g in MessageGroups(kept).value ==> Complete(g)
  {
    hide MessageGroups, WholeToolExchanges, WellGrouped;
    WindowBecomesSafe(log, a, b);
    var kept := WholeToolExchanges(log[a..b]);
    OneGroup(instructions);
    OneGroup(request);
    GroupsConcatenate([instructions], kept);
    GroupsConcatenate([instructions] + kept, [request]);
  }

  lemma {:induction false} OneGroup(m: Message)
    requires m.role != Tool
    ensures MessageGroups([m]) == Ok([[m]])
  {
    FlattenOne([m]);
    GroupingComplete([[m]]);
  }
}
