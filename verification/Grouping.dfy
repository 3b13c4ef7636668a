/** Tool exchanges as atomic groups: `message_groups`. */
module Grouping {
  import opened Messages

  type Group = seq<Message>

  /** One non-tool message followed by results that all answer its calls. */
  ghost predicate WellGrouped(g: Group) {
    && |g| > 0
    && g[0].role != Tool
    && forall i :: 1 <= i < |g| ==> g[i].role == Tool && g[i].toolCallId in CallIds(g[0])
  }

  ghost predicate AllWellGrouped(gs: seq<Group>) {
    forall i :: 0 <= i < |gs| ==> WellGrouped(gs[i])
  }

  /** What one more message does to the groups built so far. */
  function AddMessage(gs: seq<Group>, m: Message): Result<seq<Group>, ContextError>
    requires forall g :: g in gs ==> |g| > 0
  {
    if m.role == Tool then
      if gs == [] || m.toolCallId !in CallIds(gs[|gs| - 1][0]) then Err(Conflict)
      else Ok(gs[..|gs| - 1] + [gs[|gs| - 1] + [m]])
    else
      Ok(gs + [[m]])
  }

  function MessageGroups(ms: seq<Message>): (r: Result<seq<Group>, ContextError>)
    ensures r.Ok? ==> forall g :: g in r.value ==> |g| > 0
  {
    if ms == [] then Ok([])
    else
      match MessageGroups(ms[..|ms| - 1])
      case Err(e) => Err(e)
      case Ok(gs) => AddMessage(gs, ms[|ms| - 1])
  }

  /** The loop of `message_groups`. */
  method GroupMessages(messages: seq<Message>) returns (r: Result<seq<Group>, ContextError>)
    ensures r == MessageGroups(messages)
  {
    var groups: seq<Group> := [];
    for i := 0 to |messages|
      invariant MessageGroups(messages[..i]) == Ok(groups)
    {
      var message := messages[i];
      assert messages[..i + 1][..i] == messages[..i];
      if message.role == Tool {
        if |groups| == 0 || message.toolCallId !in CallIds(groups[|groups| - 1][0]) {
          ConflictPersists(messages, i + 1);
          return Err(Conflict);
        }
        groups := groups[..|groups| - 1] + [groups[|groups| - 1] + [message]];
      } else {
        groups := groups + [[message]];
      }
    }
    assert messages[..|messages|] == messages;
    r := Ok(groups);
  }

  lemma {:induction false} ConflictPersists(ms: seq<Message>, n: nat)
    requires n <= |ms|
    requires MessageGroups(ms[..n]).Err?
    ensures MessageGroups(ms) == Err(Conflict)
    decreases |ms|
  {
    if n == |ms| {
      assert ms[..n] == ms;
      var front := ms[..|ms| - 1];
      if MessageGroups(front).Err? {
        assert front[..|front|] == front;
        ConflictPersists(front, |front|);
      }
    } else {
      assert ms[..|ms| - 1][..n] == ms[..n];
      ConflictPersists(ms[..|ms| - 1], n);
    }
  }

  lemma {:induction false} AddMessageSound(gs: seq<Group>, m: Message)
    requires AllWellGrouped(gs) && forall g :: g in gs ==> |g| > 0
    requires AddMessage(gs, m).Ok?
    ensures AllWellGrouped(AddMessage(gs, m).value)
    ensures Flatten(AddMessage(gs, m).value) == Flatten(gs) + [m]
  {
    hide Flatten;
    if m.role == Tool {
      var last := gs[|gs| - 1];
      assert WellGrouped(last) && WellGrouped(last + [m]);
      FlattenUnsnoc(gs);
      FlattenSnoc(gs[..|gs| - 1], last + [m]);
    } else {
      assert WellGrouped([m]);
      FlattenSnoc(gs, [m]);
    }
  }

  lemma {:induction false} GroupingSound(ms: seq<Message>)
    requires MessageGroups(ms).Ok?
    ensures AllWellGrouped(MessageGroups(ms).value)
    ensures Flatten(MessageGroups(ms).value) == ms
  {
    if ms != [] {
      hide Flatten, AddMessage, AllWellGrouped;
      var front, m := ms[..|ms| - 1], ms[|ms| - 1];
      GroupingSound(front);
      AddMessageSound(MessageGroups(front).value, m);
      assert ms == front + [m];
    }
  }

  lemma {:induction false} GroupAppended(ms: seq<Message>, gs: seq<Group>, g: Group)
    requires MessageGroups(ms) == Ok(gs)
    requires WellGrouped(g)
    ensures MessageGroups(ms + g) == Ok(gs + [g])
    decreases |g|
  {
    var front, m := g[..|g| - 1], g[|g| - 1];
    assert (ms + g)[..|ms + g| - 1] == ms + front;
    if |g| == 1 {
      assert ms + front == ms;
      assert [m] == g;
    } else {
      GroupAppended(ms, gs, front);
      assert (gs + [front])[..|gs|] == gs;
      assert front + [m] == g;
    }
  }

  lemma {:induction false} GroupingComplete(gs: seq<Group>)
    requires AllWellGrouped(gs)
    ensures MessageGroups(Flatten(gs)) == Ok(gs)
  {
    if gs != [] {
      hide MessageGroups, Flatten, WellGrouped;
      var front := gs[..|gs| - 1];
      GroupingComplete(front);
      FlattenUnsnoc(gs);
      GroupAppended(Flatten(front), front, gs[|gs| - 1]);
      assert gs == front + [gs[|gs| - 1]];
    }
  }

  /** `message_groups` succeeds exactly on concatenations of well-formed exchanges, and then
      returns the only such decomposition. */
  lemma {:induction false} GroupingIsExact(ms: seq<Message>, gs: seq<Group>)
    ensures MessageGroups(ms) == Ok(gs) <==> AllWellGrouped(gs) && Flatten(gs) == ms
    ensures MessageGroups(ms).Err? ==> MessageGroups(ms) == Err(Conflict)
  {
    if MessageGroups(ms).Ok? {
      GroupingSound(ms);
    } else {
      assert ms[..|ms|] == ms;
      ConflictPersists(ms, |ms|);
    }
    if AllWellGrouped(gs) && Flatten(gs) == ms {
      GroupingComplete(gs);
    }
  }

  /** Groupable runs of messages concatenate group by group. */
  lemma {:induction false} GroupsConcatenate(a: seq<Message>, b: seq<Message>)
    requires MessageGroups(a).Ok? && MessageGroups(b).Ok?
    ensures MessageGroups(a + b) == Ok(MessageGroups(a).value + MessageGroups(b).value)
  {
    GroupingSound(a);
    GroupingSound(b);
    var gs := MessageGroups(a).value + MessageGroups(b).value;
    FlattenAppend(MessageGroups(a).value, MessageGroups(b).value);
    GroupingComplete(gs);
  }
}
