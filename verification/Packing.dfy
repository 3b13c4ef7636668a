/** Budgeted selection of the newest context: `pack_messages` and `shorten_tool_group`. */
module Packing {
  import opened Messages
  import opened Grouping

  /** `estimate_message`: any non-negative cost will do for everything proved here. */
  type Estimate = Message -> nat

  const SHORTENED_TOOL_RESULT_NOTE :=
    "\n[earlier tool result shortened to fit the context; it was already retrieved in this run]"

  // ---------------------------------------------------------------- shortening

  function ShortenBlock(b: Block, maxChars: nat): Block {
    if b.TextBlock? && |b.text| > maxChars
    then TextBlock(b.text[..maxChars] + SHORTENED_TOOL_RESULT_NOTE)
    else b
  }

  function ShortenBlocks(bs: seq<Block>, maxChars: nat): seq<Block> {
    seq(|bs|, i requires 0 <= i < |bs| => ShortenBlock(bs[i], maxChars))
  }

  function ShortenMessage(m: Message, maxChars: nat): Message {
    m.(content := ShortenBlocks(m.content, maxChars))
  }

  predicate HasLongText(m: Message, maxChars: nat) {
    exists b :: b in m.content && b.TextBlock? && |b.text| > maxChars
  }

  function ShortenResults(ms: seq<Message>, maxChars: nat): seq<Message> {
    seq(|ms|, i requires 0 <= i < |ms| => ShortenMessage(ms[i], maxChars))
  }

  function ShortenToolGroup(g: Group, maxChars: nat): Option<Group>
    requires |g| > 0
  {
    if g[0].role != Assistant || g[0].toolCalls == [] then None
    else if exists m :: m in g[1..] && HasLongText(m, maxChars)
    then Some([g[0]] + ShortenResults(g[1..], maxChars))
    else None
  }

  /** The two nested loops of `shorten_tool_group`. */
  method ShortenGroup(g: Group, maxChars: nat) returns (r: Option<Group>)
    requires |g| > 0
    ensures r == ShortenToolGroup(g, maxChars)
  {
    if g[0].role != Assistant || g[0].toolCalls == [] {
      return None;
    }
    var results := g[1..];
    var shortened, changed := [], false;
    for i := 0 to |results|
      invariant shortened == ShortenResults(results[..i], maxChars)
      invariant changed <==> exists m :: m in results[..i] && HasLongText(m, maxChars)
    {
      var message, blocks, cut := results[i], [], false;
      for j := 0 to |message.content|
        invariant blocks == ShortenBlocks(message.content[..j], maxChars)
        invariant cut <==>
          exists b :: b in message.content[..j] && b.TextBlock? && |b.text| > maxChars
      {
        var block := message.content[j];
        assert message.content[..j + 1] == message.content[..j] + [block];
        if block.TextBlock? && |block.text| > maxChars {
          cut := true;
          block := TextBlock(block.text[..maxChars] + SHORTENED_TOOL_RESULT_NOTE);
        }
        blocks := blocks + [block];
      }
      assert message.content[..|message.content|] == message.content;
      assert cut == HasLongText(message, maxChars);
      assert results[..i + 1] == results[..i] + [message];
      changed := changed || cut;
      shortened := shortened + [message.(content := blocks)];
    }
    assert results[..|results|] == results;
    r := if changed then Some([g[0]] + shortened) else None;
  }

  /** The group is a tool exchange with a text block in a result that is longer than `maxChars`. */
  ghost predicate HasLongResult(g: Group, maxChars: nat)
    requires |g| > 0
  {
    && g[0].role == Assistant && g[0].toolCalls != []
    && exists i, j :: 1 <= i < |g| && 0 <= j < |g[i].content| && IsLong(g[i].content[j], maxChars)
  }

  ghost predicate IsLong(b: Block, maxChars: nat) {
    b.TextBlock? && |b.text| > maxChars
  }

  /** Of a long text block the first `maxChars` characters are left, and the note; any other block
      is as it was. */
  ghost predicate BlockCutTo(b: Block, short: Block, maxChars: nat) {
    if IsLong(b, maxChars)
    then
      && short.TextBlock? && |short.text| == maxChars + |SHORTENED_TOOL_RESULT_NOTE|
      && (forall k :: 0 <= k < maxChars ==> short.text[k] == b.text[k])
      && short.text[maxChars..] == SHORTENED_TOOL_RESULT_NOTE
    else short == b
  }

  ghost predicate ResultCutTo(m: Message, short: Message, maxChars: nat) {
    && short == m.(content := short.content) && |short.content| == |m.content|
    && forall j :: 0 <= j < |m.content| ==> BlockCutTo(m.content[j], short.content[j], maxChars)
  }

  ghost predicate ExchangeCutTo(g: Group, short: Group, maxChars: nat)
    requires |g| > 0
  {
    && |short| == |g| && short[0] == g[0]
    && forall i :: 1 <= i < |g| ==> ResultCutTo(g[i], short[i], maxChars)
  }

  lemma {:induction false} LongResultMeans(g: Group, maxChars: nat)
    requires |g| > 0
    ensures ShortenToolGroup(g, maxChars).Some? <==> HasLongResult(g, maxChars)
  {
    if HasLongResult(g, maxChars) {
      var i, j :| 1 <= i < |g| && 0 <= j < |g[i].content| && IsLong(g[i].content[j], maxChars);
      assert g[1..][i - 1] == g[i];
      assert g[i].content[j] in g[i].content && HasLongText(g[i], maxChars);
    }
    if ShortenToolGroup(g, maxChars).Some? {
      var m :| m in g[1..] && HasLongText(m, maxChars);
      var i :| 0 <= i < |g[1..]| && g[1..][i] == m;
      assert g[i + 1] == m;
    }
    hide ShortenResults;
  }

  lemma {:induction false} ResultIsCut(m: Message, maxChars: nat)
    ensures ResultCutTo(m, ShortenMessage(m, maxChars), maxChars)
  {
  }

  /** Shortening cuts exactly the long text blocks of the results, each to its beginning and the note,
      and is refused exactly where there is none. */
  lemma {:induction false} ShorteningKeepsBeginnings(g: Group, maxChars: nat)
    requires |g| > 0
    ensures ShortenToolGroup(g, maxChars).Some? <==> HasLongResult(g, maxChars)
    ensures ShortenToolGroup(g, maxChars).Some? ==>
              ExchangeCutTo(g, ShortenToolGroup(g, maxChars).value, maxChars)
  {
    LongResultMeans(g, maxChars);
    hide HasLongResult, HasLongText, ShortenMessage, ResultCutTo;
    if ShortenToolGroup(g, maxChars).Some? {
      forall i | 1 <= i < |g|
        ensures ResultCutTo(g[i], ShortenToolGroup(g, maxChars).value[i], maxChars)
      {
        ResultIsCut(g[i], maxChars);
      }
    }
  }

  /** A shortened exchange is still the same exchange: same head, same answered ids in the same
      order, same roles and names, so it groups as before. */
  lemma {:induction false} ShorteningKeepsExchange(g: Group, maxChars: nat)
    requires |g| > 0 && ShortenToolGroup(g, maxChars).Some?
    ensures var s := ShortenToolGroup(g, maxChars).value;
      && |s| == |g|
      && s[0] == g[0]
      && (forall i :: 0 <= i < |g| ==>
            s[i].role == g[i].role && s[i].name == g[i].name &&
            s[i].toolCallId == g[i].toolCallId && s[i].toolCalls == g[i].toolCalls)
      && (WellGrouped(g) ==> WellGrouped(s))
      && Pinned(s) == Pinned(g)
  {
    var s := ShortenToolGroup(g, maxChars).value;
    forall i | 1 <= i < |g|
      ensures s[i] == ShortenMessage(g[i], maxChars)
    {
      assert s[i] == ShortenResults(g[1..], maxChars)[i - 1];
    }
    SamePins(s, g);
  }

  lemma {:induction false} SamePins(s: Group, g: Group)
    requires |s| == |g|
    requires forall i :: 0 <= i < |g| ==> s[i].role == g[i].role && s[i].name == g[i].name
    ensures Pinned(s) == Pinned(g)
  {
    assert forall i :: 0 <= i < |g| ==> PinnedMessage(s[i]) == PinnedMessage(g[i]);
  }

  // ---------------------------------------------------------------- required groups

  predicate PinnedMessage(m: Message) {
    || m.role == System
    || (m.role == Assistant && m.name in {
          Some(CONTEXT_SUMMARY_NAME), Some(WORKING_STATE_NAME),
          Some(SKILL_CATALOG_NAME), Some(LOADED_SKILLS_NAME)})
  }

  predicate Pinned(g: Group) {
    exists i :: 0 <= i < |g| && PinnedMessage(g[i])
  }

  /** The groups `pack_messages` may not drop: pinned ones, the last one, the latest user one. */
  predicate Required(gs: seq<Group>, i: nat)
    requires forall g :: g in gs ==> |g| > 0
    requires i < |gs|
  {
    || Pinned(gs[i])
    || i == |gs| - 1
    || (gs[i][0].role == User && forall j :: i < j < |gs| ==> gs[j][0].role != User)
  }

  datatype Slot = Slot(group: Group, required: bool)

  /** Marks the required groups from newest to oldest. `last` says the end of `gs` is the end
      of the context; `sawUser` says a newer user group exists. */
  function Mark(gs: seq<Group>, last: bool, sawUser: bool): (fs: seq<Slot>)
    requires forall g :: g in gs ==> |g| > 0
    ensures |fs| == |gs| && NonEmptyGroups(fs)
  {
    if gs == [] then []
    else
      var g := gs[|gs| - 1];
      var isUser := g[0].role == User;
      Mark(gs[..|gs| - 1], false, sawUser || isUser)
      + [Slot(g, Pinned(g) || last || (isUser && !sawUser))]
  }

  function Unmark(fs: seq<Slot>): (gs: seq<Group>)
    ensures |gs| == |fs|
  {
    seq(|fs|, i requires 0 <= i < |fs| => fs[i].group)
  }

  /** Marking by scanning agrees with the index-wise definition. */
  lemma {:induction false} MarkMeaning(gs: seq<Group>, last: bool, sawUser: bool, i: nat)
    requires forall g :: g in gs ==> |g| > 0
    requires i < |gs|
    ensures var f := Mark(gs, last, sawUser)[i];
      && f.group == gs[i]
      && (f.required <==>
            || Pinned(gs[i])
            || (last && i == |gs| - 1)
            || (!sawUser && gs[i][0].role == User
                && forall j :: i < j < |gs| ==> gs[j][0].role != User))
    decreases |gs|
  {
    if i < |gs| - 1 {
      var front, g := gs[..|gs| - 1], gs[|gs| - 1];
      MarkMeaning(front, false, sawUser || g[0].role == User, i);
      assert forall j :: i < j < |front| ==> front[j] == gs[j];
    }
  }

  lemma {:induction false} MarkIsRequired(gs: seq<Group>)
    requires forall g :: g in gs ==> |g| > 0
    ensures Unmark(Mark(gs, true, false)) == gs
    ensures forall i :: 0 <= i < |gs| ==> (Mark(gs, true, false)[i].required <==> Required(gs, i))
  {
    forall i | 0 <= i < |gs|
      ensures Mark(gs, true, false)[i].group == gs[i]
      ensures Mark(gs, true, false)[i].required <==> Required(gs, i)
    {
      MarkMeaning(gs, true, false, i);
    }
  }

  // ---------------------------------------------------------------- greedy selection

  function Cost(c: Estimate, g: Group): nat {
    if g == [] then 0 else c(g[0]) + Cost(c, g[1..])
  }

  function TotalCost(c: Estimate, fs: seq<Slot>): nat {
    if fs == [] then 0 else TotalCost(c, fs[..|fs| - 1]) + Cost(c, fs[|fs| - 1].group)
  }

  function RequiredCost(c: Estimate, fs: seq<Slot>): nat {
    if fs == [] then 0
    else
      var f := fs[|fs| - 1];
      RequiredCost(c, fs[..|fs| - 1]) + if f.required then Cost(c, f.group) else 0
  }

  function OnlyRequired(fs: seq<Slot>): seq<Slot> {
    if fs == [] then []
    else
      var f := fs[|fs| - 1];
      OnlyRequired(fs[..|fs| - 1]) + if f.required then [f] else []
  }

  predicate NonEmptyGroups(fs: seq<Slot>) {
    forall f :: f in fs ==> |f.group| > 0
  }

  function Shorter(shorten: Option<nat>, g: Group): Option<Group>
    requires |g| > 0
  {
    if shorten.Some? then ShortenToolGroup(g, shorten.value) else None
  }

  /** What happens to one group when `remaining` is left for groups that are not required. */
  datatype Choice = Stop | Take(slot: Slot, rest: int)

  function Choose(c: Estimate, shorten: Option<nat>, f: Slot, remaining: int): Choice
    requires |f.group| > 0
  {
    if f.required then Take(f, remaining)
    else if Cost(c, f.group) <= remaining then Take(f, remaining - Cost(c, f.group))
    else
      match Shorter(shorten, f.group)
      case None => Stop
      case Some(s) =>
        if Cost(c, s) > remaining then Stop else Take(Slot(s, false), remaining - Cost(c, s))
  }

  /** Newest to oldest; the first group that fits neither whole nor shortened ends the selection,
      after which only required groups are kept. */
  function Keep(c: Estimate, shorten: Option<nat>, fs: seq<Slot>, remaining: int): seq<Slot>
    requires NonEmptyGroups(fs)
  {
    if fs == [] then []
    else
      var front := fs[..|fs| - 1];
      match Choose(c, shorten, fs[|fs| - 1], remaining)
      case Stop => OnlyRequired(front)
      case Take(slot, rest) => Keep(c, shorten, front, rest) + [slot]
  }

  function Pack(c: Estimate, ms: seq<Message>, budget: int, shorten: Option<nat>)
    : Result<seq<Message>, ContextError>
  {
    if ms == [] then Ok([])
    else
      match MessageGroups(ms)
      case Err(e) => Err(e)
      case Ok(gs) =>
        var fs := Marked(gs);
        var remaining := budget - RequiredCost(c, fs);
        if remaining < 0 then Err(BudgetExceeded)
        else Ok(Flatten(Unmark(Keep(c, shorten, fs, remaining))))
  }

  function Marked(gs: seq<Group>): (fs: seq<Slot>)
    requires forall g :: g in gs ==> |g| > 0
    ensures Unmark(fs) == gs
    ensures NonEmptyGroups(fs)
  {
    MarkIsRequired(gs);
    Mark(gs, true, false)
  }
}
