/** Packing with shortening: what a second stage makes of it, and when a larger budget keeps more. */
module ShortenedPacking {
  import opened Messages
  import opened Grouping
  import opened Packing
  import opened PackingLaws

  // ---------------------------------------------------------------- a second stage

  /** The builder packs, shortening if its policy says so, and the router packs what is left to the
      model's limit, never shortening. This fails exactly when the required groups exceed the smaller
      limit; otherwise it keeps the required groups and a newest run of the first stage's groups,
      which is maximal. */
  lemma {:induction false} ShortenThenPack(
    c: Estimate, ms: seq<Message>, b1: int, shorten: Option<nat>, b2: int) returns (cut: nat)
    requires ms != [] && MessageGroups(ms).Ok?
    ensures var fs := Marked(MessageGroups(ms).value);
      var both := PackThen(c, Pack(c, ms, b1, shorten), b2, None);
      && (both.Err? <==> RequiredCost(c, fs) > Min(b1, b2))
      && (both.Err? ==> both == Err(BudgetExceeded))
      && (both.Ok? ==>
            var first := Keep(c, shorten, fs, b1 - RequiredCost(c, fs));
            && cut <= |first| && NonEmptyGroups(first)
            && var kept := OnlyRequired(first[..cut]) + first[cut..];
            && MessageGroups(both.value) == Ok(Unmark(kept))
            && OnlyRequired(kept) == OnlyRequired(first) == OnlyRequired(fs)
            && Cost(c, both.value) <= Min(b1, b2)
            && NothingMoreFits(c, None, first, cut, b2 - Cost(c, both.value)))
  {
    hide Keep, Mark, Choose, MessageGroups, Marked, Unmark, Flatten, RequiredCost, OnlyRequired;
    hide TotalCost, NewestRun, NothingMoreFits, ShortCut;
    var fs := Marked(MessageGroups(ms).value);
    var q := RequiredCost(c, fs);
    cut := 0;
    if b1 >= q {
      var first := Keep(c, shorten, fs, b1 - q);
      RepackView(c, shorten, ms, b1 - q);
      KeepAccounts(c, shorten, fs, b1 - q);
      if b2 >= q {
        var out := Flatten(Unmark(first));
        var run;
        cut, run := PackedShape(c, out, b2, None);
        WholeRun(first, cut, run);
        assert first[..cut] + first[cut..] == first;
        FlatCost(c, first);
        FlatCost(c, Keep(c, None, first, b2 - q));
        KeepAtMost(c, first, b2 - q);
      }
    }
  }

  lemma {:induction false} WholeRun(fs: seq<Slot>, cut: nat, run: seq<Slot>)
    requires NonEmptyGroups(fs) && NewestRun(None, fs, cut, run)
    ensures run == fs[cut..]
  {
    assert forall i :: 0 <= i < |run| ==> Taken(None, fs[cut + i], run[i]);
  }

  /** Without shortening, selecting never costs more. */
  lemma {:induction false} KeepAtMost(c: Estimate, fs: seq<Slot>, r: int)
    requires NonEmptyGroups(fs)
    ensures TotalCost(c, Keep(c, None, fs, r)) <= TotalCost(c, fs)
  {
    hide Keep, Choose, Cost, RequiredCost, TotalCost, OnlyRequired;
    KeepUnfold(c, None, fs, r);
    if fs != [] {
      var front, f := fs[..|fs| - 1], fs[|fs| - 1];
      TotalUnfold(c, fs);
      ChooseWhole(c, f, r);
      match Choose(c, None, f, r)
      case Stop =>
        OnlyRequiredIsStable(c, None, front, r);
        RequiredAtMostTotal(c, front);
      case Take(s, rest) =>
        KeepAtMost(c, front, rest);
        Snoc(c, Keep(c, None, front, rest), s);
    }
  }

  // ---------------------------------------------------------------- larger budgets

  /** The estimate of a message is at least 1. */
  ghost predicate Positive(c: Estimate) {
    forall m :: c(m) >= 1
  }

  /** The positions kept when `r` is left for groups that are not required. */
  function KeptAt(c: Estimate, shorten: Option<nat>, fs: seq<Slot>, r: int): set<nat>
    requires NonEmptyGroups(fs)
  {
    set i | 0 <= i < |fs| && (fs[i].required || ShortCut(c, shorten, fs, r) <= i)
  }

  /** The least that keeping the group can cost. */
  function Need(c: Estimate, shorten: Option<nat>, f: Slot): nat
    requires |f.group| > 0
  {
    match Shorter(shorten, f.group)
    case None => Cost(c, f.group)
    case Some(s) => if Cost(c, s) < Cost(c, f.group) then Cost(c, s) else Cost(c, f.group)
  }

  /** The newest group that is not required, or -1. */
  function LastOpen(fs: seq<Slot>): (j: int)
    ensures -1 <= j < |fs| && (j >= 0 ==> !fs[j].required)
    ensures forall i :: j < i < |fs| ==> fs[i].required
  {
    if fs == [] then -1
    else if !fs[|fs| - 1].required then |fs| - 1
    else LastOpen(fs[..|fs| - 1])
  }

  /** Shortening group `i` saves more than the next older group needs. */
  ghost predicate SavesTooMuch(c: Estimate, shorten: Option<nat>, fs: seq<Slot>, i: nat)
    requires NonEmptyGroups(fs)
  {
    && i < |fs| && !fs[i].required && Shorter(shorten, fs[i].group).Some?
    && var j := LastOpen(fs[..i]);
       j >= 0 && Cost(c, fs[i].group) - Cost(c, Shorter(shorten, fs[i].group).value) > Need(c, shorten, fs[j])
  }

  ghost predicate SavesLittle(c: Estimate, shorten: Option<nat>, fs: seq<Slot>)
    requires NonEmptyGroups(fs)
  {
    forall i :: !SavesTooMuch(c, shorten, fs, i)
  }

  lemma {:induction false} CostPositive(c: Estimate, g: Group)
    requires Positive(c) && |g| > 0
    ensures Cost(c, g) >= 1
  {
    assert c(g[0]) >= 1;
  }

  lemma {:induction false} NeedPositive(c: Estimate, shorten: Option<nat>, f: Slot)
    requires Positive(c) && |f.group| > 0
    ensures Need(c, shorten, f) >= 1
  {
    CostPositive(c, f.group);
    if Shorter(shorten, f.group).Some? {
      ShorteningKeepsExchange(f.group, shorten.value);
      CostPositive(c, Shorter(shorten, f.group).value);
    }
  }

  /** A group that is not required is kept exactly if what it needs is left. */
  lemma {:induction false} ChooseNeeds(c: Estimate, shorten: Option<nat>, f: Slot, r: int)
    requires |f.group| > 0 && !f.required
    ensures Choose(c, shorten, f, r).Stop? <==> r < Need(c, shorten, f)
    ensures Choose(c, shorten, f, r).Take? ==>
      Choose(c, shorten, f, r).rest ==
        if Cost(c, f.group) <= r then r - Cost(c, f.group) else r - Cost(c, Shorter(shorten, f.group).value)
    ensures Choose(c, shorten, f, r).Take? && Cost(c, f.group) > r ==> Shorter(shorten, f.group).Some?
  {
  }

  /** The selection stops at the newest open group at the latest, and there if that is too costly. */
  lemma {:induction false} CutAtLastOpen(c: Estimate, shorten: Option<nat>, fs: seq<Slot>, r: int)
    requires NonEmptyGroups(fs)
    ensures ShortCut(c, shorten, fs, r) <= LastOpen(fs) + 1
    ensures LastOpen(fs) >= 0 ==>
      (r < Need(c, shorten, fs[LastOpen(fs)]) <==> ShortCut(c, shorten, fs, r) == LastOpen(fs) + 1)
  {
    if fs != [] {
      hide Need, Choose, ShortCut;
      ShortCutUnfold(c, shorten, fs, r);
      var f := fs[|fs| - 1];
      if f.required {
        ChooseFits(c, shorten, f, r);
        CutAtLastOpen(c, shorten, fs[..|fs| - 1], r);
      } else {
        ChooseNeeds(c, shorten, f, r);
      }
    }
  }

  lemma {:induction false} FrontSavesLittle(c: Estimate, shorten: Option<nat>, fs: seq<Slot>)
    requires NonEmptyGroups(fs) && fs != [] && SavesLittle(c, shorten, fs)
    ensures SavesLittle(c, shorten, fs[..|fs| - 1])
  {
    var front := fs[..|fs| - 1];
    forall i: nat
      ensures !SavesTooMuch(c, shorten, front, i)
    {
      if i < |front| {
        assert fs[..i] == front[..i];
        assert !SavesTooMuch(c, shorten, fs, i);
      }
    }
  }

  lemma {:induction false} LittleSavingKeepsMore(
    c: Estimate, shorten: Option<nat>, fs: seq<Slot>, small: int, large: int)
    requires NonEmptyGroups(fs) && small <= large && SavesLittle(c, shorten, fs)
    ensures ShortCut(c, shorten, fs, large) <= ShortCut(c, shorten, fs, small)
  {
    if fs != [] {
      var front, f := fs[..|fs| - 1], fs[|fs| - 1];
      FrontSavesLittle(c, shorten, fs);
      assert !SavesTooMuch(c, shorten, fs, |fs| - 1);
      ShortCutUnfold(c, shorten, fs, small);
      ShortCutUnfold(c, shorten, fs, large);
      hide Need, Choose, ShortCut, Cost, Shorter;
      if f.required {
        ChooseFits(c, shorten, f, small);
        ChooseFits(c, shorten, f, large);
        hide SavesTooMuch;
        LittleSavingKeepsMore(c, shorten, front, small, large);
      } else {
        ChooseNeeds(c, shorten, f, small);
        ChooseNeeds(c, shorten, f, large);
        if small >= Need(c, shorten, f) {
          var a, b := Choose(c, shorten, f, small).rest, Choose(c, shorten, f, large).rest;
          if a <= b {
            hide SavesTooMuch;
            LittleSavingKeepsMore(c, shorten, front, a, b);
          } else {
            CutAtLastOpen(c, shorten, front, a);
            CutAtLastOpen(c, shorten, front, b);
          }
        }
      }
    }
  }

  /** What the open groups after `i` cost whole. */
  function NewerCost(c: Estimate, fs: seq<Slot>, i: nat): nat
    requires i <= |fs|
    decreases |fs|
  {
    if |fs| == i then 0
    else
      var f := fs[|fs| - 1];
      NewerCost(c, fs[..|fs| - 1], i) + if f.required then 0 else Cost(c, f.group)
  }

  lemma {:induction false} ShortCutFits(c: Estimate, shorten: Option<nat>, fs: seq<Slot>, r: int)
    requires NonEmptyGroups(fs) && fs != []
    requires fs[|fs| - 1].required || Cost(c, fs[|fs| - 1].group) <= r
    ensures var front, f := fs[..|fs| - 1], fs[|fs| - 1];
      ShortCut(c, shorten, fs, r) == ShortCut(c, shorten, front, if f.required then r else r - Cost(c, f.group))
  {
    hide ShortCut, Choose, Cost;
    ShortCutUnfold(c, shorten, fs, r);
    ChooseFits(c, shorten, fs[|fs| - 1], r);
  }

  lemma {:induction false} PastNewer(c: Estimate, shorten: Option<nat>, fs: seq<Slot>, i: nat, r: nat)
    requires NonEmptyGroups(fs) && i <= |fs|
    ensures ShortCut(c, shorten, fs, NewerCost(c, fs, i) + r) == ShortCut(c, shorten, fs[..i], r)
    decreases |fs|
  {
    hide ShortCut, Choose, Cost;
    if |fs| == i {
      assert fs[..i] == fs;
    } else {
      var front := fs[..|fs| - 1];
      PastNewer(c, shorten, front, i, r);
      assert front[..i] == fs[..i];
      ShortCutFits(c, shorten, fs, NewerCost(c, fs, i) + r);
    }
  }

  lemma {:induction false} ShortCutTakes(c: Estimate, shorten: Option<nat>, fs: seq<Slot>, r: int, rest: int)
    requires NonEmptyGroups(fs) && fs != [] && Choose(c, shorten, fs[|fs| - 1], r).Take?
    requires Choose(c, shorten, fs[|fs| - 1], r).rest == rest
    ensures ShortCut(c, shorten, fs, r) == ShortCut(c, shorten, fs[..|fs| - 1], rest)
  {
    hide Choose, ShortCut;
    ShortCutUnfold(c, shorten, fs, r);
  }

  /** At a group that is taken, the selection goes on with the rest. */
  lemma {:induction false} PastTaken(c: Estimate, shorten: Option<nat>, fs: seq<Slot>, i: nat, r: nat, rest: int)
    requires NonEmptyGroups(fs) && i < |fs| && !fs[i].required && r >= Need(c, shorten, fs[i])
    requires Cost(c, fs[i].group) <= r ==> rest == r - Cost(c, fs[i].group)
    requires Cost(c, fs[i].group) > r && Shorter(shorten, fs[i].group).Some? ==>
               rest == r - Cost(c, Shorter(shorten, fs[i].group).value)
    ensures ShortCut(c, shorten, fs, NewerCost(c, fs, i + 1) + r) == ShortCut(c, shorten, fs[..i], rest)
  {
    ChooseNeeds(c, shorten, fs[i], r);
    assert Choose(c, shorten, fs[i], r).Take? && Choose(c, shorten, fs[i], r).rest == rest;
    hide Need, Choose, ShortCut, Cost, Shorter, NewerCost;
    PastNewer(c, shorten, fs, i + 1, r);
    assert fs[..i + 1][..i] == fs[..i] && fs[..i + 1][i] == fs[i];
    ShortCutTakes(c, shorten, fs[..i + 1], r, rest);
  }

  /** With just enough for its short form and the older group, both are kept; with just enough for
      the whole, the older one is lost. */
  lemma {:induction false} MuchSavingKeepsLess(c: Estimate, shorten: Option<nat>, fs: seq<Slot>, i: nat)
    returns (small: nat, large: nat)
    requires Positive(c) && NonEmptyGroups(fs) && SavesTooMuch(c, shorten, fs, i)
    ensures small < large
    ensures LastOpen(fs[..i]) >= 0 && ShortCut(c, shorten, fs, small) <= LastOpen(fs[..i])
    ensures ShortCut(c, shorten, fs, large) == LastOpen(fs[..i]) + 1
  {
    var f, older := fs[i], fs[..i];
    var next, short := older[LastOpen(older)], Cost(c, Shorter(shorten, f.group).value);
    var need, whole := Need(c, shorten, next), Cost(c, f.group);
    NeedPositive(c, shorten, next);
    assert short + need < whole && Need(c, shorten, f) <= short;
    small, large := NewerCost(c, fs, i + 1) + (short + need), NewerCost(c, fs, i + 1) + whole;
    hide Need, Choose, ShortCut, Cost, Shorter, NewerCost, SavesTooMuch, Positive, LastOpen;
    PastTaken(c, shorten, fs, i, short + need, need);
    PastTaken(c, shorten, fs, i, whole, 0);
    CutAtLastOpen(c, shorten, older, need);
    CutAtLastOpen(c, shorten, older, 0);
  }

  /** The cut decides what is kept. */
  lemma {:induction false} CutIsOpen(c: Estimate, shorten: Option<nat>, fs: seq<Slot>, r: int)
    requires NonEmptyGroups(fs)
    ensures var cut := ShortCut(c, shorten, fs, r); cut > 0 ==> !fs[cut - 1].required
  {
    if fs != [] {
      hide ShortCut;
      ShortCutUnfold(c, shorten, fs, r);
      ChooseFits(c, shorten, fs[|fs| - 1], r);
      match Choose(c, shorten, fs[|fs| - 1], r)
      case Stop =>
      case Take(_, rest) => CutIsOpen(c, shorten, fs[..|fs| - 1], rest);
    }
  }

  lemma {:induction false} KeptByCut(c: Estimate, shorten: Option<nat>, fs: seq<Slot>, small: int, large: int)
    requires NonEmptyGroups(fs)
    ensures KeptAt(c, shorten, fs, small) <= KeptAt(c, shorten, fs, large)
       <==> ShortCut(c, shorten, fs, large) <= ShortCut(c, shorten, fs, small)
  {
    CutIsOpen(c, shorten, fs, large);
    hide ShortCut;
    var cut := ShortCut(c, shorten, fs, large);
    if cut > ShortCut(c, shorten, fs, small) {
      assert cut - 1 in KeptAt(c, shorten, fs, small) && cut - 1 !in KeptAt(c, shorten, fs, large);
    }
  }

  /** With shortening, larger budgets keep the groups of smaller ones if and only if shortening no
      group saves more than the next older group that is not required needs. */
  lemma {:induction false} LargerBudgetsKeepMoreIff(c: Estimate, shorten: Option<nat>, fs: seq<Slot>)
    requires Positive(c) && NonEmptyGroups(fs)
    ensures (forall small: nat, large: nat :: small <= large ==>
               KeptAt(c, shorten, fs, small) <= KeptAt(c, shorten, fs, large))
       <==> SavesLittle(c, shorten, fs)
  {
    if SavesLittle(c, shorten, fs) {
      forall small: nat, large: nat | small <= large
        ensures KeptAt(c, shorten, fs, small) <= KeptAt(c, shorten, fs, large)
      {
        LittleSavingKeepsMore(c, shorten, fs, small, large);
        KeptByCut(c, shorten, fs, small, large);
      }
    } else {
      var i :| SavesTooMuch(c, shorten, fs, i);
      var small, large := MuchSavingKeepsLess(c, shorten, fs, i);
      KeptByCut(c, shorten, fs, small, large);
    }
  }

  // ---------------------------------------------------------------- a context that loses by a larger budget

  /** An estimate that counts the characters of the first block. */
  function Letters(m: Message): nat {
    1 + if m.content != [] && m.content[0].TextBlock? then |m.content[0].text| else 0
  }

  const OLD := Message(Assistant, [], None, None, [])
  const CALL := Message(Assistant, [], None, None, [ToolCall("x", "t", "")])
  const LONG_TEXT := SHORTENED_TOOL_RESULT_NOTE + "xy"
  const RESULT := Message(Tool, [TextBlock(LONG_TEXT)], None, Some("x"), [])
  const QUESTION := Message(User, [], None, None, [])

  /** An old remark, a tool exchange, and the question. */
  function Remark(): seq<Group> {
    [[OLD], [CALL, RESULT], [QUESTION]]
  }

  lemma {:induction false} RemarkGroups()
    ensures MessageGroups(Flatten(Remark())) == Ok(Remark())
  {
    assert RESULT.toolCallId in CallIds(CALL) by { assert ToolCall("x", "t", "") in CALL.toolCalls; }
    GroupingComplete(Remark());
  }

  lemma {:induction false} RemarkIsOpen()
    ensures forall g :: g in Remark() ==> |g| > 0
    ensures Marked(Remark()) == [Slot([OLD], false), Slot([CALL, RESULT], false), Slot([QUESTION], true)]
  {
    var gs, fs := Remark(), Mark(Remark(), true, false);
    forall i | 0 <= i < 3
      ensures fs[i] == Slot(gs[i], i == 2)
    {
      MarkMeaning(gs, true, false, i);
    }
  }

  lemma {:induction false} LongTextIsShortened()
    ensures ShortenToolGroup([CALL, RESULT], 0)
         == Some([CALL, RESULT.(content := [TextBlock(SHORTENED_TOOL_RESULT_NOTE)])])
  {
    var g, note := [CALL, RESULT], TextBlock(SHORTENED_TOOL_RESULT_NOTE);
    assert g[1..] == [RESULT] && RESULT in g[1..];
    assert RESULT.content[0] == TextBlock(LONG_TEXT) && |LONG_TEXT| > 0;
    assert HasLongText(RESULT, 0);
    assert LONG_TEXT[..0] + SHORTENED_TOOL_RESULT_NOTE == SHORTENED_TOOL_RESULT_NOTE;
    assert ShortenBlocks(RESULT.content, 0) == [note];
    assert ShortenResults(g[1..], 0) == [RESULT.(content := [note])];
    assert [CALL] + [RESULT.(content := [note])] == [CALL, RESULT.(content := [note])];
  }

  lemma {:induction false} PairCost(a: Message, b: Message)
    ensures Cost(Letters, [a, b]) == Letters(a) + Letters(b)
  {
    assert [a, b][1..] == [b] && [b][1..] == [];
    assert Cost(Letters, [b]) == Letters(b) + Cost(Letters, []);
  }

  lemma {:induction false} ShorteningSavesTwo()
    ensures Shorter(Some(0), [CALL, RESULT]).Some?
    ensures Cost(Letters, [CALL, RESULT]) - Cost(Letters, Shorter(Some(0), [CALL, RESULT]).value) == 2
    ensures Shorter(Some(0), [OLD]).None? && Cost(Letters, [OLD]) == 1
  {
    LongTextIsShortened();
    PairCost(CALL, RESULT);
    PairCost(CALL, RESULT.(content := [TextBlock(SHORTENED_TOOL_RESULT_NOTE)]));
    assert [OLD][1..] == [];
    assert |LONG_TEXT| == |SHORTENED_TOOL_RESULT_NOTE| + 2;
    hide ShortenToolGroup;
    OldIsNotShortened();
    assert Cost(Letters, [OLD]) == Letters(OLD) + Cost(Letters, []);
  }

  lemma {:induction false} OldIsNotShortened()
    ensures ShortenToolGroup([OLD], 0).None?
  {
  }

  lemma {:induction false} ExchangeSavesTooMuch()
    ensures Positive(Letters) && forall g :: g in Remark() ==> |g| > 0
    ensures var fs := Marked(Remark());
      && |fs| == 3 && !fs[0].required && LastOpen(fs[..1]) == 0 && SavesTooMuch(Letters, Some(0), fs, 1)
  {
    RemarkIsOpen();
    ShorteningSavesTwo();
    var fs := Marked(Remark());
    assert fs[..1] == [Slot([OLD], false)];
    hide Cost, Shorter, Remark, Marked;
  }

  /** So a larger budget can keep less: here shortening the exchange makes room for the remark. */
  lemma {:induction false} LargerBudgetCanKeepLess() returns (small: nat, large: nat)
    ensures MessageGroups(Flatten(Remark())) == Ok(Remark()) && small < large
    ensures forall g :: g in Remark() ==> |g| > 0
    ensures var fs := Marked(Remark());
      && 0 in KeptAt(Letters, Some(0), fs, small) && 0 !in KeptAt(Letters, Some(0), fs, large)
  {
    RemarkGroups();
    ExchangeSavesTooMuch();
    hide Letters, Cost, Need, Shorter, SavesTooMuch, ShortCut, Remark, Marked, LastOpen, Positive;
    hide MessageGroups, Flatten;
    small, large := MuchSavingKeepsLess(Letters, Some(0), Marked(Remark()), 1);
  }
}
