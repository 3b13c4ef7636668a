/** `pack_messages` as the source runs it: index sets, a spent budget and an output loop,
    proved equal to `Packing.Pack`. */
module Packer {
  import opened Messages
  import opened Grouping
  import opened Packing
  import opened PackingLaws

  method RequiredIndices(groups: seq<Group>) returns (required: set<nat>)
    requires |groups| > 0 && forall g :: g in groups ==> |g| > 0
    ensures forall i :: i in required <==> 0 <= i < |groups| && Required(groups, i)
  {
    required := set i: nat | i < |groups| && Pinned(groups[i]);
    required := required + {|groups| - 1};
    var index := |groups|;
    while index > 0
      invariant 0 <= index <= |groups|
      invariant forall j :: index <= j < |groups| ==> groups[j][0].role != User
    {
      index := index - 1;
      if groups[index][0].role == User {
        required := required + {index};
        return;
      }
    }
  }

  method CostOf(c: Estimate, ms: seq<Message>) returns (total: nat)
    ensures total == Cost(c, ms)
  {
    total := 0;
    for i := 0 to |ms|
      invariant total + Cost(c, ms[i..]) == Cost(c, ms)
    {
      assert ms[i..][1..] == ms[i + 1..];
      total := total + c(ms[i]);
    }
  }

  method RequiredTotal(c: Estimate, ghost fs: seq<Slot>, costs: seq<nat>, required: set<nat>)
    returns (total: nat)
    requires |costs| == |fs|
    requires forall i :: 0 <= i < |fs| ==> costs[i] == Cost(c, fs[i].group)
    requires forall i :: i in required <==> 0 <= i < |fs| && fs[i].required
    ensures total == RequiredCost(c, fs)
  {
    total := 0;
    for i := 0 to |costs|
      invariant total == RequiredCost(c, fs[..i])
    {
      assert fs[..i + 1] == fs[..i] + [fs[i]];
      if i in required {
        total := total + costs[i];
      }
    }
    assert fs[..|fs|] == fs;
  }

  /** The groups emitted for the indices from `i` on. */
  function EmitFrom(groups: seq<Group>, selected: set<nat>, shortened: map<nat, Group>, i: nat): seq<Group>
    requires i <= |groups|
    decreases |groups| - i
  {
    if i == |groups| then []
    else
      (if i !in selected then [] else if i in shortened then [shortened[i]] else [groups[i]])
      + EmitFrom(groups, selected, shortened, i + 1)
  }

  lemma {:induction false} EmitFrame(groups: seq<Group>, selected: set<nat>, shortened: map<nat, Group>,
                  selected': set<nat>, shortened': map<nat, Group>, i: nat)
    requires i <= |groups|
    requires forall j :: i <= j < |groups| ==>
      (j in selected <==> j in selected') && (j in shortened <==> j in shortened')
      && (j in shortened ==> shortened[j] == shortened'[j])
    ensures EmitFrom(groups, selected, shortened, i) == EmitFrom(groups, selected', shortened', i)
    decreases |groups| - i
  {
    if i < |groups| {
      EmitFrame(groups, selected, shortened, selected', shortened', i + 1);
    }
  }

  /** Indices the selection never reached emit their required groups only. */
  lemma {:induction false} EmitUnreached(
    fs: seq<Slot>, selected: set<nat>, shortened: map<nat, Group>, j: nat)
    requires j <= |fs|
    requires forall i :: 0 <= i < j ==> (i in selected <==> fs[i].required) && i !in shortened
    ensures EmitFrom(Unmark(fs), selected, shortened, 0) ==
            Unmark(OnlyRequired(fs[..j])) + EmitFrom(Unmark(fs), selected, shortened, j)
  {
    if j > 0 {
      var f, front, o := fs[j - 1], fs[..j - 1], OnlyRequired(fs[..j - 1]);
      var one := if f.required then [f] else [];
      assert fs[..j][..j - 1] == front;
      assert OnlyRequired(fs[..j]) == o + one;
      assert Unmark(one) == if f.required then [f.group] else [];
      assert Unmark(fs)[j - 1] == f.group;
      hide OnlyRequired, EmitFrom, Unmark;
      EmitUnreached(fs, selected, shortened, j - 1);
      UnmarkAppend(o, one);
      EmitStep(Unmark(fs), selected, shortened, j - 1);
      Regroup(Unmark(o), Unmark(one), EmitFrom(Unmark(fs), selected, shortened, j));
    }
  }

  /** Selecting one more index, whole or shortened, puts its group before what was emitted. */
  lemma {:induction false} EmitPicked(
    groups: seq<Group>, selected: set<nat>, shortened: map<nat, Group>, index: nat, short: Option<Group>)
    requires index < |groups| && index !in shortened
    ensures EmitFrom(groups, selected + {index},
                     if short.Some? then shortened[index := short.value] else shortened, index)
         == [if short.Some? then short.value else groups[index]] + EmitFrom(groups, selected, shortened, index + 1)
  {
    var shortened' := if short.Some? then shortened[index := short.value] else shortened;
    EmitFrame(groups, selected + {index}, shortened', selected, shortened, index + 1);
  }

  /** One turn of the selection loop: keep the group, keep it shortened, or stop. */
  method Consider(c: Estimate, shorten: Option<nat>, ghost f: Slot, group: Group, required: bool,
                  cost: nat, remaining: int)
    returns (stop: bool, short: Option<Group>, rest: int)
    requires |group| > 0 && f == Slot(group, required) && cost == Cost(c, group)
    ensures Choose(c, shorten, f, remaining) ==
      if stop then Stop
      else Take(if short.Some? then Slot(short.value, false) else f, rest)
    ensures required ==> !stop && short.None? && rest == remaining
  {
    if required {
      return false, None, remaining;
    }
    if cost <= remaining {
      return false, None, remaining - cost;
    }
    if shorten.Some? {
      short := ShortenGroup(group, shorten.value);
      if short.Some? {
        var shortCost := CostOf(c, short.value);
        if shortCost <= remaining {
          return false, short, remaining - shortCost;
        }
      }
    }
    return true, None, remaining;
  }

  /** The selection loop: spends `budget` from the newest index down until a group does not fit. */
  method Select(c: Estimate, shorten: Option<nat>, groups: seq<Group>, ghost fs: seq<Slot>,
                costs: seq<nat>, required: set<nat>, budget: nat)
    returns (selected: set<nat>, shortened: map<nat, Group>)
    requires NonEmptyGroups(fs) && Unmark(fs) == groups && |costs| == |groups|
    requires forall i :: 0 <= i < |groups| ==> costs[i] == Cost(c, fs[i].group)
    requires forall i :: i in required <==> 0 <= i < |fs| && fs[i].required
    ensures EmitFrom(groups, selected, shortened, 0) == Unmark(Keep(c, shorten, fs, budget))
  {
    hide Keep, EmitFrom, Choose, Cost, Selecting;
    selected, shortened := required, map[];
    var remaining: int := budget;
    var index := |groups|;
    SelectingStarts(c, shorten, fs, budget, selected);
    while index > 0
      invariant 0 <= index <= |groups|
      invariant Selecting(c, shorten, fs, budget, index, remaining, selected, shortened)
      invariant forall i :: 0 <= i < index ==> (i in selected <==> fs[i].required) && i !in shortened
    {
      index := index - 1;
      assert Unmark(fs)[index] == fs[index].group && fs[index] in fs;
      var stop, short, rest :=
        Consider(c, shorten, fs[index], groups[index], index in required, costs[index], remaining);
      if stop {
        SelectingStops(c, shorten, fs, budget, index, remaining, selected, shortened);
        return;
      }
      SelectingTakes(c, shorten, fs, budget, index, remaining, selected, shortened, short, rest);
      selected, remaining := selected + {index}, rest;
      if short.Some? {
        shortened := shortened[index := short.value];
      }
    }
    SelectingEnds(c, shorten, fs, budget, remaining, selected, shortened);
  }

  /** Down to `index`, what is emitted follows what would be kept of the older groups. */
  ghost predicate Selecting(c: Estimate, shorten: Option<nat>, fs: seq<Slot>, budget: int, index: nat, remaining: int,
                            selected: set<nat>, shortened: map<nat, Group>)
    requires NonEmptyGroups(fs)
  {
    && index <= |fs|
    && Unmark(Keep(c, shorten, fs, budget)) ==
       Unmark(Keep(c, shorten, fs[..index], remaining)) + EmitFrom(Unmark(fs), selected, shortened, index)
  }

  lemma {:induction false} SelectingStarts(
    c: Estimate, shorten: Option<nat>, fs: seq<Slot>, budget: int, selected: set<nat>)
    requires NonEmptyGroups(fs)
    ensures Selecting(c, shorten, fs, budget, |fs|, budget, selected, map[])
  {
    EmitEnd(Unmark(fs), selected, map[]);
    hide Keep, EmitFrom;
    assert fs[..|fs|] == fs;
  }

  lemma {:induction false} SelectingTakes(
    c: Estimate, shorten: Option<nat>, fs: seq<Slot>, budget: int, index: nat, remaining: int,
    selected: set<nat>, shortened: map<nat, Group>, short: Option<Group>, rest: int)
    requires NonEmptyGroups(fs) && index < |fs| && fs[index] in fs
    requires Selecting(c, shorten, fs, budget, index + 1, remaining, selected, shortened) && index !in shortened
    requires Choose(c, shorten, fs[index], remaining) ==
             Take(if short.Some? then Slot(short.value, false) else fs[index], rest)
    ensures Selecting(c, shorten, fs, budget, index, rest, selected + {index},
                      if short.Some? then shortened[index := short.value] else shortened)
  {
    var slot := if short.Some? then Slot(short.value, false) else fs[index];
    var kept := Unmark(Keep(c, shorten, fs[..index], rest));
    var emitted := EmitFrom(Unmark(fs), selected, shortened, index + 1);
    assert Unmark(fs)[index] == fs[index].group;
    hide Keep, EmitFrom, Choose, Unmark;
    assert Unmark(Keep(c, shorten, fs, budget)) == (kept + [slot.group]) + emitted by {
      KeepTakes(c, shorten, fs[..index + 1], remaining, slot, rest);
      assert fs[..index + 1][..index] == fs[..index];
    }
    EmitPicked(Unmark(fs), selected, shortened, index, short);
    Regroup(kept, [slot.group], emitted);
  }

  lemma {:induction false} KeepTakes(
    c: Estimate, shorten: Option<nat>, fs: seq<Slot>, remaining: int, slot: Slot, rest: int)
    requires NonEmptyGroups(fs) && fs != [] && Choose(c, shorten, fs[|fs| - 1], remaining) == Take(slot, rest)
    ensures Unmark(Keep(c, shorten, fs, remaining)) ==
            Unmark(Keep(c, shorten, fs[..|fs| - 1], rest)) + [slot.group]
  {
    hide Keep, Choose, OnlyRequired, RequiredCost, Cost;
    KeepUnfold(c, shorten, fs, remaining);
    UnmarkAppend(Keep(c, shorten, fs[..|fs| - 1], rest), [slot]);
    assert Unmark([slot]) == [slot.group];
  }

  lemma {:induction false} SelectingStops(
    c: Estimate, shorten: Option<nat>, fs: seq<Slot>, budget: int, index: nat, remaining: int,
    selected: set<nat>, shortened: map<nat, Group>)
    requires NonEmptyGroups(fs) && index < |fs| && fs[index] in fs
    requires Selecting(c, shorten, fs, budget, index + 1, remaining, selected, shortened)
    requires forall i :: 0 <= i <= index ==> (i in selected <==> fs[i].required) && i !in shortened
    requires Choose(c, shorten, fs[index], remaining).Stop?
    ensures EmitFrom(Unmark(fs), selected, shortened, 0) == Unmark(Keep(c, shorten, fs, budget))
  {
    assert !fs[index].required;
    hide Keep, EmitFrom, Choose, OnlyRequired, Unmark;
    KeepStops(c, shorten, fs[..index + 1], remaining);
    assert fs[..index + 1][..index] == fs[..index];
    EmitSkipped(Unmark(fs), selected, shortened, index);
    EmitUnreached(fs, selected, shortened, index);
  }

  lemma {:induction false} KeepStops(c: Estimate, shorten: Option<nat>, fs: seq<Slot>, remaining: int)
    requires NonEmptyGroups(fs) && fs != [] && Choose(c, shorten, fs[|fs| - 1], remaining).Stop?
    ensures Keep(c, shorten, fs, remaining) == OnlyRequired(fs[..|fs| - 1])
  {
    hide Keep, Choose, OnlyRequired, RequiredCost, Cost;
    KeepUnfold(c, shorten, fs, remaining);
  }

  lemma {:induction false} SelectingEnds(
    c: Estimate, shorten: Option<nat>, fs: seq<Slot>, budget: int, remaining: int,
    selected: set<nat>, shortened: map<nat, Group>)
    requires NonEmptyGroups(fs) && Selecting(c, shorten, fs, budget, 0, remaining, selected, shortened)
    ensures EmitFrom(Unmark(fs), selected, shortened, 0) == Unmark(Keep(c, shorten, fs, budget))
  {
    KeepUnfold(c, shorten, [], remaining);
    hide Keep, EmitFrom;
    assert fs[..0] == [];
  }

  lemma {:induction false} EmitEnd(groups: seq<Group>, selected: set<nat>, shortened: map<nat, Group>)
    ensures EmitFrom(groups, selected, shortened, |groups|) == []
  {
  }

  lemma {:induction false} EmitStep(groups: seq<Group>, selected: set<nat>, shortened: map<nat, Group>, i: nat)
    requires i < |groups|
    ensures EmitFrom(groups, selected, shortened, i) ==
      (if i !in selected then [] else if i in shortened then [shortened[i]] else [groups[i]])
      + EmitFrom(groups, selected, shortened, i + 1)
  {
  }

  lemma {:induction false} EmitSkipped(groups: seq<Group>, selected: set<nat>, shortened: map<nat, Group>, i: nat)
    requires i < |groups| && i !in selected
    ensures EmitFrom(groups, selected, shortened, i) == EmitFrom(groups, selected, shortened, i + 1)
  {
  }

  lemma {:induction false} UnmarkAppend(a: seq<Slot>, b: seq<Slot>)
    ensures Unmark(a + b) == Unmark(a) + Unmark(b)
  {
  }

  method PackMessages(c: Estimate, messages: seq<Message>, budget: int, shorten: Option<nat>)
    returns (r: Result<seq<Message>, ContextError>)
    ensures r == Pack(c, messages, budget, shorten)
  {
    hide Keep, Mark, Flatten, RequiredCost, OnlyRequired, EmitFrom, MessageGroups, Cost, Choose;
    if messages == [] {
      return Ok([]);
    }
    var grouped := GroupMessages(messages);
    if grouped.Err? {
      return Err(grouped.error);
    }
    var groups := grouped.value;
    ghost var fs := Marked(groups);
    assert groups != [] by { GroupingSound(messages); FlattenNil<Message>(); }
    MarkIsRequired(groups);
    var required := RequiredIndices(groups);
    var costs: seq<nat> := [];
    for i := 0 to |groups|
      invariant |costs| == i
      invariant forall k :: 0 <= k < i ==> costs[k] == Cost(c, groups[k])
    {
      var cost := CostOf(c, groups[i]);
      costs := costs + [cost];
    }
    assert forall k :: 0 <= k < |groups| ==> Unmark(fs)[k] == fs[k].group;
    var needed := RequiredTotal(c, fs, costs, required);
    if budget - needed < 0 {
      return Err(BudgetExceeded);
    }
    var selected, shortened := Select(c, shorten, groups, fs, costs, required, budget - needed);
    var output := Emit(groups, selected, shortened);
    r := Ok(output);
  }

  /** The output comprehension of `pack_messages`. */
  method Emit(groups: seq<Group>, selected: set<nat>, shortened: map<nat, Group>)
    returns (output: seq<Message>)
    ensures output == Flatten(EmitFrom(groups, selected, shortened, 0))
  {
    hide EmitFrom;
    output := [];
    for i := 0 to |groups|
      invariant output + Flatten(EmitFrom(groups, selected, shortened, i))
             == Flatten(EmitFrom(groups, selected, shortened, 0))
    {
      EmitStep(groups, selected, shortened, i);
      ghost var rest := EmitFrom(groups, selected, shortened, i + 1);
      assert [] + rest == rest;
      if i in selected {
        var g := if i in shortened then shortened[i] else groups[i];
        assert ([g] + rest)[1..] == rest;
        output := output + g;
      }
    }
    EmitEnd(groups, selected, shortened);
  }
}
