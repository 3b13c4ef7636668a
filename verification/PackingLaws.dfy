/** What packing guarantees: composition of budgets, idempotence, and the shape of a result. */
module PackingLaws {
  import opened Messages
  import opened Grouping
  import opened Packing

  function Min(a: int, b: int): int { if a <= b then a else b }

  // ---------------------------------------------------------------- selection on slots

  lemma {:induction false} Snoc(c: Estimate, fs: seq<Slot>, f: Slot)
    ensures (fs + [f])[..|fs + [f]| - 1] == fs
    ensures OnlyRequired(fs + [f]) == OnlyRequired(fs) + if f.required then [f] else []
    ensures RequiredCost(c, fs + [f]) ==
            RequiredCost(c, fs) + if f.required then Cost(c, f.group) else 0
    ensures TotalCost(c, fs + [f]) == TotalCost(c, fs) + Cost(c, f.group)
  {
    assert (fs + [f])[..|fs + [f]| - 1] == fs;
  }

  /** Taking a group keeps its mark and its place in a tool exchange, and pays for it. */
  lemma {:induction false} ChooseFacts(c: Estimate, shorten: Option<nat>, f: Slot, r: int)
    requires |f.group| > 0
    ensures match Choose(c, shorten, f, r)
      case Stop => !f.required && Cost(c, f.group) > r
      case Take(s, rest) =>
        && |s.group| > 0
        && s.required == f.required
        && (f.required ==> s == f)
        && rest == (if f.required then r else r - Cost(c, s.group))
        && (r >= 0 ==> rest >= 0)
        && s.group[0] == f.group[0]
        && Pinned(s.group) == Pinned(f.group)
        && (WellGrouped(f.group) ==> WellGrouped(s.group))
  {
    if !f.required && Cost(c, f.group) > r && Shorter(shorten, f.group).Some? {
      ShorteningKeepsExchange(f.group, shorten.value);
    }
  }

  lemma {:induction false} KeepUnfold(c: Estimate, shorten: Option<nat>, fs: seq<Slot>, r: int)
    requires NonEmptyGroups(fs)
    ensures fs == [] ==> Keep(c, shorten, fs, r) == [] == OnlyRequired([])
    ensures fs != [] ==>
      var front, f := fs[..|fs| - 1], fs[|fs| - 1];
      && RequiredCost(c, fs) == RequiredCost(c, front) + (if f.required then Cost(c, f.group) else 0)
      && OnlyRequired(fs) == OnlyRequired(front) + (if f.required then [f] else [])
      && Keep(c, shorten, fs, r) ==
           match Choose(c, shorten, f, r)
           case Stop => OnlyRequired(front)
           case Take(slot, rest) => Keep(c, shorten, front, rest) + [slot]
  {
  }

  lemma {:induction false} OnlyRequiredIsStable(c: Estimate, shorten: Option<nat>, fs: seq<Slot>, r: int)
    requires NonEmptyGroups(fs)
    ensures OnlyRequired(OnlyRequired(fs)) == OnlyRequired(fs)
    ensures NonEmptyGroups(OnlyRequired(fs))
    ensures Keep(c, shorten, OnlyRequired(fs), r) == OnlyRequired(fs)
    ensures RequiredCost(c, OnlyRequired(fs)) == RequiredCost(c, fs)
    ensures TotalCost(c, OnlyRequired(fs)) == RequiredCost(c, fs)
  {
    if fs != [] {
      var front, f := fs[..|fs| - 1], fs[|fs| - 1];
      OnlyRequiredIsStable(c, shorten, front, r);
      if f.required {
        Snoc(c, OnlyRequired(front), f);
        assert OnlyRequired(fs) == OnlyRequired(front) + [f];
      } else {
        assert OnlyRequired(fs) == OnlyRequired(front);
      }
    }
  }

  /** The selection keeps every required slot and spends at most what it was given. */
  lemma {:induction false} KeepAccounts(c: Estimate, shorten: Option<nat>, fs: seq<Slot>, r: int)
    requires NonEmptyGroups(fs) && r >= 0
    ensures NonEmptyGroups(Keep(c, shorten, fs, r))
    ensures OnlyRequired(Keep(c, shorten, fs, r)) == OnlyRequired(fs)
    ensures RequiredCost(c, Keep(c, shorten, fs, r)) == RequiredCost(c, fs)
    ensures TotalCost(c, Keep(c, shorten, fs, r)) <= RequiredCost(c, fs) + r
  {
    if fs != [] {
      var front, f := fs[..|fs| - 1], fs[|fs| - 1];
      ChooseFacts(c, shorten, f, r);
      match Choose(c, shorten, f, r)
      case Stop => OnlyRequiredIsStable(c, shorten, front, r);
      case Take(s, rest) =>
        KeepAccounts(c, shorten, front, rest);
        Snoc(c, Keep(c, shorten, front, rest), s);
    }
  }

  lemma {:induction false} RequiredAtMostTotal(c: Estimate, fs: seq<Slot>)
    ensures RequiredCost(c, fs) <= TotalCost(c, fs)
  {
    if fs != [] {
      RequiredAtMostTotal(c, fs[..|fs| - 1]);
    }
  }

  lemma {:induction false} TotalUnfold(c: Estimate, fs: seq<Slot>)
    requires fs != []
    ensures TotalCost(c, fs) == TotalCost(c, fs[..|fs| - 1]) + Cost(c, fs[|fs| - 1].group)
  {
  }

  lemma {:induction false} ChooseFits(c: Estimate, shorten: Option<nat>, f: Slot, r: int)
    requires |f.group| > 0
    ensures f.required ==> Choose(c, shorten, f, r) == Take(f, r)
    ensures !f.required && Cost(c, f.group) <= r ==>
              Choose(c, shorten, f, r) == Take(f, r - Cost(c, f.group))
  {
  }

  /** Whatever fits as a whole is kept as it is. */
  lemma {:induction false} KeepAllThatFits(c: Estimate, shorten: Option<nat>, fs: seq<Slot>, r: int)
    requires NonEmptyGroups(fs)
    requires TotalCost(c, fs) <= RequiredCost(c, fs) + r
    ensures Keep(c, shorten, fs, r) == fs
  {
    if fs != [] {
      hide Keep, Cost, Choose, OnlyRequired, RequiredCost, TotalCost;
      var front, f := fs[..|fs| - 1], fs[|fs| - 1];
      var rest := if f.required then r else r - Cost(c, f.group);
      assert fs == front + [f];
      KeepUnfold(c, shorten, fs, r);
      TotalUnfold(c, fs);
      RequiredAtMostTotal(c, front);
      ChooseFits(c, shorten, f, r);
      assert Keep(c, shorten, fs, r) == Keep(c, shorten, front, rest) + [f];
      KeepAllThatFits(c, shorten, front, rest);
    }
  }

  /** Without shortening, spending r1 and then r2 is spending the smaller of the two. */
  lemma {:induction false} KeepComposes(c: Estimate, fs: seq<Slot>, r1: int, r2: int)
    requires NonEmptyGroups(fs)
    ensures NonEmptyGroups(Keep(c, None, fs, r1))
    ensures OnlyRequired(Keep(c, None, fs, r1)) == OnlyRequired(fs)
    ensures Keep(c, None, Keep(c, None, fs, r1), r2) == Keep(c, None, fs, Min(r1, r2))
  {
    hide Keep, OnlyRequired, RequiredCost, TotalCost, Cost, Choose;
    KeepUnfold(c, None, fs, r1);
    KeepUnfold(c, None, fs, Min(r1, r2));
    KeepUnfold(c, None, [], r2);
    if fs != [] {
      var front, f := fs[..|fs| - 1], fs[|fs| - 1];
      ChooseWhole(c, f, r1);
      ChooseWhole(c, f, r2);
      match Choose(c, None, f, r1)
      case Stop =>
        OnlyRequiredIsStable(c, None, front, r2);
        assert !f.required && Choose(c, None, f, Min(r1, r2)).Stop?;
      case Take(s, rest) =>
        assert s == f;
        var k := Keep(c, None, front, rest);
        KeepComposes(c, front, rest, if f.required then r2 else r2 - Cost(c, f.group));
        Snoc(c, k, f);
        KeepUnfold(c, None, k + [f], r2);
    }
  }

  // ---------------------------------------------------------------- required stays required

  lemma {:induction false} RemarkOnlyRequired(gs: seq<Group>, last: bool, sawUser: bool)
    requires forall g :: g in gs ==> |g| > 0
    ensures var o := OnlyRequired(Mark(gs, last, sawUser));
      NonEmptyGroups(o) && AllNonEmpty(Unmark(o)) && Mark(Unmark(o), last, sawUser) == o
  {
    if gs != [] {
      var front, g := gs[..|gs| - 1], gs[|gs| - 1];
      var isUser := g[0].role == User;
      var fs := Mark(gs, last, sawUser);
      assert fs[..|fs| - 1] == Mark(front, false, sawUser || isUser);
      RemarkOnlyRequired(front, false, sawUser || isUser);
      var o := OnlyRequired(fs[..|fs| - 1]);
      if fs[|fs| - 1].required {
        RemarkSnoc(o, fs[|fs| - 1], last, sawUser);
      } else {
        assert OnlyRequired(fs) == o;
      }
    }
  }

  ghost predicate AllNonEmpty(gs: seq<Group>) {
    forall g :: g in gs ==> |g| > 0
  }

  lemma {:induction false} RemarkSnoc(o: seq<Slot>, f: Slot, last: bool, sawUser: bool)
    requires NonEmptyGroups(o) && |f.group| > 0
    requires AllNonEmpty(Unmark(o))
    requires var isUser := f.group[0].role == User;
      && Mark(Unmark(o), false, sawUser || isUser) == o
      && f.required == (Pinned(f.group) || last || (isUser && !sawUser))
    ensures AllNonEmpty(Unmark(o + [f])) && NonEmptyGroups(o + [f])
    ensures Mark(Unmark(o + [f]), last, sawUser) == o + [f]
  {
    assert Unmark(o + [f]) == Unmark(o) + [f.group];
    assert (Unmark(o) + [f.group])[..|o|] == Unmark(o);
  }

  /** Marking the kept groups afresh finds the same required ones. */
  lemma {:induction false} RemarkKept(
    c: Estimate, shorten: Option<nat>, gs: seq<Group>, last: bool, sawUser: bool, r: int)
    requires AllNonEmpty(gs)
    ensures var k := Keep(c, shorten, Mark(gs, last, sawUser), r);
      AllNonEmpty(Unmark(k)) && NonEmptyGroups(k) && Mark(Unmark(k), last, sawUser) == k
  {
    if gs != [] {
      var front, g := gs[..|gs| - 1], gs[|gs| - 1];
      var isUser := g[0].role == User;
      var fs := Mark(gs, last, sawUser);
      var f := fs[|fs| - 1];
      var ff := Mark(front, false, sawUser || isUser);
      assert fs[..|fs| - 1] == ff;
      ChooseFacts(c, shorten, f, r);
      match Choose(c, shorten, f, r)
      case Stop => RemarkOnlyRequired(front, false, sawUser || isUser);
      case Take(s, rest) =>
        RemarkKept(c, shorten, front, false, sawUser || isUser, rest);
        RemarkSnoc(Keep(c, shorten, ff, rest), s, last, sawUser);
    }
  }

  // ---------------------------------------------------------------- regrouping

  ghost predicate SlotsGrouped(fs: seq<Slot>) {
    forall f :: f in fs ==> WellGrouped(f.group)
  }

  lemma {:induction false} KeptStaysGrouped(c: Estimate, shorten: Option<nat>, fs: seq<Slot>, r: int)
    requires NonEmptyGroups(fs) && SlotsGrouped(fs)
    ensures SlotsGrouped(OnlyRequired(fs))
    ensures SlotsGrouped(Keep(c, shorten, fs, r))
  {
    if fs != [] {
      var front, f := fs[..|fs| - 1], fs[|fs| - 1];
      ChooseFacts(c, shorten, f, r);
      KeptStaysGrouped(c, shorten, front,
                       match Choose(c, shorten, f, r) case Stop => r case Take(_, rest) => rest);
    }
  }

  /** The kept groups come back exactly when the packed messages are grouped again, with the
      same ones required; nothing is lost by going through a flat message list. */
  lemma {:induction false} RepackView(c: Estimate, shorten: Option<nat>, ms: seq<Message>, r: int)
    requires ms != [] && MessageGroups(ms).Ok?
    ensures NonEmptyGroups(Marked(MessageGroups(ms).value))
    ensures var k := Keep(c, shorten, Marked(MessageGroups(ms).value), r);
      && NonEmptyGroups(k)
      && k != []
      && Flatten(Unmark(k)) != []
      && MessageGroups(Flatten(Unmark(k))) == Ok(Unmark(k))
      && Marked(Unmark(k)) == k
  {
    hide Keep, Mark, Marked, OnlyRequired, Choose, MessageGroups, Flatten, WellGrouped;
    GroupingSound(ms);
    var gs := MessageGroups(ms).value;
    var k := Keep(c, shorten, Marked(gs), r);
    assert gs != [] by { FlattenNil<Message>(); }
    KeptIsMarked(c, shorten, gs, r);
    KeptIsGrouped(c, shorten, gs, r);
    KeptNotEmpty(c, shorten, gs, r);
    GroupingComplete(Unmark(k));
    FlattenUnsnoc(Unmark(k));
    assert Unmark(k)[|k| - 1] in Unmark(k);
  }

  lemma {:induction false} FlattenNil<T>()
    ensures Flatten<T>([]) == []
  {
  }

  lemma {:induction false} KeptIsMarked(c: Estimate, shorten: Option<nat>, gs: seq<Group>, r: int)
    requires AllNonEmpty(gs)
    ensures NonEmptyGroups(Marked(gs))
    ensures var k := Keep(c, shorten, Marked(gs), r);
      AllNonEmpty(Unmark(k)) && NonEmptyGroups(k) && Marked(Unmark(k)) == k
  {
    hide Keep, Mark;
    RemarkKept(c, shorten, gs, true, false, r);
  }

  lemma {:induction false} KeptIsGrouped(c: Estimate, shorten: Option<nat>, gs: seq<Group>, r: int)
    requires AllNonEmpty(gs) && AllWellGrouped(gs)
    ensures AllWellGrouped(Unmark(Keep(c, shorten, Marked(gs), r)))
  {
    hide Keep, Mark, WellGrouped;
    var fs := Marked(gs);
    assert SlotsGrouped(fs) by {
      assert forall i :: 0 <= i < |fs| ==> fs[i].group == Unmark(fs)[i];
    }
    KeptStaysGrouped(c, shorten, fs, r);
  }

  lemma {:induction false} KeptNotEmpty(c: Estimate, shorten: Option<nat>, gs: seq<Group>, r: int)
    requires AllNonEmpty(gs)
    ensures NonEmptyGroups(Marked(gs))
    ensures gs != [] ==> Keep(c, shorten, Marked(gs), r) != []
  {
  }

  // ---------------------------------------------------------------- theorems on messages

  function PackThen(c: Estimate, first: Result<seq<Message>, ContextError>, budget: int,
                    shorten: Option<nat>)
    : Result<seq<Message>, ContextError>
  {
    match first
    case Err(e) => Err(e)
    case Ok(ms) => Pack(c, ms, budget, shorten)
  }

  /** The builder packs to its limit and the router packs again to the model's; the outcome,
      including which failure, is that of packing once to the smaller limit. */
  lemma {:induction false} TwoStagePacking(c: Estimate, ms: seq<Message>, b1: int, b2: int)
    ensures PackThen(c, Pack(c, ms, b1, None), b2, None) == Pack(c, ms, Min(b1, b2), None)
  {
    hide Keep, Mark, Choose, MessageGroups, Marked, Unmark, Flatten, RequiredCost, OnlyRequired, TotalCost;
    if ms != [] && MessageGroups(ms).Ok? {
      var fs := Marked(MessageGroups(ms).value);
      var q := RequiredCost(c, fs);
      if b1 >= q {
        RepackView(c, None, ms, b1 - q);
        KeepAccounts(c, None, fs, b1 - q);
        KeepComposes(c, fs, b1 - q, b2 - q);
      }
    }
  }

  /** The order of the two limits does not matter, and repeating one changes nothing. */
  lemma {:induction false} PackingCommutes(c: Estimate, ms: seq<Message>, b1: int, b2: int)
    ensures PackThen(c, Pack(c, ms, b1, None), b2, None) == PackThen(c, Pack(c, ms, b2, None), b1, None)
    ensures PackThen(c, Pack(c, ms, b1, None), b1, None) == Pack(c, ms, b1, None)
  {
    TwoStagePacking(c, ms, b1, b2);
    TwoStagePacking(c, ms, b2, b1);
    TwoStagePacking(c, ms, b1, b1);
  }

  lemma {:induction false} CostAppend(c: Estimate, a: seq<Message>, b: seq<Message>)
    ensures Cost(c, a + b) == Cost(c, a) + Cost(c, b)
    ensures |a| == 1 ==> Cost(c, a) == c(a[0])
  {
    if a == [] {
      assert a + b == b;
    } else {
      assert (a + b)[1..] == a[1..] + b;
      CostAppend(c, a[1..], b);
    }
  }

  lemma {:induction false} FlatCost(c: Estimate, fs: seq<Slot>)
    ensures Cost(c, Flatten(Unmark(fs))) == TotalCost(c, fs)
  {
    if fs != [] {
      var front := fs[..|fs| - 1];
      FlatCost(c, front);
      assert Unmark(fs) == Unmark(front) + [fs[|fs| - 1].group];
      FlattenSnoc(Unmark(front), fs[|fs| - 1].group);
      CostAppend(c, Flatten(Unmark(front)), fs[|fs| - 1].group);
    }
  }

  /** A taken group is the original, or its shortened form if it was not required. */
  ghost predicate Taken(shorten: Option<nat>, f: Slot, k: Slot)
    requires |f.group| > 0
  {
    k == f || (!f.required && !k.required && Shorter(shorten, f.group) == Some(k.group))
  }

  /** `run` holds, whole or shortened, every group from `cut` on. */
  ghost predicate NewestRun(shorten: Option<nat>, fs: seq<Slot>, cut: nat, run: seq<Slot>)
    requires NonEmptyGroups(fs)
  {
    && cut + |run| == |fs|
    && forall i :: 0 <= i < |run| ==> Taken(shorten, fs[cut + i], run[i])
  }

  /** The newest group that was left out fits neither whole nor shortened in what is left. */
  ghost predicate NothingMoreFits(c: Estimate, shorten: Option<nat>, fs: seq<Slot>, cut: nat, left: int)
    requires NonEmptyGroups(fs) && cut <= |fs|
  {
    cut > 0 ==>
      && !fs[cut - 1].required
      && Cost(c, fs[cut - 1].group) > left
      && (Shorter(shorten, fs[cut - 1].group).Some? ==>
            Cost(c, Shorter(shorten, fs[cut - 1].group).value) > left)
  }

  lemma {:induction false} ChooseWhole(c: Estimate, f: Slot, r: int)
    requires |f.group| > 0
    ensures Choose(c, None, f, r) ==
      if f.required then Take(f, r)
      else if Cost(c, f.group) <= r then Take(f, r - Cost(c, f.group))
      else Stop
  {
  }

  lemma {:induction false} StopMeans(c: Estimate, shorten: Option<nat>, f: Slot, r: int)
    requires |f.group| > 0 && Choose(c, shorten, f, r).Stop?
    ensures Shorter(shorten, f.group).Some? ==> Cost(c, Shorter(shorten, f.group).value) > r
  {
  }

  lemma {:induction false} TakeMeans(c: Estimate, shorten: Option<nat>, f: Slot, r: int)
    requires |f.group| > 0 && Choose(c, shorten, f, r).Take?
    ensures Taken(shorten, f, Choose(c, shorten, f, r).slot)
  {
  }

  /** Where the selection stops: the groups from this index on are all kept. */
  function ShortCut(c: Estimate, shorten: Option<nat>, fs: seq<Slot>, r: int): (cut: nat)
    requires NonEmptyGroups(fs)
    ensures cut <= |fs|
  {
    if fs == [] then 0
    else
      match Choose(c, shorten, fs[|fs| - 1], r)
      case Stop => |fs|
      case Take(_, rest) => ShortCut(c, shorten, fs[..|fs| - 1], rest)
  }

  lemma {:induction false} ShortCutUnfold(c: Estimate, shorten: Option<nat>, fs: seq<Slot>, r: int)
    requires NonEmptyGroups(fs) && fs != []
    ensures ShortCut(c, shorten, fs, r) ==
      match Choose(c, shorten, fs[|fs| - 1], r)
      case Stop => |fs|
      case Take(_, rest) => ShortCut(c, shorten, fs[..|fs| - 1], rest)
  {
  }

  lemma {:induction false} ShapeGrows(
    c: Estimate, shorten: Option<nat>, fs: seq<Slot>, cut: nat, run: seq<Slot>, s: Slot, left: int)
    requires NonEmptyGroups(fs) && fs != [] && NewestRun(shorten, fs[..|fs| - 1], cut, run)
    requires Taken(shorten, fs[|fs| - 1], s) && NothingMoreFits(c, shorten, fs[..|fs| - 1], cut, left)
    ensures NewestRun(shorten, fs, cut, run + [s]) && NothingMoreFits(c, shorten, fs, cut, left)
  {
    hide Shorter, Cost, Taken;
    var front := fs[..|fs| - 1];
    forall i | 0 <= i < |run|
      ensures Taken(shorten, fs[cut + i], (run + [s])[i])
    {
      assert Taken(shorten, front[cut + i], run[i]);
    }
  }

  lemma {:induction false} StopShape(c: Estimate, shorten: Option<nat>, fs: seq<Slot>, r: int)
    requires NonEmptyGroups(fs) && fs != [] && Choose(c, shorten, fs[|fs| - 1], r).Stop?
    ensures NewestRun(shorten, fs, |fs|, [])
    ensures Keep(c, shorten, fs, r) == OnlyRequired(fs[..|fs|]) + []
    ensures NothingMoreFits(c, shorten, fs, |fs|,
                            r + RequiredCost(c, fs) - TotalCost(c, Keep(c, shorten, fs, r)))
  {
    hide Shorter, Cost, Keep, OnlyRequired, RequiredCost, TotalCost, Choose;
    KeepUnfold(c, shorten, fs, r);
    ChooseFacts(c, shorten, fs[|fs| - 1], r);
    assert fs[..|fs|] == fs;
    OnlyRequiredIsStable(c, shorten, fs[..|fs| - 1], r);
    StopMeans(c, shorten, fs[|fs| - 1], r);
  }

  lemma {:induction false} KeepShape(c: Estimate, shorten: Option<nat>, fs: seq<Slot>, r: int)
    returns (cut: nat, run: seq<Slot>)
    requires NonEmptyGroups(fs) && r >= 0
    ensures NewestRun(shorten, fs, cut, run) && cut == ShortCut(c, shorten, fs, r)
    ensures Keep(c, shorten, fs, r) == OnlyRequired(fs[..cut]) + run
    ensures NothingMoreFits(c, shorten, fs, cut,
                            r + RequiredCost(c, fs) - TotalCost(c, Keep(c, shorten, fs, r)))
  {
    hide Shorter, Cost, Keep, OnlyRequired, RequiredCost, TotalCost, Choose;
    KeepUnfold(c, shorten, fs, r);
    if fs == [] {
      cut, run := 0, [];
    } else {
      hide ShortCut;
      ShortCutUnfold(c, shorten, fs, r);
      var front, f := fs[..|fs| - 1], fs[|fs| - 1];
      ChooseFacts(c, shorten, f, r);
      match Choose(c, shorten, f, r)
      case Stop =>
        cut, run := |fs|, [];
        StopShape(c, shorten, fs, r);
      case Take(s, rest) =>
        cut, run := KeepShape(c, shorten, front, rest);
        TakeShape(c, shorten, fs, r, cut, run);
        run := run + [s];
    }
  }

  lemma {:induction false} TakeShape(
    c: Estimate, shorten: Option<nat>, fs: seq<Slot>, r: int, cut: nat, run: seq<Slot>)
    requires NonEmptyGroups(fs) && fs != [] && Choose(c, shorten, fs[|fs| - 1], r).Take?
    requires NewestRun(shorten, fs[..|fs| - 1], cut, run)
    requires var kept := Keep(c, shorten, fs[..|fs| - 1], Choose(c, shorten, fs[|fs| - 1], r).rest);
      && kept == OnlyRequired(fs[..|fs| - 1][..cut]) + run
      && NothingMoreFits(c, shorten, fs[..|fs| - 1], cut,
           Choose(c, shorten, fs[|fs| - 1], r).rest + RequiredCost(c, fs[..|fs| - 1]) - TotalCost(c, kept))
    ensures var s := Choose(c, shorten, fs[|fs| - 1], r).slot;
      && NewestRun(shorten, fs, cut, run + [s])
      && Keep(c, shorten, fs, r) == OnlyRequired(fs[..cut]) + (run + [s])
      && NothingMoreFits(c, shorten, fs, cut, r + RequiredCost(c, fs) - TotalCost(c, Keep(c, shorten, fs, r)))
  {
    hide Shorter, Cost, Keep, OnlyRequired, RequiredCost, TotalCost, Choose, NothingMoreFits, Taken;
    assert cut <= |fs| - 1;
    hide NewestRun;
    KeepUnfold(c, shorten, fs, r);
    var front, f := fs[..|fs| - 1], fs[|fs| - 1];
    var s, rest := Choose(c, shorten, f, r).slot, Choose(c, shorten, f, r).rest;
    ChooseFacts(c, shorten, f, r);
    TakeMeans(c, shorten, f, r);
    assert fs[..cut] == front[..cut];
    Regroup(OnlyRequired(fs[..cut]), run, [s]);
    Snoc(c, Keep(c, shorten, front, rest), s);
    ShapeGrows(c, shorten, fs, cut, run, s,
               rest + RequiredCost(c, front) - TotalCost(c, Keep(c, shorten, front, rest)));
  }

  /** The budget is respected, every required group survives unchanged, the other kept groups are
      a newest run of the context in which each is whole or shortened, and the run is maximal. */
  lemma {:induction false} PackedShape(c: Estimate, ms: seq<Message>, budget: int, shorten: Option<nat>)
    returns (cut: nat, run: seq<Slot>)
    requires ms != [] && Pack(c, ms, budget, shorten).Ok?
    ensures MessageGroups(ms).Ok?
    ensures var fs := Marked(MessageGroups(ms).value);
      var out := Pack(c, ms, budget, shorten).value;
      && NewestRun(shorten, fs, cut, run)
      && cut == ShortCut(c, shorten, fs, budget - RequiredCost(c, fs))
      && var kept := OnlyRequired(fs[..cut]) + run;
      && MessageGroups(out) == Ok(Unmark(kept))
      && OnlyRequired(kept) == OnlyRequired(fs)
      && Cost(c, out) <= budget
      && NothingMoreFits(c, shorten, fs, cut, budget - Cost(c, out))
  {
    hide Keep, Mark, Choose, MessageGroups, Marked, Unmark, Flatten, RequiredCost, OnlyRequired;
    hide TotalCost, NewestRun, NothingMoreFits, ShortCut;
    var fs := Marked(MessageGroups(ms).value);
    var r := budget - RequiredCost(c, fs);
    var kept := Keep(c, shorten, fs, r);
    RepackView(c, shorten, ms, r);
    KeepAccounts(c, shorten, fs, r);
    FlatCost(c, kept);
    cut, run := KeepShape(c, shorten, fs, r);
  }

  /** Re-packing a packed context, shortened or not, changes nothing. */
  lemma {:induction false} RepackingIsIdentity(c: Estimate, ms: seq<Message>, budget: int, shorten: Option<nat>)
    requires Pack(c, ms, budget, shorten).Ok?
    ensures Pack(c, Pack(c, ms, budget, shorten).value, budget, shorten) == Pack(c, ms, budget, shorten)
  {
    hide Keep, Mark, Choose, MessageGroups, Marked, Unmark, Flatten, RequiredCost, OnlyRequired, TotalCost;
    if ms != [] {
      var fs := Marked(MessageGroups(ms).value);
      var r := budget - RequiredCost(c, fs);
      var kept := Keep(c, shorten, fs, r);
      RepackView(c, shorten, ms, r);
      KeepAccounts(c, shorten, fs, r);
      KeepAllThatFits(c, shorten, kept, r);
    }
  }

  /** Packing fails for want of budget exactly when the required groups alone exceed it. */
  lemma {:induction false} FailsExactlyWhenRequiredTooLarge(
    c: Estimate, ms: seq<Message>, budget: int, shorten: Option<nat>)
    requires ms != [] && MessageGroups(ms).Ok?
    ensures Pack(c, ms, budget, shorten).Err?
            <==> Cost(c, Flatten(Unmark(OnlyRequired(Marked(MessageGroups(ms).value))))) > budget
    ensures Pack(c, ms, budget, shorten).Err? ==> Pack(c, ms, budget, shorten) == Err(BudgetExceeded)
  {
    hide Keep, Mark, Marked, MessageGroups, Unmark, Flatten, RequiredCost, OnlyRequired, TotalCost;
    var fs := Marked(MessageGroups(ms).value);
    OnlyRequiredIsStable(c, shorten, fs, 0);
    FlatCost(c, OnlyRequired(fs));
  }

  /** Where whole-group selection stops: the groups from this index on are all kept. */
  function Cut(c: Estimate, fs: seq<Slot>, r: int): (cut: nat)
    ensures cut <= |fs|
  {
    if fs == [] then 0
    else
      var front, f := fs[..|fs| - 1], fs[|fs| - 1];
      if f.required then Cut(c, front, r)
      else if Cost(c, f.group) <= r then Cut(c, front, r - Cost(c, f.group))
      else |fs|
  }

  lemma {:induction false} CutMonotone(c: Estimate, fs: seq<Slot>, small: int, large: int)
    requires small <= large
    ensures Cut(c, fs, large) <= Cut(c, fs, small)
  {
    if fs != [] {
      var f := fs[|fs| - 1];
      var spent := if f.required then 0 else Cost(c, f.group);
      CutMonotone(c, fs[..|fs| - 1], small - spent, large - spent);
    }
  }

  lemma {:induction false} RunSnoc(fs: seq<Slot>, cut: nat)
    requires cut < |fs|
    ensures var front := fs[..|fs| - 1];
      OnlyRequired(front[..cut]) + front[cut..] + [fs[|fs| - 1]] == OnlyRequired(fs[..cut]) + fs[cut..]
  {
    var front := fs[..|fs| - 1];
    assert fs[..cut] == front[..cut] && fs[cut..] == front[cut..] + [fs[|fs| - 1]];
  }

  lemma {:induction false} KeepIsCut(c: Estimate, fs: seq<Slot>, r: int)
    requires NonEmptyGroups(fs)
    ensures Keep(c, None, fs, r) == OnlyRequired(fs[..Cut(c, fs, r)]) + fs[Cut(c, fs, r)..]
  {
    hide Keep, OnlyRequired, Choose, Cost;
    KeepUnfold(c, None, fs, r);
    if fs != [] {
      var f := fs[|fs| - 1];
      ChooseWhole(c, f, r);
      match Choose(c, None, f, r)
      case Stop => assert fs[..|fs|] == fs && fs[|fs|..] == [];
      case Take(_, rest) =>
        KeepIsCut(c, fs[..|fs| - 1], rest);
        RunSnoc(fs, Cut(c, fs, r));
    }
  }

  /** A larger budget keeps a superset: the same required groups and a longer newest run. */
  lemma {:induction false} LargerBudgetKeepsMore(c: Estimate, fs: seq<Slot>, small: int, large: int)
    requires NonEmptyGroups(fs) && small <= large
    ensures Cut(c, fs, large) <= Cut(c, fs, small)
    ensures Keep(c, None, fs, small) == OnlyRequired(fs[..Cut(c, fs, small)]) + fs[Cut(c, fs, small)..]
    ensures Keep(c, None, fs, large) == OnlyRequired(fs[..Cut(c, fs, large)]) + fs[Cut(c, fs, large)..]
  {
    CutMonotone(c, fs, small, large);
    KeepIsCut(c, fs, small);
    KeepIsCut(c, fs, large);
  }

  lemma {:induction false} FlattenHas(gs: seq<Group>, m: Message)
    ensures m in Flatten(gs) <==> exists g :: g in gs && m in g
  {
    if gs != [] {
      FlattenHas(gs[1..], m);
      assert gs == [gs[0]] + gs[1..];
      hide Flatten;
      FlattenFirst(gs);
    }
  }

  lemma {:induction false} FlattenFirst(gs: seq<Group>)
    requires gs != []
    ensures Flatten(gs) == gs[0] + Flatten(gs[1..])
  {
  }

  lemma {:induction false} OnlyRequiredHas(fs: seq<Slot>)
    ensures forall f :: f in OnlyRequired(fs) ==> f in fs
  {
    if fs != [] {
      OnlyRequiredHas(fs[..|fs| - 1]);
    }
  }

  /** Whatever is kept was there, whole, or is the shortened form of what was there. */
  lemma {:induction false} KeepHas(c: Estimate, shorten: Option<nat>, fs: seq<Slot>, r: int, k: Slot)
    requires NonEmptyGroups(fs) && k in Keep(c, shorten, fs, r)
    ensures exists f :: f in fs && Taken(shorten, f, k)
  {
    hide Keep, OnlyRequired, RequiredCost, Choose, Cost, Taken;
    KeepUnfold(c, shorten, fs, r);
    var front, f := fs[..|fs| - 1], fs[|fs| - 1];
    match Choose(c, shorten, f, r)
    case Stop =>
      OnlyRequiredHas(front);
      TakenWhole(shorten, k);
    case Take(slot, rest) =>
      TakeMeans(c, shorten, f, r);
      if k in Keep(c, shorten, front, rest) {
        KeepHas(c, shorten, front, rest, k);
      }
  }

  lemma {:induction false} TakenWhole(shorten: Option<nat>, f: Slot)
    ensures |f.group| > 0 ==> Taken(shorten, f, f)
  {
  }

  /** A message as it was, or a tool result of which the long text blocks are cut. */
  ghost predicate WholeOrCut(ms: seq<Message>, shorten: Option<nat>, m: Message) {
    || m in ms
    || (shorten.Some? && exists o :: o in ms && o.role == Tool && ResultCutTo(o, m, shorten.value))
  }

  lemma {:induction false} TakenMessages(shorten: Option<nat>, f: Slot, k: Slot, m: Message)
    requires WellGrouped(f.group) && Taken(shorten, f, k) && m in k.group
    ensures WholeOrCut(f.group, shorten, m)
  {
    if k != f {
      ShorteningKeepsBeginnings(f.group, shorten.value);
      var i :| 0 <= i < |k.group| && k.group[i] == m;
      assert i > 0 ==> f.group[i] in f.group && ResultCutTo(f.group[i], m, shorten.value);
    }
  }

  /** Every packed message is one of the messages, or a tool result of theirs in which each text longer
      than the limit is cut to its beginning and the note. */
  lemma {:induction false} PackedMessagesComeFrom(
    c: Estimate, ms: seq<Message>, budget: int, shorten: Option<nat>, m: Message)
    requires Pack(c, ms, budget, shorten).Ok? && m in Pack(c, ms, budget, shorten).value
    ensures WholeOrCut(ms, shorten, m)
  {
    hide Keep, Flatten, OnlyRequired, RequiredCost, MessageGroups, Taken, ResultCutTo;
    var gs := MessageGroups(ms).value;
    GroupingIsExact(ms, gs);
    var fs := Marked(gs);
    var kept := Keep(c, shorten, fs, budget - RequiredCost(c, fs));
    FlattenHas(Unmark(kept), m);
    var g :| g in Unmark(kept) && m in g;
    var i :| 0 <= i < |kept| && kept[i].group == g;
    KeepHas(c, shorten, fs, budget - RequiredCost(c, fs), kept[i]);
    var f :| f in fs && Taken(shorten, f, kept[i]);
    var j :| 0 <= j < |fs| && fs[j] == f;
    assert Unmark(fs)[j] == f.group;
    TakenMessages(shorten, f, kept[i], m);
    forall o | o in f.group
      ensures o in ms
    {
      FlattenHas(gs, o);
    }
    hide WellGrouped;
  }

  lemma {:induction false} RequiredIsKept(fs: seq<Slot>, j: nat)
    requires j < |fs| && fs[j].required
    ensures fs[j] in OnlyRequired(fs)
  {
    if j < |fs| - 1 {
      RequiredIsKept(fs[..|fs| - 1], j);
    }
  }

  lemma {:induction false} RequiredStays(fs: seq<Slot>, kept: seq<Slot>, j: nat)
    requires j < |fs| && fs[j].required && OnlyRequired(kept) == OnlyRequired(fs)
    ensures fs[j].group in Unmark(kept)
  {
    RequiredIsKept(fs, j);
    OnlyRequiredHas(kept);
    hide OnlyRequired;
    var i :| 0 <= i < |kept| && kept[i] == fs[j];
    assert Unmark(kept)[i] == fs[j].group;
  }

  /** The messages of a required group are packed. */
  lemma {:induction false} RequiredGroupIsPacked(
    c: Estimate, ms: seq<Message>, budget: int, shorten: Option<nat>, j: nat, m: Message)
    requires ms != [] && Pack(c, ms, budget, shorten).Ok? && MessageGroups(ms).Ok?
    requires j < |MessageGroups(ms).value| && Required(MessageGroups(ms).value, j) && m in MessageGroups(ms).value[j]
    ensures m in Pack(c, ms, budget, shorten).value
  {
    var gs := MessageGroups(ms).value;
    var fs := Marked(gs);
    MarkIsRequired(gs);
    assert fs[j].required && Unmark(fs)[j] == gs[j];
    hide MessageGroups, Flatten, OnlyRequired, NewestRun, NothingMoreFits, ShortCut, Pack, Mark, Required;
    hide RequiredCost, Cost, WellGrouped, Marked;
    var cut, run := PackedShape(c, ms, budget, shorten);
    var kept := OnlyRequired(fs[..cut]) + run;
    RequiredStays(fs, kept, j);
    GroupingSound(Pack(c, ms, budget, shorten).value);
    FlattenHas(Unmark(kept), m);
  }

  lemma {:induction false} LastUserIsHead(gs: seq<Group>, i: nat) returns (j: nat)
    requires AllWellGrouped(gs) && i < |Flatten(gs)| && Flatten(gs)[i].role == User
    requires forall k :: i < k < |Flatten(gs)| ==> Flatten(gs)[k].role != User
    ensures j < |gs| && |gs[j]| > 0 && gs[j][0] == Flatten(gs)[i]
    ensures forall k :: j < k < |gs| ==> |gs[k]| > 0 && gs[k][0].role != User
  {
    FlattenUnsnoc(gs);
    var front, last := gs[..|gs| - 1], gs[|gs| - 1];
    var n := |Flatten(front)|;
    assert WellGrouped(last);
    hide Flatten;
    assert forall k :: 0 <= k < n ==> Flatten(gs)[k] == Flatten(front)[k];
    if i >= n {
      assert Flatten(gs)[i] == last[i - n];
      j := |gs| - 1;
    } else {
      assert Flatten(gs)[n] == last[0];
      hide WellGrouped;
      j := LastUserIsHead(front, i);
    }
  }

  predicate AlwaysKept(m: Message) {
    || m.role == System
    || (m.role == Assistant && m.name.Some?
        && m.name.value in {CONTEXT_SUMMARY_NAME, WORKING_STATE_NAME, SKILL_CATALOG_NAME, LOADED_SKILLS_NAME})
  }

  /** Whatever the budget, a packed context has every system message and every summary, working state and
      skill message, the last message, and the latest user message. */
  lemma {:induction false} RequiredMessagesArePacked(
    c: Estimate, ms: seq<Message>, budget: int, shorten: Option<nat>, i: nat)
    requires Pack(c, ms, budget, shorten).Ok? && i < |ms|
    requires AlwaysKept(ms[i]) || i == |ms| - 1
             || (ms[i].role == User && forall k :: i < k < |ms| ==> ms[k].role != User)
    ensures ms[i] in Pack(c, ms, budget, shorten).value
  {
    hide MessageGroups, Required, Flatten, WellGrouped;
    var gs := MessageGroups(ms).value;
    hide Pack;
    GroupingSound(ms);
    var j := RequiredGroupOf(gs, i);
    RequiredGroupIsPacked(c, ms, budget, shorten, j, ms[i]);
  }

  lemma {:induction false} PinnedGroupOf(gs: seq<Group>, m: Message) returns (j: nat)
    requires AllWellGrouped(gs) && (forall g <- gs :: |g| > 0) && m in Flatten(gs) && AlwaysKept(m)
    ensures j < |gs| && Required(gs, j) && m in gs[j]
  {
    FlattenHas(gs, m);
    hide Flatten, WellGrouped;
    var g :| g in gs && m in g;
    j :| 0 <= j < |gs| && gs[j] == g;
    var p :| 0 <= p < |g| && g[p] == m;
    assert PinnedMessage(gs[j][p]);
  }

  lemma {:induction false} RequiredGroupOf(gs: seq<Group>, i: nat) returns (j: nat)
    requires AllWellGrouped(gs) && (forall g <- gs :: |g| > 0) && i < |Flatten(gs)|
    requires AlwaysKept(Flatten(gs)[i]) || i == |Flatten(gs)| - 1
             || (Flatten(gs)[i].role == User && forall k :: i < k < |Flatten(gs)| ==> Flatten(gs)[k].role != User)
    ensures j < |gs| && Required(gs, j) && Flatten(gs)[i] in gs[j]
  {
    hide Flatten, WellGrouped, Pinned;
    if AlwaysKept(Flatten(gs)[i]) {
      j := PinnedGroupOf(gs, Flatten(gs)[i]);
    } else if i == |Flatten(gs)| - 1 {
      FlattenNil<Message>();
      FlattenUnsnoc(gs);
      j := |gs| - 1;
      assert gs[j] in gs && Flatten(gs)[i] == gs[j][|gs[j]| - 1];
    } else {
      j := LastUserIsHead(gs, i);
    }
  }

  /** A larger budget succeeds whenever a smaller one does, and keeps a superset; packing its
      outcome to the smaller budget gives the smaller outcome. */
  lemma {:induction false} LargerBudgetKeepsSuperset(c: Estimate, ms: seq<Message>, small: int, large: int)
    requires small <= large && Pack(c, ms, small, None).Ok?
    ensures Pack(c, ms, large, None).Ok?
    ensures Pack(c, Pack(c, ms, large, None).value, small, None) == Pack(c, ms, small, None)
    ensures forall m :: m in Pack(c, ms, small, None).value ==> m in Pack(c, ms, large, None).value
  {
    hide Pack;
    TwoStagePacking(c, ms, large, small);
    forall m | m in Pack(c, ms, small, None).value
      ensures m in Pack(c, ms, large, None).value
    {
      PackedMessagesComeFrom(c, Pack(c, ms, large, None).value, small, None, m);
    }
  }
}
