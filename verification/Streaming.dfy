/** Forwarding a run's text deltas to a turn: the coalescer that bounds the event rate, and the
    loop that follows the run. */
module Streaming {
  import opened Messages
  import opened EventBus

  // ---------------------------------------------------------------- pieces

  /** The text cut into pieces of `max` characters, the last one possibly shorter. */
  function Pieces(text: string, max: nat): (pieces: seq<string>)
    requires max >= 1
    decreases |text|
  {
    if text == "" then []
    else if |text| <= max then [text]
    else [text[..max]] + Pieces(text[max..], max)
  }

  /** `k` is n / max rounded up. */
  predicate IsCeiling(k: int, n: nat, max: nat) {
    (k - 1) * max < n <= k * max
  }

  /** The pieces concatenate to the text. */
  lemma {:induction false} PiecesConcatenate(text: string, max: nat)
    requires max >= 1
    ensures Flatten(Pieces(text, max)) == text
    decreases |text|
  {
    if 0 < |text| <= max {
      FlattenOne(text);
    } else if |text| > max {
      PiecesConcatenate(text[max..], max);
      FlattenAppend([text[..max]], Pieces(text[max..], max));
      FlattenOne(text[..max]);
      assert text == text[..max] + text[max..];
      hide Pieces, Flatten;
      PiecesUnfold(text, max);
    }
  }

  lemma {:induction false} PiecesUnfold(text: string, max: nat)
    requires max >= 1 && |text| > max
    ensures Pieces(text, max) == [text[..max]] + Pieces(text[max..], max)
  {
  }

  lemma {:induction false} PiecesFit(text: string, max: nat)
    requires max >= 1
    ensures forall p <- Pieces(text, max) :: 1 <= |p| <= max
    decreases |text|
  {
    if |text| > max {
      PiecesFit(text[max..], max);
      PiecesUnfold(text, max);
      hide Pieces;
    }
  }

  /** There are exactly as many pieces as characters divided by `max`, rounded up. */
  lemma {:induction false} PieceCount(text: string, max: nat)
    requires max >= 1
    ensures IsCeiling(|Pieces(text, max)|, |text|, max)
    decreases |text|
  {
    if |text| > max {
      PieceCount(text[max..], max);
      hide Pieces;
      PiecesUnfold(text, max);
      OneMorePiece(|Pieces(text[max..], max)|, |text| - max, max);
    }
  }

  lemma {:induction false} OneMorePiece(k: int, n: nat, max: nat)
    requires IsCeiling(k, n, max)
    ensures IsCeiling(k + 1, n + max, max)
  {
  }

  // ---------------------------------------------------------------- the coalescer on values

  datatype Config = Config(interval: real, max: nat)

  datatype Coalescer = Coalescer(parts: seq<string>, lastFlush: real, sent: seq<string>)

  predicate Due(g: Config, c: Coalescer, now: real) {
    now - c.lastFlush >= g.interval
  }

  function Flushed(g: Config, c: Coalescer, later: real): Coalescer
    requires g.max >= 1
  {
    if c.parts == [] then c
    else Coalescer([], later, c.sent + Pieces(Flatten(c.parts), g.max))
  }

  /** `now` is the clock when the timeout is looked at, `later` when the buffer is flushed. */
  function Added(g: Config, c: Coalescer, text: string, now: real, later: real): Coalescer
    requires g.max >= 1
  {
    if text == "" then c
    else
      var c' := c.(parts := c.parts + [text]);
      if |Flatten(c'.parts)| >= g.max || Due(g, c, now) then Flushed(g, c', later) else c'
  }

  // ---------------------------------------------------------------- the coalescer as an object

  class DeltaCoalescer {
    const interval: real
    const max: nat
    var parts: seq<string>
    var size: nat
    var lastFlush: real
    var events: nat
    var sent: seq<string>

    ghost predicate Valid()
      reads this
    {
      && max >= 1 && interval >= 0.0
      && size == |Flatten(parts)| && events == |sent|
      && (forall p <- parts :: p != "")
    }

    function Settings(): Config { Config(interval, max) }

    function Value(): Coalescer
      reads this
    {
      Coalescer(parts, lastFlush, sent)
    }

    constructor (interval: real, max: nat, now: real)
      requires interval >= 0.0 && max >= 1
      ensures Valid() && Value() == Coalescer([], now, []) && Settings() == Config(interval, max)
    {
      this.interval, this.max := interval, max;
      parts, size, lastFlush, events, sent := [], 0, now, 0, [];
    }

    method Add(text: string, now: real, later: real)
      requires Valid()
      modifies this
      ensures Valid() && Value() == Added(Settings(), old(Value()), text, now, later)
    {
      if text == "" {
        return;
      }
      FlattenSnoc(parts, text);
      parts, size := parts + [text], size + |text|;
      if size >= max {
        Flush(later);
      } else {
        var due := Timeout(now);
        if due == Some(0.0) {
          Flush(later);
        }
      }
    }

    method Timeout(now: real) returns (due: Option<real>)
      ensures due.None? <==> parts == []
      ensures due == Some(0.0) <==> parts != [] && Due(Settings(), Value(), now)
      ensures due.Some? ==> due.value >= 0.0 && Due(Settings(), Value(), now + due.value)
    {
      if parts == [] {
        return None;
      }
      var left := interval - (now - lastFlush);
      return Some(if left > 0.0 then left else 0.0);
    }

    method Flush(later: real)
      requires Valid()
      modifies this
      ensures Valid() && Value() == Flushed(Settings(), old(Value()), later)
    {
      if parts == [] {
        return;
      }
      var text := Flatten(parts);
      parts, size, lastFlush := [], 0, later;
      var start := 0;
      while start < |text|
        invariant 0 <= start <= |text|
        invariant Valid() && parts == [] && lastFlush == later
        invariant sent + Pieces(text[start..], max) == old(sent) + Pieces(text, max)
        decreases |text| - start
      {
        var end := if start + max < |text| then start + max else |text|;
        PiecesStep(text, start, end, max);
        assert sent + ([text[start..end]] + Pieces(text[end..], max))
            == (sent + [text[start..end]]) + Pieces(text[end..], max);
        events := events + 1;
        sent := sent + [text[start..end]];
        start := end;
      }
    }
  }

  /** A coalescer is refused exactly for a negative interval or an empty piece size. */
  method MakeCoalescer(interval: real, max: int, now: real) returns (c: Option<DeltaCoalescer>)
    ensures c.None? <==> interval < 0.0 || max < 1
    ensures c.Some? ==> fresh(c.value) && c.value.Valid() && c.value.Value() == Coalescer([], now, [])
    ensures c.Some? ==> c.value.Settings() == Config(interval, max)
  {
    if interval < 0.0 || max < 1 {
      return None;
    }
    var made := new DeltaCoalescer(interval, max, now);
    return Some(made);
  }

  lemma {:induction false} PiecesStep(text: string, start: nat, end: nat, max: nat)
    requires max >= 1 && start < |text|
    requires end == if start + max < |text| then start + max else |text|
    ensures Pieces(text[start..], max) == [text[start..end]] + Pieces(text[end..], max)
  {
    var rest := text[start..];
    if |rest| > max {
      assert rest[..max] == text[start..end] && rest[max..] == text[end..];
    } else {
      assert rest == text[start..end] && text[end..] == "";
    }
  }

  // ---------------------------------------------------------------- runs of a coalescer

  datatype Op = Add(text: string, now: real, later: real) | Flush(later: real)

  function Apply(g: Config, c: Coalescer, op: Op): Coalescer
    requires g.max >= 1
  {
    match op
    case Add(text, now, later) => Added(g, c, text, now, later)
    case Flush(later) => Flushed(g, c, later)
  }

  function ApplyAll(g: Config, c: Coalescer, ops: seq<Op>): Coalescer
    requires g.max >= 1
    decreases |ops|
  {
    if ops == [] then c else Apply(g, ApplyAll(g, c, ops[..|ops| - 1]), ops[|ops| - 1])
  }

  function AddedText(ops: seq<Op>): string {
    if ops == [] then ""
    else AddedText(ops[..|ops| - 1]) + TextOf(ops[|ops| - 1])
  }

  function TextOf(op: Op): string {
    if op.Add? then op.text else ""
  }

  /** A flush that the buffer's size did not ask for. */
  predicate TimeFlush(g: Config, c: Coalescer, op: Op) {
    match op
    case Add(text, now, _) => text != "" && |Flatten(c.parts)| + |text| < g.max && Due(g, c, now)
    case Flush(_) => c.parts != []
  }

  function TimeFlushes(g: Config, c: Coalescer, ops: seq<Op>): nat
    requires g.max >= 1
    decreases |ops|
  {
    if ops == [] then 0
    else
      var before := ops[..|ops| - 1];
      TimeFlushes(g, c, before)
      + (if TimeFlush(g, ApplyAll(g, c, before), ops[|ops| - 1]) then 1 else 0)
  }

  /** Everything handed to the coalescer: sent or still buffered. */
  function Held(c: Coalescer): string {
    Flatten(c.sent) + Flatten(c.parts)
  }

  lemma {:induction false} FlushConserves(g: Config, c: Coalescer, later: real)
    requires g.max >= 1
    ensures Held(Flushed(g, c, later)) == Held(c) && Flushed(g, c, later).parts == []
  {
    if c.parts != [] {
      var text := Flatten(c.parts);
      PiecesConcatenate(text, g.max);
      FlattenAppend(c.sent, Pieces(text, g.max));
    }
  }

  lemma {:induction false} ApplyConserves(g: Config, c: Coalescer, op: Op)
    requires g.max >= 1
    ensures Held(Apply(g, c, op)) == Held(c) + TextOf(op)
  {
    match op
    case Flush(later) => FlushConserves(g, c, later);
    case Add(text, now, later) =>
      var c' := c.(parts := c.parts + [text]);
      FlattenSnoc(c.parts, text);
      FlushConserves(g, c', later);
      hide Flatten, Flushed;
  }

  /** No character is lost, repeated or reordered, whatever the clock does. */
  lemma {:induction false} TextIsConserved(g: Config, c: Coalescer, ops: seq<Op>)
    requires g.max >= 1
    ensures Held(ApplyAll(g, c, ops)) == Held(c) + AddedText(ops)
    decreases |ops|
  {
    if ops != [] {
      TextIsConserved(g, c, ops[..|ops| - 1]);
      ApplyConserves(g, ApplyAll(g, c, ops[..|ops| - 1]), ops[|ops| - 1]);
      hide Held, Apply;
    }
  }

  // ---------------------------------------------------------------- how many events

  /** Between calls the buffer is shorter than a piece, and it is empty only without parts. */
  ghost predicate Small(g: Config, c: Coalescer) {
    |Flatten(c.parts)| < g.max && (c.parts != [] ==> |Flatten(c.parts)| > 0)
  }

  /** Pieces sent, in units of `max` characters, against flushes and characters. */
  ghost predicate Paid(g: Config, c: Coalescer, flushes: nat) {
    |c.sent| * g.max <= flushes * g.max + 2 * |Flatten(c.sent)|
  }

  lemma {:induction false} FlushSends(g: Config, c: Coalescer, later: real)
    requires g.max >= 1 && c.parts != []
    ensures var c' := Flushed(g, c, later); var n := |Flatten(c.parts)|;
      && |c'.sent| >= |c.sent| && IsCeiling(|c'.sent| - |c.sent|, n, g.max)
      && |Flatten(c'.sent)| == |Flatten(c.sent)| + n
  {
    var text := Flatten(c.parts);
    PieceCount(text, g.max);
    PiecesConcatenate(text, g.max);
    FlattenAppend(c.sent, Pieces(text, g.max));
    hide Pieces, Flatten, IsCeiling;
  }

  /** A full buffer pays for its pieces with its characters, a short one is one piece. */
  lemma {:induction false} FlushIsPaid(max: nat, sent: nat, chars: nat, flushes: nat, k: nat, n: nat)
    requires max >= 1 && sent * max <= flushes * max + 2 * chars && IsCeiling(k, n, max)
    ensures n >= max ==> (sent + k) * max <= flushes * max + 2 * (chars + n)
    ensures 0 < n < max ==> (sent + k) * max <= (flushes + 1) * max + 2 * (chars + n)
  {
    assert (sent + k) * max == sent * max + k * max;
    assert (k - 1) * max == k * max - max;
    assert (flushes + 1) * max == flushes * max + max;
  }

  lemma {:induction false} ApplyIsPaid(g: Config, c: Coalescer, op: Op, flushes: nat)
    requires g.max >= 1 && Small(g, c) && Paid(g, c, flushes)
    ensures Small(g, Apply(g, c, op))
    ensures Paid(g, Apply(g, c, op), flushes + if TimeFlush(g, c, op) then 1 else 0)
  {
    var c' := if op.Add? && op.text != "" then c.(parts := c.parts + [op.text]) else c;
    if op.Add? {
      FlattenSnoc(c.parts, op.text);
    }
    if c'.parts != [] {
      FlushSends(g, c', op.later);
      FlushIsPaid(g.max, |c.sent|, |Flatten(c.sent)|, flushes,
                  |Flushed(g, c', op.later).sent| - |c.sent|, |Flatten(c'.parts)|);
    }
    assert Flatten<char>([]) == "";
    hide Flatten, IsCeiling, Pieces;
  }

  lemma {:induction false} RunIsPaid(g: Config, c: Coalescer, ops: seq<Op>)
    requires g.max >= 1 && Small(g, c) && Paid(g, c, 0)
    ensures Small(g, ApplyAll(g, c, ops)) && Paid(g, ApplyAll(g, c, ops), TimeFlushes(g, c, ops))
    decreases |ops|
  {
    hide Small, Paid, Apply, TimeFlush;
    if ops != [] {
      RunIsPaid(g, c, ops[..|ops| - 1]);
      ApplyIsPaid(g, ApplyAll(g, c, ops[..|ops| - 1]), ops[|ops| - 1],
                  TimeFlushes(g, c, ops[..|ops| - 1]));
    }
  }

  /** From a new coalescer, the events number at most the time-triggered flushes plus twice the
      characters divided by `max`. */
  lemma {:induction false} EventsAreBounded(g: Config, start: real, ops: seq<Op>)
    requires g.max >= 1
    ensures var c := Coalescer([], start, []);
      |ApplyAll(g, c, ops).sent| * g.max <= TimeFlushes(g, c, ops) * g.max + 2 * |AddedText(ops)|
  {
    var c := Coalescer([], start, []);
    RunIsPaid(g, c, ops);
    TextIsConserved(g, c, ops);
    assert Held(c) == "";
    hide Flatten, TimeFlushes, ApplyAll, AddedText;
  }

  /** A text one character longer than a piece is sent as two events without any time-triggered
      flush, so "one event per `max` characters" is not a bound. */
  lemma {:induction false} OneEventPerMaxCharsIsExceeded(g: Config, start: real, text: string)
    requires g.max >= 2 && |text| == g.max + 1
    ensures var c, ops := Coalescer([], start, []), [Add(text, start, start)];
      && TimeFlushes(g, c, ops) == 0
      && |ApplyAll(g, c, ops).sent| * g.max > |AddedText(ops)|
  {
    var c, ops := Coalescer([], start, []), [Add(text, start, start)];
    assert ops[..0] == [];
    assert c.parts + [text] == [text];
    FlattenOne(text);
    FlushSends(g, c.(parts := [text]), start);
    assert AddedText(ops) == "" + text;
  }

  /** Every event carries between 1 and `max` characters. */
  lemma {:induction false} EventsFit(g: Config, start: real, ops: seq<Op>)
    requires g.max >= 1
    ensures forall p <- ApplyAll(g, Coalescer([], start, []), ops).sent :: 1 <= |p| <= g.max
    decreases |ops|
  {
    if ops != [] {
      var c := ApplyAll(g, Coalescer([], start, []), ops[..|ops| - 1]);
      EventsFit(g, start, ops[..|ops| - 1]);
      PiecesFit(Flatten(c.parts), g.max);
      if ops[|ops| - 1].Add? {
        PiecesFit(Flatten(c.parts + [ops[|ops| - 1].text]), g.max);
      }
      hide Pieces, Flatten;
    }
  }

  // ---------------------------------------------------------------- one event per `max` characters

  /** The characters that an operation flushes. */
  function FlushedChars(g: Config, c: Coalescer, op: Op): nat {
    match op
    case Flush(_) => |Flatten(c.parts)|
    case Add(text, now, _) =>
      var n := |Flatten(c.parts)| + |text|;
      if text != "" && (n >= g.max || Due(g, c, now)) then n else 0
  }

  /** The room left in the last of the pieces that n characters fill. */
  function Room(n: nat, max: nat): nat
    requires max >= 1
  {
    if n % max == 0 then 0 else max - n % max
  }

  /** The room left in all pieces sent. */
  function RoomLeft(g: Config, c: Coalescer, ops: seq<Op>): nat
    requires g.max >= 1
    decreases |ops|
  {
    if ops == [] then 0
    else
      var before := ops[..|ops| - 1];
      RoomLeft(g, c, before) + Room(FlushedChars(g, ApplyAll(g, c, before), ops[|ops| - 1]), g.max)
  }

  lemma {:induction false} CeilingExactly(k: int, n: nat, max: nat)
    requires max >= 1 && IsCeiling(k, n, max)
    ensures k == n / max + (if n % max == 0 then 0 else 1)
    ensures k * max == n + Room(n, max)
  {
    var q := n / max;
    assert n == q * max + n % max;
    assert (k - 1) * max == k * max - max;
    if k <= q {
      MulMonotone(k, q, max);
    } else {
      assert (q + 1) * max == q * max + max;
      MulMonotone(q + 1, k, max);
      if k >= q + 2 {
        MulMonotone(q + 1, k - 1, max);
      }
    }
  }

  lemma {:induction false} MulMonotone(a: int, b: int, max: nat)
    requires a <= b
    ensures a * max <= b * max
  {
  }

  /** An operation sends the pieces of what it flushes: its characters divided by `max`, and one more
      unless they divide evenly. */
  lemma {:induction false} FlushSendsExactly(g: Config, c: Coalescer, op: Op)
    requires g.max >= 1
    ensures var n, k := FlushedChars(g, c, op), |Apply(g, c, op).sent| - |c.sent|;
      && k == n / g.max + (if n % g.max == 0 then 0 else 1)
      && k * g.max == n + Room(n, g.max)
      && |Flatten(Apply(g, c, op).sent)| == |Flatten(c.sent)| + n
  {
    var c' := if op.Add? && op.text != "" then c.(parts := c.parts + [op.text]) else c;
    if op.Add? {
      FlattenSnoc(c.parts, op.text);
    }
    assert Flatten<char>([]) == "";
    if c'.parts != [] {
      FlushSends(g, c', op.later);
      CeilingExactly(|Flushed(g, c', op.later).sent| - |c.sent|, |Flatten(c'.parts)|, g.max);
    }
    CeilingExactly(0, 0, g.max);
    hide Flatten, IsCeiling, Pieces, Room;
  }

  /** A flush that the buffer's size asks for exceeds one event per `max` characters if and only if
      its characters do not divide evenly. */
  lemma {:induction false} SizeFlushExceedsIff(g: Config, c: Coalescer, text: string, now: real, later: real)
    requires g.max >= 1 && text != "" && |Flatten(c.parts)| + |text| >= g.max
    ensures var n := |Flatten(c.parts)| + |text|;
      |Added(g, c, text, now, later).sent| - |c.sent| > n / g.max <==> n % g.max != 0
  {
    FlushSendsExactly(g, c, Add(text, now, later));
    hide Flatten, Added;
  }

  /** Events are characters sent plus the room left in the pieces. */
  lemma {:induction false} EventsExactly(g: Config, start: real, ops: seq<Op>)
    requires g.max >= 1
    ensures var c := Coalescer([], start, []);
      |ApplyAll(g, c, ops).sent| * g.max == |Flatten(ApplyAll(g, c, ops).sent)| + RoomLeft(g, c, ops)
    decreases |ops|
  {
    var c := Coalescer([], start, []);
    if ops == [] {
      assert Flatten<char>([]) == "";
    } else {
      var before, op := ApplyAll(g, c, ops[..|ops| - 1]), ops[|ops| - 1];
      EventsExactly(g, start, ops[..|ops| - 1]);
      FlushSendsExactly(g, before, op);
      var k := |Apply(g, before, op).sent| - |before.sent|;
      hide Apply, FlushedChars, Room, Flatten;
      assert (|before.sent| + k) * g.max == |before.sent| * g.max + k * g.max;
    }
  }

  /** The documented bound: one event per time-triggered flush and per `max` characters. */
  ghost predicate OnePerMaxChars(g: Config, c: Coalescer, ops: seq<Op>)
    requires g.max >= 1
  {
    |ApplyAll(g, c, ops).sent| * g.max <= TimeFlushes(g, c, ops) * g.max + |AddedText(ops)|
  }

  /** Calls keep within the documented bound if and only if the room left in their pieces is covered
      by a piece for each time-triggered flush and by what is still buffered. */
  lemma {:induction false} BoundHoldsIff(g: Config, start: real, ops: seq<Op>)
    requires g.max >= 1
    ensures var c := Coalescer([], start, []);
      OnePerMaxChars(g, c, ops) <==>
      RoomLeft(g, c, ops) <= TimeFlushes(g, c, ops) * g.max + |Flatten(ApplyAll(g, c, ops).parts)|
  {
    var c := Coalescer([], start, []);
    TextIsConserved(g, c, ops);
    EventsExactly(g, start, ops);
    assert Held(c) == "";
    hide Flatten, TimeFlushes, ApplyAll, AddedText, RoomLeft;
  }

  /** All calls do if and only if every character is an event of its own. */
  lemma {:induction false} BoundAlwaysHoldsIff(g: Config, start: real)
    requires g.max >= 1
    ensures g.max == 1 <==> forall ops :: OnePerMaxChars(g, Coalescer([], start, []), ops)
  {
    var c := Coalescer([], start, []);
    if g.max == 1 {
      forall ops
        ensures OnePerMaxChars(g, c, ops)
      {
        NoRoomInSingles(g, c, ops);
        BoundHoldsIff(g, start, ops);
        hide OnePerMaxChars, ApplyAll;
      }
    } else {
      var text := seq(g.max + 1, _ => 'a');
      OneEventPerMaxCharsIsExceeded(g, start, text);
      hide ApplyAll, TimeFlushes, AddedText;
      assert !OnePerMaxChars(g, c, [Add(text, start, start)]);
    }
  }

  lemma {:induction false} NoRoomInSingles(g: Config, c: Coalescer, ops: seq<Op>)
    requires g.max == 1
    ensures RoomLeft(g, c, ops) == 0
    decreases |ops|
  {
    if ops != [] {
      NoRoomInSingles(g, c, ops[..|ops| - 1]);
      hide ApplyAll, FlushedChars;
    }
  }

  /** The clock does not go back, and a flush outside an add comes when buffered text is due. */
  ghost predicate OnTime(g: Config, c: Coalescer, ops: seq<Op>)
    requires g.max >= 1
    decreases |ops|
  {
    ops == [] ||
    (var before, op := ops[..|ops| - 1], ops[|ops| - 1];
     && OnTime(g, c, before)
     && (match op
         case Add(_, now, later) => ApplyAll(g, c, before).lastFlush <= now <= later
         case Flush(later) => ApplyAll(g, c, before).parts != [] ==> Due(g, ApplyAll(g, c, before), later)))
  }

  lemma {:induction false} FlushMovesClock(g: Config, c: Coalescer, op: Op, flushes: nat, start: real)
    requires g.max >= 1 && g.interval >= 0.0 && flushes as real * g.interval <= c.lastFlush - start
    requires match op
             case Add(_, now, later) => c.lastFlush <= now <= later
             case Flush(later) => c.parts != [] ==> Due(g, c, later)
    ensures (flushes + if TimeFlush(g, c, op) then 1 else 0) as real * g.interval
            <= Apply(g, c, op).lastFlush - start
  {
    assert (flushes + 1) as real * g.interval == flushes as real * g.interval + g.interval;
    hide Pieces;
    if op.Add? {
      FlattenSnoc(c.parts, op.text);
    }
    hide Flatten;
  }

  /** Time-triggered flushes are at least an interval apart. */
  lemma {:induction false} TimeFlushesAreSpaced(g: Config, c: Coalescer, ops: seq<Op>)
    requires g.max >= 1 && g.interval >= 0.0 && OnTime(g, c, ops)
    ensures TimeFlushes(g, c, ops) as real * g.interval <= ApplyAll(g, c, ops).lastFlush - c.lastFlush
    decreases |ops|
  {
    hide Apply, TimeFlush, Due;
    if ops == [] {
      assert TimeFlushes(g, c, ops) as real == 0.0;
    } else {
      var before := ops[..|ops| - 1];
      TimeFlushesAreSpaced(g, c, before);
      FlushMovesClock(g, ApplyAll(g, c, before), ops[|ops| - 1], TimeFlushes(g, c, before), c.lastFlush);
    }
  }

  // ---------------------------------------------------------------- following a run

  /** One turn of the follower's loop: an event came, the timeout passed, or the run ended. */
  datatype Turn = Arrived(event: Event) | TimedOut | RunDone

  function Arrivals(turns: seq<Turn>): seq<Event> {
    if turns == [] then []
    else Arrivals(turns[..|turns| - 1])
         + (if turns[|turns| - 1].Arrived? then [turns[|turns| - 1].event] else [])
  }

  /** The text of the model's deltas, in order. */
  function DeltaText(events: seq<Event>): string {
    if events == [] then ""
    else DeltaText(events[..|events| - 1]) + TextOfEvent(events[|events| - 1])
  }

  function TextOfEvent(e: Event): string {
    if e.kind == "model.delta" then e.data else ""
  }

  lemma {:induction false} DeltaTextSnoc(events: seq<Event>, e: Event)
    ensures DeltaText(events + [e]) == DeltaText(events) + TextOfEvent(e)
  {
    assert (events + [e])[..|events|] == events;
  }

  lemma {:induction false} ApplySnoc(g: Config, c: Coalescer, ops: seq<Op>, op: Op)
    requires g.max >= 1
    ensures ApplyAll(g, c, ops + [op]) == Apply(g, ApplyAll(g, c, ops), op)
    ensures AddedText(ops + [op]) == AddedText(ops) + TextOf(op)
  {
    assert (ops + [op])[..|ops|] == ops;
  }

  /** The cursor once `i` of the owed events are forwarded. */
  function CursorAt(owed: seq<Event>, i: nat, after: nat): nat
    requires i <= |owed|
  {
    if i == 0 then after else owed[i - 1].sequence
  }

  /** The coalescer was handed exactly the text of the first `i` owed events. */
  ghost predicate Forwarded(
    g: Config, c0: Coalescer, c: Coalescer, ops: seq<Op>, owed: seq<Event>, i: nat, cursor: nat, after: nat)
  {
    && g.max >= 1 && i <= |owed| && cursor == CursorAt(owed, i, after)
    && c == ApplyAll(g, c0, ops) && AddedText(ops) == DeltaText(owed[..i])
  }

  function OpsOf(e: Event, now: real, later: real): seq<Op> {
    if e.kind == "model.delta" then [Add(e.data, now, later)] else []
  }

  lemma {:induction false} OwedIsNew(log: seq<Event>, after: nat, i: nat)
    requires Increasing(log) && i < |After(log, after)|
    ensures After(log, after)[i].sequence > CursorAt(After(log, after), i, after)
  {
    AfterFacts(log, after);
    assert After(log, after)[i] in After(log, after);
  }

  lemma {:induction false} OwedFrom(log: seq<Event>, after: nat, i: nat)
    requires Increasing(log) && i <= |After(log, after)|
    ensures After(log, CursorAt(After(log, after), i, after)) == After(log, after)[i..]
    decreases i
  {
    if i > 0 {
      OwedFrom(log, after, i - 1);
      AfterFirst(log, CursorAt(After(log, after), i - 1, after));
      hide After, Increasing;
      assert After(log, after)[i - 1..][1..] == After(log, after)[i..];
    }
  }

  lemma {:induction false} ForwardOne(
    g: Config, c0: Coalescer, c: Coalescer, ops: seq<Op>, owed: seq<Event>, i: nat, cursor: nat, after: nat,
    now: real, later: real)
    requires Forwarded(g, c0, c, ops, owed, i, cursor, after) && i < |owed|
    ensures var more := OpsOf(owed[i], now, later);
      Forwarded(g, c0, ApplyAll(g, c, more), ops + more, owed, i + 1, owed[i].sequence, after)
  {
    var e := owed[i];
    assert owed[..i + 1] == owed[..i] + [e];
    DeltaTextSnoc(owed[..i], e);
    if e.kind == "model.delta" {
      ApplySnoc(g, c0, ops, Add(e.data, now, later));
      ApplyOne(g, c, Add(e.data, now, later));
    } else {
      assert ops + [] == ops;
    }
    hide ApplyAll, AddedText, DeltaText, Apply;
    ApplyNone(g, c);
  }

  lemma {:induction false} ApplyNone(g: Config, c: Coalescer)
    requires g.max >= 1
    ensures ApplyAll(g, c, []) == c
  {
  }

  lemma {:induction false} ApplyOne(g: Config, c: Coalescer, op: Op)
    requires g.max >= 1
    ensures ApplyAll(g, c, [op]) == Apply(g, c, op)
  {
    ApplySnoc(g, c, [], op);
    assert [] + [op] == [op];
  }

  lemma {:induction false} FlushOne(
    g: Config, c0: Coalescer, c: Coalescer, ops: seq<Op>, owed: seq<Event>, i: nat, cursor: nat, after: nat,
    later: real)
    requires Forwarded(g, c0, c, ops, owed, i, cursor, after)
    ensures Forwarded(g, c0, Flushed(g, c, later), ops + [Flush(later)], owed, i, cursor, after)
  {
    ApplySnoc(g, c0, ops, Flush(later));
    hide ApplyAll, AddedText, DeltaText;
  }

  method Forward(c: DeltaCoalescer, cursor: nat, e: Event, now: real, later: real) returns (next: nat)
    requires c.Valid()
    modifies c
    ensures c.Valid()
    ensures e.sequence <= cursor ==> next == cursor && c.Value() == old(c.Value())
    ensures e.sequence > cursor ==>
              && next == e.sequence
              && c.Value() == ApplyAll(c.Settings(), old(c.Value()), OpsOf(e, now, later))
  {
    if e.sequence <= cursor {
      return cursor;
    }
    next := e.sequence;
    if e.kind == "model.delta" {
      c.Add(e.data, now, later);
      ApplyOne(c.Settings(), old(c.Value()), Add(e.data, now, later));
    } else {
      ApplyNone(c.Settings(), c.Value());
    }
  }

  /** Forwards the next owed event. */
  method ForwardNext(
    c: DeltaCoalescer, e: Event, cursor: nat, now: real, later: real,
    ghost log: seq<Event>, ghost after: nat, ghost c0: Coalescer, ghost ops0: seq<Op>, ghost i: nat)
    returns (next: nat, ghost ops: seq<Op>)
    requires c.Valid() && Increasing(log) && i < |After(log, after)| && e == After(log, after)[i]
    requires Forwarded(c.Settings(), c0, c.Value(), ops0, After(log, after), i, cursor, after)
    modifies c
    ensures c.Valid()
    ensures Forwarded(c.Settings(), c0, c.Value(), ops, After(log, after), i + 1, next, after)
  {
    hide Forwarded, Increasing, ApplyAll, After, Flatten, OpsOf;
    ForwardedCursor(c.Settings(), c0, c.Value(), ops0, After(log, after), i, cursor, after);
    OwedIsNew(log, after, i);
    ForwardOne(c.Settings(), c0, c.Value(), ops0, After(log, after), i, cursor, after, now, later);
    ops := ops0 + OpsOf(e, now, later);
    next := Forward(c, cursor, e, now, later);
  }

  /** `events` are the owed ones from position `i` on, without gaps. */
  ghost predicate NextOwed(events: seq<Event>, owed: seq<Event>, i: nat) {
    i + |events| <= |owed| && forall k :: 0 <= k < |events| ==> events[k] == owed[i + k]
  }

  /** Forwards events that arrive in order and without gaps from owed position `i` on. */
  method ForwardAll(
    c: DeltaCoalescer, events: seq<Event>, cursor: nat, clock: nat -> real, tick: nat,
    ghost log: seq<Event>, ghost after: nat, ghost c0: Coalescer, ghost ops0: seq<Op>, ghost i: nat)
    returns (next: nat, ghost ops: seq<Op>)
    requires c.Valid() && Increasing(log)
    requires Forwarded(c.Settings(), c0, c.Value(), ops0, After(log, after), i, cursor, after)
    requires NextOwed(events, After(log, after), i)
    modifies c
    ensures c.Valid()
    ensures Forwarded(c.Settings(), c0, c.Value(), ops, After(log, after), i + |events|, next, after)
  {
    next, ops := cursor, ops0;
    ghost var owed := After(log, after);
    hide Forwarded, Increasing, After, Flatten;
    for k := 0 to |events|
      invariant c.Valid()
      invariant Forwarded(c.Settings(), c0, c.Value(), ops, owed, i + k, next, after)
    {
      next, ops := ForwardNext(c, events[k], next, clock(tick + 2 * k), clock(tick + 2 * k + 1),
                               log, after, c0, ops, i + k);
    }
  }

  lemma {:induction false} ForwardedCursor(
    g: Config, c0: Coalescer, c: Coalescer, ops: seq<Op>, owed: seq<Event>, i: nat, cursor: nat, after: nat)
    requires Forwarded(g, c0, c, ops, owed, i, cursor, after)
    ensures i <= |owed| && cursor == CursorAt(owed, i, after)
  {
  }

  lemma {:induction false} ArrivalsStep(turns: seq<Turn>, t: nat)
    requires t < |turns|
    ensures Arrivals(turns[..t + 1])
         == Arrivals(turns[..t]) + if turns[t].Arrived? then [turns[t].event] else []
  {
    assert turns[..t + 1][..t] == turns[..t];
  }

  lemma {:induction false} ArrivalsPrefix(turns: seq<Turn>, t: nat)
    requires t <= |turns|
    ensures Arrivals(turns[..t]) <= Arrivals(turns)
    decreases |turns| - t
  {
    if t == |turns| {
      assert turns[..t] == turns;
    } else {
      ArrivalsPrefix(turns, t + 1);
      ArrivalsStep(turns, t);
      hide Arrivals;
    }
  }

  /** The event of turn `t` is the next owed one. */
  lemma {:induction false} NextArrival(turns: seq<Turn>, t: nat, owed: seq<Event>)
    requires t < |turns| && Arrivals(turns) <= owed
    ensures |Arrivals(turns[..t])| <= |owed|
    ensures turns[t].Arrived? ==>
      && |Arrivals(turns[..t + 1])| == |Arrivals(turns[..t])| + 1 <= |owed|
      && [turns[t].event] <= owed[|Arrivals(turns[..t])|..]
    ensures !turns[t].Arrived? ==> Arrivals(turns[..t + 1]) == Arrivals(turns[..t])
  {
    ArrivalsPrefix(turns, t);
    ArrivalsPrefix(turns, t + 1);
    ArrivalsStep(turns, t);
    hide Arrivals;
    var a, b := Arrivals(turns[..t]), Arrivals(turns[..t + 1]);
    if turns[t].Arrived? {
      assert owed[|a|] == Arrivals(turns)[|a|] == b[|a|] == turns[t].event;
    }
  }

  /** The follower's loop: forward what arrives, flush on a timeout. */
  method FollowTurns(
    c: DeltaCoalescer, after: nat, turns: seq<Turn>, clock: nat -> real, ghost log: seq<Event>)
    returns (cursor: nat, ghost ops: seq<Op>)
    requires c.Valid() && Increasing(log) && Arrivals(turns) <= After(log, after)
    modifies c
    ensures c.Valid()
    ensures Forwarded(c.Settings(), old(c.Value()), c.Value(), ops, After(log, after), |Arrivals(turns)|, cursor, after)
  {
    ghost var owed, c0 := After(log, after), c.Value();
    cursor, ops := after, [];
    ForwardedStart(c.Settings(), c0, owed, after);
    hide Forwarded, Increasing, After, Arrivals, Flatten, Flushed;
    assert |Arrivals(turns[..0])| == 0 by { NothingArrived(); }
    for t := 0 to |turns|
      invariant c.Valid()
      invariant Forwarded(c.Settings(), c0, c.Value(), ops, owed, |Arrivals(turns[..t])|, cursor, after)
    {
      NextArrival(turns, t, owed);
      ghost var i := |Arrivals(turns[..t])|;
      if turns[t].Arrived? {
        assert turns[t].event == owed[i..][0];
        cursor, ops := ForwardNext(c, turns[t].event, cursor, clock(2 * t), clock(2 * t + 1),
                                   log, after, c0, ops, i);
      } else if turns[t].TimedOut? {
        FlushOne(c.Settings(), c0, c.Value(), ops, owed, i, cursor, after, clock(2 * t));
        c.Flush(clock(2 * t));
        ops := ops + [Flush(clock(2 * t))];
      }
    }
    assert turns[..|turns|] == turns;
  }

  /** When the run is done: drain the queue, read the rest from the history, and flush. */
  method FinishRun(
    c: DeltaCoalescer, after: nat, queued: seq<Event>, log: seq<Event>, clock: nat -> real, tick: nat,
    cursor: nat, ghost c0: Coalescer, ghost ops0: seq<Op>, ghost i: nat)
    returns (ghost ops: seq<Op>)
    requires c.Valid() && Increasing(log) && NextOwed(queued, After(log, after), i)
    requires Forwarded(c.Settings(), c0, c.Value(), ops0, After(log, after), i, cursor, after)
    modifies c
    ensures c.Valid() && c.parts == []
    ensures c.Value() == ApplyAll(c.Settings(), c0, ops)
    ensures AddedText(ops) == DeltaText(After(log, after))
    ensures Flatten(c.sent) == Held(c0) + DeltaText(After(log, after))
  {
    hide NextOwed, Forwarded, Increasing, ApplyAll, After, Flatten, Held, AddedText, DeltaText;
    ghost var owed := After(log, after);
    var next;
    next, ops := ForwardAll(c, queued, cursor, clock, tick, log, after, c0, ops0, i);
    ghost var j := i + |queued|;
    ForwardedCursor(c.Settings(), c0, c.Value(), ops, owed, j, next, after);
    var rest, later := After(log, next), tick + 2 * |queued|;
    RestIsOwed(log, after, j);
    next, ops := ForwardAll(c, rest, next, clock, later, log, after, c0, ops, j);
    later := later + 2 * |rest|;
    FlushOne(c.Settings(), c0, c.Value(), ops, owed, |owed|, next, after, clock(later));
    c.Flush(clock(later));
    ops := ops + [Flush(clock(later))];
    ForwardedEnd(c.Settings(), c0, c.Value(), ops, owed, next, after);
  }

  /** Every delta past `after` is handed over once and in order, and everything is sent. */
  method FollowRun(
    c: DeltaCoalescer, after: nat, turns: seq<Turn>, queued: seq<Event>, log: seq<Event>, clock: nat -> real)
    returns (ghost ops: seq<Op>)
    requires c.Valid() && Increasing(log)
    requires Arrivals(turns) + queued <= After(log, after)
    modifies c
    ensures c.Valid() && c.parts == []
    ensures c.Value() == ApplyAll(c.Settings(), old(c.Value()), ops)
    ensures AddedText(ops) == DeltaText(After(log, after))
    ensures Flatten(c.sent) == old(Held(c.Value())) + DeltaText(After(log, after))
  {
    SplitPrefix(Arrivals(turns), queued, After(log, after));
    hide NextOwed, Forwarded, Increasing, ApplyAll, After, Arrivals, Flatten, Held, AddedText, DeltaText;
    ghost var c0 := c.Value();
    var cursor;
    cursor, ops := FollowTurns(c, after, turns, clock, log);
    ops := FinishRun(c, after, queued, log, clock, 2 * |turns|, cursor, c0, ops, |Arrivals(turns)|);
  }

  lemma {:induction false} RestIsOwed(log: seq<Event>, after: nat, i: nat)
    requires Increasing(log) && i <= |After(log, after)|
    ensures var rest := After(log, CursorAt(After(log, after), i, after));
      NextOwed(rest, After(log, after), i) && i + |rest| == |After(log, after)|
  {
    OwedFrom(log, after, i);
    hide After, CursorAt;
  }

  lemma {:induction false} SplitPrefix(a: seq<Event>, b: seq<Event>, all: seq<Event>)
    requires a + b <= all
    ensures a <= all && NextOwed(b, all, |a|) && |a| + |b| <= |all|
  {
    assert forall k :: 0 <= k < |a| ==> a[k] == (a + b)[k];
    assert forall k :: 0 <= k < |b| ==> b[k] == (a + b)[|a| + k];
  }

  lemma {:induction false} NothingArrived()
    ensures Arrivals([]) == []
  {
  }

  lemma {:induction false} ForwardedStart(g: Config, c0: Coalescer, owed: seq<Event>, after: nat)
    requires g.max >= 1
    ensures Forwarded(g, c0, c0, [], owed, 0, after, after)
  {
  }

  lemma {:induction false} ForwardedEnd(
    g: Config, c0: Coalescer, c: Coalescer, ops: seq<Op>, owed: seq<Event>, cursor: nat, after: nat)
    requires Forwarded(g, c0, c, ops, owed, |owed|, cursor, after) && c.parts == []
    ensures c == ApplyAll(g, c0, ops) && AddedText(ops) == DeltaText(owed)
    ensures Flatten(c.sent) == Held(c0) + DeltaText(owed)
  {
    assert owed[..|owed|] == owed;
    TextIsConserved(g, c0, ops);
    assert Flatten(c.parts) == "";
  }
}
