/** Reading archives back: the paged `core.context_read` tool and `recover_sources`. */
module Recovery {
  import opened Messages
  import opened Grouping
  import opened History
  import opened Compaction
  import opened ContextRuns
  import opened Sequences

  const MAX_READ_CHARS: nat := 4096
  const PAGE_CHARS: nat := 512
  const MAX_PAGES: nat := 256
  const MAX_ARCHIVES: nat := 32

  datatype Page = Page(content: string, next: Option<nat>)

  datatype RecoveryError =
    | BadBounds | Unavailable | PagingLimit | Malformed
    | InvalidChain | NotContiguous | CountMismatch | Incomplete

  /** One page of a stored text. */
  function ReadPage(text: string, offset: nat, limit: int): Result<Page, RecoveryError> {
    if !(1 <= limit <= MAX_READ_CHARS) then Err(BadBounds)
    else if offset > |text| then Err(BadBounds)
    else
      var end := if offset + limit <= |text| then offset + limit else |text|;
      Ok(Page(text[offset..end], if end < |text| then Some(end) else None))
  }

  /** The page loop: it reassembles the text exactly when the text fits the paging limit. */
  method ReadAll(text: string) returns (r: Result<string, RecoveryError>)
    ensures |text| <= PAGE_CHARS * MAX_PAGES ==> r == Ok(text)
    ensures |text| > PAGE_CHARS * MAX_PAGES ==> r == Err(PagingLimit)
  {
    var parts, offset := "", 0;
    for i := 0 to MAX_PAGES
      invariant offset == PAGE_CHARS * i <= |text|
      invariant parts == text[..offset]
      invariant i > 0 ==> offset < |text|
    {
      var page := ReadPage(text, offset, PAGE_CHARS);
      assert page.Ok?;
      parts := parts + page.value.content;
      if page.value.next.None? {
        assert parts == text;
        return Ok(parts);
      }
      offset := page.value.next.value;
      assert parts == text[..offset];
    }
    r := Err(PagingLimit);
  }

  /** One archive, checked against the position it must end at. */
  function Fetched(texts: map<string, string>, decode: string -> Option<Payload>, id: string, through: nat)
    : Result<Payload, RecoveryError>
  {
    if id !in texts then Err(Unavailable)
    else if |texts[id]| > PAGE_CHARS * MAX_PAGES then Err(PagingLimit)
    else
      match decode(texts[id])
      case None => Err(Malformed)
      case Some(p) =>
        if p.through != through then Err(NotContiguous)
        else if |p.messages| != p.through - p.start then Err(CountMismatch)
        else Ok(p)
  }

  method FetchArchive(texts: map<string, string>, decode: string -> Option<Payload>, id: string, through: nat)
    returns (r: Result<Payload, RecoveryError>)
    ensures r == Fetched(texts, decode, id, through)
  {
    if id !in texts {
      return Err(Unavailable);
    }
    var text := ReadAll(texts[id]);
    if text.Err? {
      return Err(text.error);
    }
    var payload := decode(text.value);
    if payload.None? {
      return Err(Malformed);
    }
    if payload.value.through != through {
      return Err(NotContiguous);
    }
    if |payload.value.messages| != payload.value.through - payload.value.start {
      return Err(CountMismatch);
    }
    r := Ok(payload.value);
  }

  function PutBefore(r: Result<seq<Message>, RecoveryError>, later: seq<Message>)
    : Result<seq<Message>, RecoveryError>
  {
    match r case Err(e) => Err(e) case Ok(ms) => Ok(ms + later)
  }

  lemma {:induction false} PutBeforeTwice(r: Result<seq<Message>, RecoveryError>, a: seq<Message>, b: seq<Message>)
    ensures PutBefore(PutBefore(r, a), b) == PutBefore(r, a + b)
    ensures PutBefore(r, []) == r
  {
    if r.Ok? {
      assert (r.value + a) + b == r.value + (a + b);
      assert r.value + [] == r.value;
    }
  }

  /** Following `previous_archive_id` from `id`: the messages up to `through`, oldest first. */
  function Walk(texts: map<string, string>, decode: string -> Option<Payload>,
                id: Option<string>, through: nat, visited: set<string>)
    : Result<seq<Message>, RecoveryError>
    requires |visited| <= MAX_ARCHIVES
    decreases MAX_ARCHIVES - |visited|
  {
    if id.None? || id.value == "" then
      if through != 0 then Err(Incomplete) else Ok([])
    else if id.value in visited || |visited| >= MAX_ARCHIVES then Err(InvalidChain)
    else
      match Fetched(texts, decode, id.value, through)
      case Err(e) => Err(e)
      case Ok(p) =>
        PutBefore(Walk(texts, decode, p.previous, p.start, visited + {id.value}), p.messages)
  }

  function Recovered(texts: map<string, string>, decode: string -> Option<Payload>, s: Snapshot)
    : Result<seq<Message>, RecoveryError>
    requires s.offset <= Cursor(s)
  {
    var tail := if s.history.Some? then AfterCursor(s) else [];
    if s.compaction.None? then Ok(tail)
    else
      match Walk(texts, decode, Some(s.compaction.value.archiveId), s.compaction.value.through, {})
      case Err(e) => Err(e)
      case Ok(earlier) => Ok(earlier + tail)
  }

  /** `recover_sources` as the source runs it: chunks are put in front of what is already read. */
  method RecoverSources(texts: map<string, string>, decode: string -> Option<Payload>, s: Snapshot)
    returns (r: Result<seq<Message>, RecoveryError>)
    requires s.offset <= Cursor(s)
    ensures r == Recovered(texts, decode, s)
  {
    hide AfterCursor, Fetched;
    var tail := if s.history.Some? then AfterCursor(s) else [];
    if s.compaction.None? {
      return Ok(tail);
    }
    var artifact, through := Some(s.compaction.value.archiveId), s.compaction.value.through;
    var chunks: seq<Message> := [];
    var visited: set<string> := {};
    ghost var whole := Walk(texts, decode, artifact, through, {});
    PutBeforeTwice(whole, [], []);
    while artifact.Some? && artifact.value != ""
      invariant |visited| <= MAX_ARCHIVES
      invariant whole == PutBefore(Walk(texts, decode, artifact, through, visited), chunks)
      decreases MAX_ARCHIVES - |visited|
    {
      var id := artifact.value;
      if id in visited || |visited| >= MAX_ARCHIVES {
        return Err(InvalidChain);
      }
      var fetched := FetchArchive(texts, decode, id, through);
      if fetched.Err? {
        return Err(fetched.error);
      }
      var payload := fetched.value;
      ghost var rest := Walk(texts, decode, payload.previous, payload.start, visited + {id});
      PutBeforeTwice(rest, payload.messages, chunks);
      chunks := payload.messages + chunks;
      visited := visited + {id};
      through, artifact := payload.start, payload.previous;
    }
    if through != 0 {
      return Err(Incomplete);
    }
    assert [] + chunks == chunks;
    r := Ok(chunks + tail);
  }

  // ---------------------------------------------------------------- any store, sound or not

  /** An archive that can be read, ends at `through` and holds as many messages as it covers. */
  ghost predicate Readable(texts: map<string, string>, decode: string -> Option<Payload>, id: string, through: nat) {
    && id in texts && |texts[id]| <= PAGE_CHARS * MAX_PAGES && decode(texts[id]).Some?
    && var p := decode(texts[id]).value; p.through == through && p.start + |p.messages| == through
  }

  /** The archives `ids`, each readable and each beginning where the next older one ends, lead from `id`
      and `through` back to `left` and `start`; `ms` are their messages, oldest first. */
  ghost predicate Leads(
    texts: map<string, string>, decode: string -> Option<Payload>, id: Option<string>, through: nat,
    ids: seq<string>, left: Option<string>, start: nat, ms: seq<Message>)
    decreases |ids|
  {
    if ids == [] then left == id && start == through && ms == []
    else
      && id == Some(ids[0]) && ids[0] != "" && Readable(texts, decode, ids[0], through)
      && var p := decode(texts[ids[0]]).value;
      && |p.messages| <= |ms| && ms[|ms| - |p.messages|..] == p.messages
      && Leads(texts, decode, p.previous, p.start, ids[1..], left, start, ms[..|ms| - |p.messages|])
  }

  /** How the walk ends at `left` with the archives `seen`: at the start of the log, or at the first fault. */
  ghost predicate EndsAt(
    texts: map<string, string>, decode: string -> Option<Payload>, left: Option<string>, start: nat,
    seen: set<string>, ms: seq<Message>, r: Result<seq<Message>, RecoveryError>)
  {
    if left.None? || left.value == "" then r == if start == 0 then Ok(ms) else Err(Incomplete)
    else
      && !(left.value !in seen && |seen| < MAX_ARCHIVES && Readable(texts, decode, left.value, start))
      && match r
         case Err(InvalidChain) => left.value in seen || |seen| == MAX_ARCHIVES
         case Err(Unavailable) => left.value !in texts
         case Err(PagingLimit) => left.value in texts && |texts[left.value]| > PAGE_CHARS * MAX_PAGES
         case Err(Malformed) => left.value in texts && decode(texts[left.value]).None?
         case Err(NotContiguous) =>
           left.value in texts && decode(texts[left.value]).Some? && decode(texts[left.value]).value.through != start
         case Err(CountMismatch) =>
           && left.value in texts && decode(texts[left.value]).Some?
           && var p := decode(texts[left.value]).value; p.start + |p.messages| != p.through == start
         case _ => false
  }

  lemma {:induction false} FetchedMeans(
    texts: map<string, string>, decode: string -> Option<Payload>, id: string, through: nat)
    ensures Fetched(texts, decode, id, through).Ok? <==> Readable(texts, decode, id, through)
    ensures Fetched(texts, decode, id, through).Ok? ==>
              decode(texts[id]) == Some(Fetched(texts, decode, id, through).value)
  {
  }

  lemma {:induction false} LeadsOneMore(
    texts: map<string, string>, decode: string -> Option<Payload>, id: string, through: nat, p: Payload,
    ids: seq<string>, left: Option<string>, start: nat, earlier: seq<Message>)
    requires id != "" && Readable(texts, decode, id, through) && decode(texts[id]) == Some(p)
    requires Leads(texts, decode, p.previous, p.start, ids, left, start, earlier)
    ensures Leads(texts, decode, Some(id), through, [id] + ids, left, start, earlier + p.messages)
  {
    var ms := earlier + p.messages;
    assert ms[|ms| - |p.messages|..] == p.messages && ms[..|ms| - |p.messages|] == earlier;
    assert ([id] + ids)[1..] == ids;
  }

  /** The next archive is new, within the limit and readable. */
  ghost predicate GoesOn(
    texts: map<string, string>, decode: string -> Option<Payload>, id: Option<string>, through: nat,
    visited: set<string>)
  {
    && id.Some? && id.value != "" && id.value !in visited && |visited| < MAX_ARCHIVES
    && Readable(texts, decode, id.value, through)
  }

  lemma {:induction false} WalkStops(
    texts: map<string, string>, decode: string -> Option<Payload>, id: Option<string>, through: nat,
    visited: set<string>)
    requires |visited| <= MAX_ARCHIVES && !GoesOn(texts, decode, id, through, visited)
    ensures EndsAt(texts, decode, id, through, visited, [], Walk(texts, decode, id, through, visited))
  {
    hide Fetched, Readable;
    if id.Some? {
      FetchedMeans(texts, decode, id.value, through);
      FaultIsReported(texts, decode, id.value, through);
    }
  }

  lemma {:induction false} WalkGoesOn(
    texts: map<string, string>, decode: string -> Option<Payload>, id: Option<string>, through: nat,
    visited: set<string>)
    requires |visited| <= MAX_ARCHIVES && GoesOn(texts, decode, id, through, visited)
    ensures var p := decode(texts[id.value]).value;
      Walk(texts, decode, id, through, visited) ==
        PutBefore(Walk(texts, decode, p.previous, p.start, visited + {id.value}), p.messages)
  {
    FetchedMeans(texts, decode, id.value, through);
    hide Fetched;
  }

  lemma {:induction false} EndsLater(
    texts: map<string, string>, decode: string -> Option<Payload>, left: Option<string>, start: nat,
    seen: set<string>, ms: seq<Message>, r: Result<seq<Message>, RecoveryError>, later: seq<Message>)
    requires EndsAt(texts, decode, left, start, seen, ms, r)
    ensures EndsAt(texts, decode, left, start, seen, ms + later, PutBefore(r, later))
  {
    hide Readable;
  }

  /** Whatever is stored: the walk follows distinct archives, at most 32, that are readable and
      contiguous, and returns their messages if they reach the start of the log; otherwise it reports
      the first fault. */
  lemma {:induction false} WalkIsExact(
    texts: map<string, string>, decode: string -> Option<Payload>, id: Option<string>, through: nat,
    visited: set<string>)
    returns (ids: seq<string>, left: Option<string>, start: nat, ms: seq<Message>)
    requires |visited| <= MAX_ARCHIVES
    ensures Leads(texts, decode, id, through, ids, left, start, ms) && start + |ms| == through
    ensures Distinct(ids) && (forall k <- ids :: k !in visited) && |visited| + |ids| <= MAX_ARCHIVES
    ensures EndsAt(texts, decode, left, start, visited + Elements(ids), ms, Walk(texts, decode, id, through, visited))
    decreases MAX_ARCHIVES - |visited|
  {
    hide Leads, Walk, EndsAt, PutBefore;
    if GoesOn(texts, decode, id, through, visited) {
      var p := decode(texts[id.value]).value;
      var rest, earlier;
      rest, left, start, earlier := WalkIsExact(texts, decode, p.previous, p.start, visited + {id.value});
      ids, ms := [id.value] + rest, earlier + p.messages;
      LeadsOneMore(texts, decode, id.value, through, p, rest, left, start, earlier);
      WalkGoesOn(texts, decode, id, through, visited);
      EndsLater(texts, decode, left, start, visited + {id.value} + Elements(rest), earlier,
                Walk(texts, decode, p.previous, p.start, visited + {id.value}), p.messages);
      ElementsCons(id.value, rest);
      assert visited + {id.value} + Elements(rest) == visited + Elements(ids);
      DistinctHead(id.value, rest);
      hide Distinct, Elements;
    } else {
      ids, left, start, ms := [], id, through, [];
      WalkStops(texts, decode, id, through, visited);
      NoneLeads(texts, decode, id, through);
      assert visited + Elements<string>([]) == visited;
    }
  }

  lemma {:induction false} NoneLeads(
    texts: map<string, string>, decode: string -> Option<Payload>, id: Option<string>, through: nat)
    ensures Leads(texts, decode, id, through, [], id, through, [])
  {
  }

  lemma {:induction false} FaultIsReported(
    texts: map<string, string>, decode: string -> Option<Payload>, id: string, through: nat)
    ensures match Fetched(texts, decode, id, through)
      case Ok(_) => Readable(texts, decode, id, through)
      case Err(Unavailable) => id !in texts
      case Err(PagingLimit) => id in texts && |texts[id]| > PAGE_CHARS * MAX_PAGES
      case Err(Malformed) => id in texts && decode(texts[id]).None?
      case Err(NotContiguous) => id in texts && decode(texts[id]).Some? && decode(texts[id]).value.through != through
      case Err(CountMismatch) =>
        && id in texts && decode(texts[id]).Some?
        && var p := decode(texts[id]).value; p.start + |p.messages| != p.through == through
      case _ => false
  {
  }

  lemma {:induction false} ElementsCons(x: string, rest: seq<string>)
    ensures Elements([x] + rest) == {x} + Elements(rest)
  {
  }

  lemma {:induction false} DistinctHead(x: string, rest: seq<string>)
    requires Distinct(rest) && x !in rest
    ensures Distinct([x] + rest)
  {
  }

  // ---------------------------------------------------------------- the round trip

  /** `encode` and `decode` stand for JSON: what is written is read back. */
  ghost predicate RoundTrips(encode: Payload -> string, decode: string -> Option<Payload>) {
    forall p: Payload :: decode(encode(p)) == Some(p)
  }

  /** The stored texts of the archives. */
  ghost predicate Stores(texts: map<string, string>, artifacts: map<string, Payload>,
                         encode: Payload -> string)
  {
    forall id :: id in artifacts ==> id in texts && texts[id] == encode(artifacts[id])
  }

  /** Every archive of the chain fits the paging limit. */
  ghost predicate Pageable(texts: map<string, string>, ids: seq<string>) {
    forall i :: 0 <= i < |ids| ==> ids[i] in texts && |texts[ids[i]]| <= PAGE_CHARS * MAX_PAGES
  }

  /** Walking a chain finds the whole prefix of the log, exactly when the chain is within the
      limits on archives and pages. */
  lemma {:induction false} WalkFollowsChain(
    texts: map<string, string>, encode: Payload -> string, decode: string -> Option<Payload>,
    artifacts: map<string, Payload>, id: Option<string>, through: nat, log: seq<Message>,
    ids: seq<string>, visited: set<string>)
    requires RoundTrips(encode, decode) && Stores(texts, artifacts, encode)
    requires Chain(artifacts, id, through, log, ids)
    requires |visited| <= MAX_ARCHIVES && forall k :: k in ids ==> k !in visited
    ensures through <= |log|
    ensures Walk(texts, decode, id, through, visited).Ok? <==>
              |visited| + |ids| <= MAX_ARCHIVES && Pageable(texts, ids)
    ensures Walk(texts, decode, id, through, visited).Ok? ==>
              Walk(texts, decode, id, through, visited).value == log[..through]
    decreases |ids|
  {
    if ids != [] {
      var a, rest := artifacts[ids[0]], ids[1..];
      assert decode(encode(a)) == Some(a);
      assert ids[0] !in visited && texts[ids[0]] == encode(a);
      if |visited| < MAX_ARCHIVES && |texts[ids[0]]| <= PAGE_CHARS * MAX_PAGES {
        WalkFollowsChain(texts, encode, decode, artifacts, a.previous, a.start, log, rest, visited + {ids[0]});
        assert log[..a.start] + log[a.start..a.through] == log[..a.through];
        assert Pageable(texts, ids) <==> Pageable(texts, rest) by {
          assert forall i :: 0 <= i < |rest| ==> rest[i] == ids[i + 1];
          assert forall i :: 1 <= i < |ids| ==> ids[i] == rest[i - 1];
        }
      }
    }
  }

  /** In every reachable state the archives and the retained tail give the full log back, and
      recovery fails only beyond the limits on archives and on pages per archive. */
  lemma {:induction false} RecoveryRoundTrip(
    log: seq<Message>, p: Settings, events: seq<Event>,
    texts: map<string, string>, encode: Payload -> string, decode: string -> Option<Payload>)
    requires p.keepRecent >= 1 && MessageGroups(log).Ok? && Runs(Start(log), p, events)
    requires RoundTrips(encode, decode)
    requires Stores(texts, After(Start(log), p, events).artifacts, encode)
    ensures var w := After(Start(log), p, events);
      && w.state.offset <= Cursor(w.state)
      && (Recovered(texts, decode, w.state).Ok? <==>
            |w.chain| <= MAX_ARCHIVES && Pageable(texts, w.chain))
      && (Recovered(texts, decode, w.state).Ok? ==>
            Recovered(texts, decode, w.state).value == w.log)
  {
    hide After, MessageGroups, NeverCuts, PinsValid;
    StartIsInvariant(log, p.keepRecent);
    RunKeepsInvariant(Start(log), p, events);
    var w := After(Start(log), p, events);
    WalkFollowsChain(texts, encode, decode, w.artifacts, PreviousArchive(w.state), Cursor(w.state),
                     w.log, w.chain, {});
    RetainedAfterCursor(w);
    assert w.log == w.log[..Cursor(w.state)] + w.log[Cursor(w.state)..];
    assert w.log[0..] == w.log;
  }

  /** The chain holds one archive per compaction, so 32 of them are the most that recover. */
  lemma {:induction false} ChainCountsCompactions(w: World, p: Settings, events: seq<Event>)
    requires Runs(w, p, events)
    ensures |After(w, p, events).chain| == |w.chain| + Compactions(events)
    decreases |events|
  {
    if events != [] {
      ChainCountsCompactions(Next(w, p, events[0]), p, events[1..]);
    }
  }

  function Compactions(events: seq<Event>): nat {
    if events == [] then 0 else (if events[0].Compact? then 1 else 0) + Compactions(events[1..])
  }
}
