/** The leased work queue and what its runs keep. */
module WorkQueue {
  import opened Messages

  datatype WorkStatus = Pending | Leased | Completed | Failed

  datatype WorkItem = WorkItem(
    id: string, tenant: string, deduplicationKey: string, payload: string,
    status: WorkStatus, attempts: nat, maximumAttempts: nat, availableAt: int,
    leaseOwner: Option<string>, leaseExpiresAt: Option<int>,
    result: Option<string>, error: Option<string>, createdAt: int, updatedAt: int)

  type Key = (string, string)

  datatype Queue = Queue(items: map<string, WorkItem>, deduplication: map<Key, string>)

  function KeyOf(item: WorkItem): Key {
    (item.tenant, item.deduplicationKey)
  }

  // ---------------------------------------------------------------- operations on values

  predicate Eligible(item: WorkItem, now: int) {
    && item.availableAt <= now
    && (item.status == Pending
        || (item.status == Leased && item.leaseExpiresAt.Some? && item.leaseExpiresAt.value <= now))
    && item.attempts < item.maximumAttempts
  }

  /** Who may be handed an item: it is due, may still be attempted, and nobody's lease on it runs. */
  ghost predicate MayBeClaimed(item: WorkItem, now: int) {
    && item.availableAt <= now && item.attempts < item.maximumAttempts
    && match item.status
       case Pending => true
       case Leased => item.leaseExpiresAt.Some? && item.leaseExpiresAt.value <= now
       case _ => false
  }

  lemma {:induction false} EligibleMeans(item: WorkItem, now: int)
    ensures Eligible(item, now) <==> MayBeClaimed(item, now)
  {
  }

  /** The claim order: available first, then created first. */
  predicate Before(a: WorkItem, b: WorkItem) {
    a.availableAt < b.availableAt || (a.availableAt == b.availableAt && a.createdAt <= b.createdAt)
  }

  predicate ClaimChoice(q: Queue, id: string, now: int) {
    && id in q.items && Eligible(q.items[id], now)
    && forall other :: other in q.items && Eligible(q.items[other], now) ==>
         Before(q.items[id], q.items[other])
  }

  function LeasedTo(item: WorkItem, worker: string, now: int, seconds: nat): WorkItem {
    item.(status := Leased, leaseOwner := Some(worker), leaseExpiresAt := Some(now + seconds),
          attempts := item.attempts + 1, updatedAt := now)
  }

  predicate Owned(q: Queue, id: string, worker: string) {
    id in q.items && q.items[id].status == Leased && q.items[id].leaseOwner == Some(worker)
  }

  function Renewed(item: WorkItem, now: int, seconds: nat): WorkItem {
    item.(leaseExpiresAt := Some(now + seconds), updatedAt := now)
  }

  function CompletedWith(item: WorkItem, result: string, now: int): WorkItem {
    item.(status := Completed, result := Some(result), leaseOwner := None, leaseExpiresAt := None,
          updatedAt := now)
  }

  function FailedWith(item: WorkItem, error: string, retry: bool, now: int): WorkItem {
    item.(error := Some(error),
          status := if retry && item.attempts < item.maximumAttempts then Pending else Failed,
          leaseOwner := None, leaseExpiresAt := None, updatedAt := now)
  }

  predicate Finished(item: WorkItem) {
    item.status == Completed || item.status == Failed
  }

  function Expired(q: Queue, cutoff: int): set<string> {
    set id | id in q.items && Finished(q.items[id]) && q.items[id].updatedAt < cutoff
  }

  /** Completed or failed, and not touched since the cutoff. */
  ghost predicate IsPurgeable(item: WorkItem, cutoff: int) {
    item.status in {WorkStatus.Completed, WorkStatus.Failed} && item.updatedAt < cutoff
  }

  /** The oldest finished items, up to the limit. */
  predicate PurgeChoice(q: Queue, cutoff: int, limit: nat, doomed: set<string>) {
    && doomed <= Expired(q, cutoff)
    && |doomed| <= limit
    && (|doomed| < limit ==> doomed == Expired(q, cutoff))
    && forall a, b :: a in doomed && b in Expired(q, cutoff) && b !in doomed ==>
         q.items[a].updatedAt <= q.items[b].updatedAt
  }

  function Purged(q: Queue, doomed: set<string>): Queue {
    var gone := set id | id in doomed && id in q.items :: KeyOf(q.items[id]);
    Queue(q.items - doomed, q.deduplication - gone)
  }

  function Enqueued(q: Queue, item: WorkItem): Queue {
    if KeyOf(item) in q.deduplication then q
    else Queue(q.items[item.id := item], q.deduplication[KeyOf(item) := item.id])
  }

  function Put(q: Queue, item: WorkItem): Queue {
    q.(items := q.items[item.id := item])
  }

  // ---------------------------------------------------------------- the queue object

  class InMemoryWorkQueue {
    var items: map<string, WorkItem>
    var deduplication: map<Key, string>

    function Value(): Queue
      reads this
    {
      Queue(items, deduplication)
    }

    constructor ()
      ensures Value() == Queue(map[], map[])
    {
      items, deduplication := map[], map[];
    }

    /** Known keys return the item they stand for; the queue then stays as it is. */
    method Enqueue(item: WorkItem) returns (stored: WorkItem, added: bool)
      requires Coherent(Value())
      modifies this
      ensures Value() == Enqueued(old(Value()), item)
      ensures added <==> KeyOf(item) !in old(deduplication)
      ensures added ==> stored == item && items == old(items)[item.id := item]
                        && deduplication == old(deduplication)[KeyOf(item) := item.id]
      ensures !added ==> items == old(items) && deduplication == old(deduplication)
      ensures !added ==> stored.id in items && stored == items[stored.id] && KeyOf(stored) == KeyOf(item)
    {
      var key := KeyOf(item);
      if key in deduplication {
        return items[deduplication[key]], false;
      }
      items := items[item.id := item];
      deduplication := deduplication[key := item.id];
      return item, true;
    }

    /** The item that has been available longest, of those the one created first, among the available
        ones with attempts left that wait or whose lease has run out. */
    method Claim(worker: string, now: int, seconds: nat) returns (claimed: Option<WorkItem>)
      requires Coherent(Value())
      modifies this`items
      ensures claimed.None? ==> Value() == old(Value())
      ensures claimed.None? <==> forall id :: id in old(items) ==> !MayBeClaimed(old(items)[id], now)
      ensures claimed.Some? ==>
        var id := claimed.value.id;
        && id in old(items) && MayBeClaimed(old(items)[id], now)
        && forall other :: other in old(items) && MayBeClaimed(old(items)[other], now) ==>
             var a, b := old(items)[id], old(items)[other];
             a.availableAt < b.availableAt || (a.availableAt == b.availableAt && a.createdAt <= b.createdAt)
      ensures claimed.Some? ==>
        var id := claimed.value.id;
        && ClaimChoice(old(Value()), id, now)
        && claimed.value == LeasedTo(old(items)[id], worker, now, seconds)
        && Value() == Put(old(Value()), claimed.value)
    {
      forall id | id in items
        ensures Eligible(items[id], now) <==> MayBeClaimed(items[id], now)
      {
        EligibleMeans(items[id], now);
      }
      var rest := set id | id in items && Eligible(items[id], now);
      if rest == {} {
        assert forall id :: id in items && Eligible(items[id], now) ==> id in rest;
        return None;
      }
      var best :| best in rest;
      rest := rest - {best};
      while rest != {}
        invariant best in items && Eligible(items[best], now) && best !in rest
        invariant forall id :: id in rest ==> id in items && Eligible(items[id], now)
        invariant forall id :: id in items && Eligible(items[id], now) && id !in rest ==>
                    Before(items[best], items[id])
        decreases |rest|
      {
        var id :| id in rest;
        rest := rest - {id};
        if !Before(items[best], items[id]) {
          best := id;
        }
      }
      var item := LeasedTo(items[best], worker, now, seconds);
      items := items[best := item];
      return Some(item);
    }

    method Renew(id: string, worker: string, now: int, seconds: nat) returns (conflict: bool)
      modifies this`items
      ensures conflict <==> !Owned(old(Value()), id, worker)
      ensures Value() == if conflict then old(Value())
                         else old(Value()).(items := old(items)[id := Renewed(old(items)[id], now, seconds)])
    {
      if !Owned(Value(), id, worker) {
        return true;
      }
      items := items[id := Renewed(items[id], now, seconds)];
      return false;
    }

    method Complete(id: string, worker: string, result: string, now: int) returns (conflict: bool)
      modifies this`items
      ensures conflict <==> !Owned(old(Value()), id, worker)
      ensures Value() == if conflict then old(Value())
                         else old(Value()).(items := old(items)[id := CompletedWith(old(items)[id], result, now)])
    {
      if !Owned(Value(), id, worker) {
        return true;
      }
      items := items[id := CompletedWith(items[id], result, now)];
      return false;
    }

    method Fail(id: string, worker: string, error: string, retry: bool, now: int) returns (conflict: bool)
      modifies this`items
      ensures conflict <==> !Owned(old(Value()), id, worker)
      ensures Value() == if conflict then old(Value())
                         else old(Value()).(items := old(items)[id := FailedWith(old(items)[id], error, retry, now)])
    {
      if !Owned(Value(), id, worker) {
        return true;
      }
      items := items[id := FailedWith(items[id], error, retry, now)];
      return false;
    }

    /** Deletes the oldest finished items and frees their keys. */
    method PurgeFinished(cutoff: int, limit: nat) returns (count: nat, ghost doomed: set<string>)
      modifies this
      ensures PurgeChoice(old(Value()), cutoff, limit, doomed)
      ensures count == |doomed| <= limit && Value() == Purged(old(Value()), doomed)
      ensures forall id :: id in old(items) ==>
        && (id in items <==> id !in doomed) && (id in items ==> items[id] == old(items)[id])
      ensures forall id :: id in doomed ==> id in old(items) && IsPurgeable(old(items)[id], cutoff)
      ensures forall id :: id in items && IsPurgeable(items[id], cutoff) ==>
        count == limit && forall gone :: gone in doomed ==> old(items)[gone].updatedAt <= items[id].updatedAt
    {
      var chosen := ChooseDoomed(cutoff, limit);
      doomed := chosen;
      var gone := set id | id in chosen && id in items :: KeyOf(items[id]);
      items := items - chosen;
      deduplication := deduplication - gone;
      count := |chosen|;
    }

    method ChooseDoomed(cutoff: int, limit: nat) returns (chosen: set<string>)
      ensures PurgeChoice(Value(), cutoff, limit, chosen)
    {
      chosen := {};
      var left := Expired(Value(), cutoff);
      while |chosen| < limit && left != {}
        invariant left + chosen == Expired(Value(), cutoff) && left !! chosen && |chosen| <= limit
        invariant forall a, b :: a in chosen && b in left ==> items[a].updatedAt <= items[b].updatedAt
        decreases |left|
      {
        var oldest := Oldest(left);
        chosen, left := chosen + {oldest}, left - {oldest};
      }
    }

    method Oldest(ids: set<string>) returns (oldest: string)
      requires ids != {} && ids <= items.Keys
      ensures oldest in ids && forall id :: id in ids ==> items[oldest].updatedAt <= items[id].updatedAt
    {
      oldest :| oldest in ids;
      var rest := ids - {oldest};
      while rest != {}
        invariant oldest in ids && rest <= ids
        invariant forall id :: id in ids - rest ==> items[oldest].updatedAt <= items[id].updatedAt
        decreases |rest|
      {
        var id :| id in rest;
        rest := rest - {id};
        if items[id].updatedAt < items[oldest].updatedAt {
          oldest := id;
        }
      }
    }
  }

  /** What a handler does with a claimed item. */
  datatype HandlerOutcome = Returned(result: string) | Raised(error: string) | CancelledWork

  /** One turn of a worker that nobody interferes with: claim, handle, then complete or fail. */
  method RunOnce(queue: InMemoryWorkQueue, worker: string, seconds: nat, now: int,
                 outcome: HandlerOutcome, later: int)
    returns (worked: bool, ghost id: string)
    requires Coherent(queue.Value())
    modifies queue
    ensures worked <==> exists i :: i in old(queue.items) && Eligible(old(queue.items)[i], now)
    ensures !worked ==> queue.Value() == old(queue.Value())
    ensures worked ==> ClaimChoice(old(queue.Value()), id, now)
    ensures worked ==>
      var leased := LeasedTo(old(queue.items)[id], worker, now, seconds);
      queue.Value() == old(queue.Value()).(items := old(queue.items)[id :=
        match outcome
        case Returned(result) => CompletedWith(leased, result, later)
        case Raised(error) => FailedWith(leased, error, true, later)
        case CancelledWork => FailedWith(leased, "worker cancelled", true, later)])
  {
    var claimed := queue.Claim(worker, now, seconds);
    if claimed.None? {
      return false, "";
    }
    var item := claimed.value;
    worked, id := true, item.id;
    var conflict;
    match outcome
    case Returned(result) =>
      conflict := queue.Complete(item.id, worker, result, later);
    case Raised(error) =>
      conflict := queue.Fail(item.id, worker, error, true, later);
    case CancelledWork =>
      conflict := queue.Fail(item.id, worker, "worker cancelled", true, later);
  }

  // ---------------------------------------------------------------- invariants

  /** Live items and deduplication keys correspond one to one. */
  ghost predicate Coherent(q: Queue) {
    && (forall id :: id in q.items ==>
          q.items[id].id == id && KeyOf(q.items[id]) in q.deduplication
          && q.deduplication[KeyOf(q.items[id])] == id)
    && (forall key :: key in q.deduplication ==>
          q.deduplication[key] in q.items && KeyOf(q.items[q.deduplication[key]]) == key)
  }

  /** `claimers` are the workers that claimed the item, in order. */
  ghost predicate ItemValid(item: WorkItem, claimers: seq<string>) {
    && item.attempts == |claimers| <= item.maximumAttempts
    && (item.status == Pending ==> item.attempts < item.maximumAttempts)
    && (item.status == Leased <==> item.leaseOwner.Some?)
    && (item.status == Leased <==> item.leaseExpiresAt.Some?)
    && (item.status == Leased ==> claimers != [] && item.leaseOwner == Some(claimers[|claimers| - 1]))
  }

  /** When a lease was last granted, by a claim or a renewal, and for how long. */
  datatype Grant = Grant(at: int, seconds: nat)

  /** `claims` remembers, for every item ever enqueued, its attempt limit, its claimers and the last
      lease granted on it. */
  datatype Record = Record(limit: nat, claimers: seq<string>, granted: Option<Grant>)

  datatype World = World(queue: Queue, claims: map<string, Record>)

  datatype Step =
    | EnqueueStep(item: WorkItem)
    | ClaimStep(id: string, worker: string, now: int, seconds: nat)
    | RenewStep(id: string, worker: string, now: int, seconds: nat)
    | CompleteStep(id: string, worker: string, result: string, now: int)
    | FailStep(id: string, worker: string, error: string, retry: bool, now: int)
    | PurgeStep(cutoff: int, limit: nat, doomed: set<string>)

  /** Items arrive new: an unused id, nothing attempted, at least one attempt allowed. */
  predicate NewItem(w: World, item: WorkItem) {
    && item.id !in w.claims
    && item.status == Pending && item.attempts == 0 && item.maximumAttempts >= 1
    && item.leaseOwner.None? && item.leaseExpiresAt.None?
  }

  ghost predicate Enabled(w: World, step: Step) {
    match step
    case EnqueueStep(item) => NewItem(w, item)
    case ClaimStep(id, _, now, _) => ClaimChoice(w.queue, id, now) && id in w.claims
    case PurgeStep(cutoff, limit, doomed) => PurgeChoice(w.queue, cutoff, limit, doomed)
    case _ => true
  }

  /** Operations without the lease are refused and change nothing. */
  ghost function Next(w: World, step: Step): World
    requires Enabled(w, step)
  {
    var q := w.queue;
    match step
    case EnqueueStep(item) =>
      if KeyOf(item) in q.deduplication then w
      else World(Enqueued(q, item), w.claims[item.id := Record(item.maximumAttempts, [], None)])
    case ClaimStep(id, worker, now, seconds) =>
      World(q.(items := q.items[id := LeasedTo(q.items[id], worker, now, seconds)]),
            w.claims[id := w.claims[id].(claimers := w.claims[id].claimers + [worker],
                                         granted := Some(Grant(now, seconds)))])
    case RenewStep(id, worker, now, seconds) =>
      if Owned(q, id, worker) && id in w.claims
      then World(q.(items := q.items[id := Renewed(q.items[id], now, seconds)]),
                 w.claims[id := w.claims[id].(granted := Some(Grant(now, seconds)))])
      else w
    case CompleteStep(id, worker, result, now) =>
      if Owned(q, id, worker)
      then w.(queue := q.(items := q.items[id := CompletedWith(q.items[id], result, now)])) else w
    case FailStep(id, worker, error, retry, now) =>
      if Owned(q, id, worker)
      then w.(queue := q.(items := q.items[id := FailedWith(q.items[id], error, retry, now)])) else w
    case PurgeStep(_, _, doomed) => w.(queue := Purged(q, doomed))
  }

  ghost predicate Invariant(w: World) {
    && Coherent(w.queue)
    && (forall id :: id in w.queue.items ==>
          && id in w.claims
          && ItemValid(w.queue.items[id], w.claims[id].claimers)
          && LeaseAsGranted(w.queue.items[id], w.claims[id].granted)
          && w.queue.items[id].maximumAttempts == w.claims[id].limit)
    && (forall id :: id in w.claims ==> |w.claims[id].claimers| <= w.claims[id].limit)
  }

  /** A lease ends as long after it was last granted as it was granted for. */
  ghost predicate LeaseAsGranted(item: WorkItem, granted: Option<Grant>) {
    item.status == Leased ==>
      granted.Some? && item.leaseExpiresAt == Some(granted.value.at + granted.value.seconds)
  }

  ghost predicate Runs(w: World, steps: seq<Step>)
    decreases |steps|
  {
    steps == [] || (Enabled(w, steps[0]) && Runs(Next(w, steps[0]), steps[1..]))
  }

  ghost function After(w: World, steps: seq<Step>): World
    requires Runs(w, steps)
    decreases |steps|
  {
    if steps == [] then w else After(Next(w, steps[0]), steps[1..])
  }

  lemma {:induction false} PurgeKeepsCoherent(q: Queue, doomed: set<string>)
    requires Coherent(q)
    ensures Coherent(Purged(q, doomed))
  {
    var p := Purged(q, doomed);
    forall id | id in p.items
      ensures KeyOf(p.items[id]) in p.deduplication
    {
      var key := KeyOf(q.items[id]);
      forall other | other in doomed && other in q.items
        ensures KeyOf(q.items[other]) != key
      {
        assert q.deduplication[KeyOf(q.items[other])] == other;
      }
    }
    forall key | key in p.deduplication
      ensures p.deduplication[key] in p.items
    {
      var id := q.deduplication[key];
      assert id in q.items && KeyOf(q.items[id]) == key;
    }
  }

  /** Replacing an item by one with the same id and key keeps the correspondence. */
  lemma {:induction false} ReplaceKeepsCoherent(q: Queue, id: string, item: WorkItem)
    requires Coherent(q) && id in q.items && item.id == id && KeyOf(item) == KeyOf(q.items[id])
    ensures Coherent(q.(items := q.items[id := item]))
  {
  }

  lemma {:induction false} ReplaceKeepsInvariant(w: World, id: string, item: WorkItem, record: Record)
    requires Invariant(w) && id in w.queue.items
    requires item.id == id && KeyOf(item) == KeyOf(w.queue.items[id])
    requires item.maximumAttempts == w.queue.items[id].maximumAttempts == record.limit
    requires ItemValid(item, record.claimers) && LeaseAsGranted(item, record.granted)
    ensures Invariant(World(w.queue.(items := w.queue.items[id := item]), w.claims[id := record]))
  {
    hide Coherent, ItemValid, LeaseAsGranted;
    ReplaceKeepsCoherent(w.queue, id, item);
    LimitHolds(item, record);
  }

  lemma {:induction false} LimitHolds(item: WorkItem, record: Record)
    requires ItemValid(item, record.claimers) && item.maximumAttempts == record.limit
    ensures |record.claimers| <= record.limit
  {
  }

  lemma {:induction false} EnqueueKeepsInvariant(w: World, item: WorkItem)
    requires Invariant(w) && NewItem(w, item)
    ensures Invariant(Next(w, EnqueueStep(item)))
  {
    var w' := Next(w, EnqueueStep(item));
    if KeyOf(item) !in w.queue.deduplication {
      assert ItemValid(item, []) && LeaseAsGranted(item, None);
      hide Coherent, ItemValid, LeaseAsGranted;
      EnqueueKeepsCoherent(w.queue, item);
    }
  }

  lemma {:induction false} EnqueueKeepsCoherent(q: Queue, item: WorkItem)
    requires Coherent(q) && item.id !in q.items && KeyOf(item) !in q.deduplication
    ensures Coherent(Enqueued(q, item))
  {
  }

  lemma {:induction false} OwnerStepKeepsInvariant(w: World, step: Step)
    requires Invariant(w) && (step.RenewStep? || step.CompleteStep? || step.FailStep?)
    ensures Invariant(Next(w, step))
  {
    var q, id := w.queue, step.id;
    if Owned(q, id, step.worker) {
      hide Coherent;
      var item :=
        if step.RenewStep? then Renewed(q.items[id], step.now, step.seconds)
        else if step.CompleteStep? then CompletedWith(q.items[id], step.result, step.now)
        else FailedWith(q.items[id], step.error, step.retry, step.now);
      assert q.items[id].id == id by { ItemsKnowTheirId(q, id); }
      var record := if step.RenewStep? then w.claims[id].(granted := Some(Grant(step.now, step.seconds)))
                    else w.claims[id];
      assert ItemValid(item, record.claimers);
      ReplaceKeepsInvariant(w, id, item, record);
      assert w.claims[id := w.claims[id]] == w.claims;
    }
  }

  lemma {:induction false} ItemsKnowTheirId(q: Queue, id: string)
    requires Coherent(q) && id in q.items
    ensures q.items[id].id == id
  {
  }

  lemma {:induction false} ClaimKeepsInvariant(w: World, step: Step)
    requires Invariant(w) && step.ClaimStep? && Enabled(w, step)
    ensures Invariant(Next(w, step))
  {
    hide Coherent;
    var q, id := w.queue, step.id;
    var item := LeasedTo(q.items[id], step.worker, step.now, step.seconds);
    var record := w.claims[id].(claimers := w.claims[id].claimers + [step.worker],
                                granted := Some(Grant(step.now, step.seconds)));
    ItemsKnowTheirId(q, id);
    assert ItemValid(item, record.claimers);
    ReplaceKeepsInvariant(w, id, item, record);
  }

  lemma {:induction false} StepKeepsInvariant(w: World, step: Step)
    requires Invariant(w) && Enabled(w, step)
    ensures Invariant(Next(w, step))
  {
    match step
    case EnqueueStep(item) => EnqueueKeepsInvariant(w, item);
    case ClaimStep(_, _, _, _) => ClaimKeepsInvariant(w, step);
    case PurgeStep(_, _, doomed) =>
      hide Coherent, ItemValid;
      PurgeKeepsCoherent(w.queue, doomed);
    case _ => OwnerStepKeepsInvariant(w, step);
  }

  lemma {:induction false} RunKeepsInvariant(w: World, steps: seq<Step>)
    requires Invariant(w) && Runs(w, steps)
    ensures Invariant(After(w, steps))
    decreases |steps|
  {
    hide Invariant, Enabled, Next;
    if steps != [] {
      StepKeepsInvariant(w, steps[0]);
      RunKeepsInvariant(Next(w, steps[0]), steps[1..]);
    }
  }

  // ---------------------------------------------------------------- theorems

  function Start(): World {
    World(Queue(map[], map[]), map[])
  }

  /** Over every run, with any workers, crashes and expiries: no item is ever claimed more often
      than its limit allows, live items are in a proper state, and the deduplication index is a
      bijection with them. */
  lemma {:induction false} RunsAreSafe(steps: seq<Step>)
    requires Runs(Start(), steps)
    ensures var w := After(Start(), steps);
      && Coherent(w.queue)
      && (forall id :: id in w.claims ==> |w.claims[id].claimers| <= w.claims[id].limit)
      && (forall id :: id in w.queue.items ==>
            && id in w.claims
            && ItemValid(w.queue.items[id], w.claims[id].claimers)
            && w.queue.items[id].maximumAttempts == w.claims[id].limit)
  {
    RunKeepsInvariant(Start(), steps);
  }

  /** A running lease protects its holder: over every run, an item that is still leased is claimed again
      only when the lease has lasted, since it was last granted, as long as it was granted for. */
  lemma {:induction false} LeaseProtectsHolder(steps: seq<Step>, id: string, worker: string, now: int, seconds: nat)
    requires Runs(Start(), steps) && Enabled(After(Start(), steps), ClaimStep(id, worker, now, seconds))
    requires After(Start(), steps).queue.items[id].status == Leased
    ensures var granted := After(Start(), steps).claims[id].granted;
      granted.Some? && now >= granted.value.at + granted.value.seconds
  {
    RunKeepsInvariant(Start(), steps);
    EligibleMeans(After(Start(), steps).queue.items[id], now);
    hide Coherent, Runs, After;
  }

  /** An item changes only so: a claim or its owner's renewal leases it, its owner completes it with a
      result, or its owner fails it with an error, which makes it wait again exactly for a retry while
      attempts remain. Nothing else about it ever changes. */
  lemma {:induction false} ItemsChangeOnlySo(w: World, step: Step, id: string)
    requires Invariant(w) && Enabled(w, step) && id in w.queue.items && id in Next(w, step).queue.items
    requires Next(w, step).queue.items[id] != w.queue.items[id]
    ensures var a, b := w.queue.items[id], Next(w, step).queue.items[id];
      && b.id == a.id && KeyOf(b) == KeyOf(a) && b.payload == a.payload && b.createdAt == a.createdAt
      && b.availableAt == a.availableAt && b.maximumAttempts == a.maximumAttempts
      && match step
         case ClaimStep(i, worker, now, seconds) =>
           && i == id && b.status == Leased && b.leaseOwner == Some(worker) && b.attempts == a.attempts + 1
           && b.leaseExpiresAt == Some(now + seconds) && b.result == a.result && b.error == a.error
         case RenewStep(i, worker, now, seconds) =>
           && i == id && a.status == b.status == Leased && a.leaseOwner == b.leaseOwner == Some(worker)
           && b.leaseExpiresAt == Some(now + seconds)
           && b.attempts == a.attempts && b.result == a.result && b.error == a.error
         case CompleteStep(i, worker, result, now) =>
           && i == id && a.status == Leased && a.leaseOwner == Some(worker)
           && b.status == Completed && b.result == Some(result) && b.updatedAt == now
           && b.attempts == a.attempts && b.error == a.error
         case FailStep(i, worker, error, retry, now) =>
           && i == id && a.status == Leased && a.leaseOwner == Some(worker)
           && b.status == (if retry && a.attempts < a.maximumAttempts then Pending else Failed)
           && b.error == Some(error) && b.updatedAt == now && b.attempts == a.attempts && b.result == a.result
         case _ => false
  {
    hide Coherent;
  }

  /** A worker whose lease was taken over by another cannot renew, complete or fail the item. */
  lemma {:induction false} TakenLeaseIsPowerless(steps: seq<Step>, id: string, worker: string)
    requires Runs(Start(), steps) && id in After(Start(), steps).claims
    requires var claimers := After(Start(), steps).claims[id].claimers;
      claimers == [] || claimers[|claimers| - 1] != worker
    ensures var w := After(Start(), steps);
      && !Owned(w.queue, id, worker)
      && (forall now, seconds :: Next(w, RenewStep(id, worker, now, seconds)) == w)
      && (forall result, now :: Next(w, CompleteStep(id, worker, result, now)) == w)
      && (forall error, retry, now :: Next(w, FailStep(id, worker, error, retry, now)) == w)
  {
    RunKeepsInvariant(Start(), steps);
    hide Coherent;
  }

  /** A finished item changes only by being purged. */
  lemma {:induction false} FinishedIsFinal(w: World, step: Step, id: string)
    requires Invariant(w) && Enabled(w, step)
    requires id in w.queue.items && Finished(w.queue.items[id])
    ensures id in Next(w, step).queue.items ==> Next(w, step).queue.items[id] == w.queue.items[id]
    ensures id !in Next(w, step).queue.items ==> step.PurgeStep? && id in step.doomed
  {
    hide Coherent;
  }

  /** The item is finished, or was and is purged: its id never comes back. */
  ghost predicate Closed(w: World, id: string, item: WorkItem) {
    id in w.claims && (id in w.queue.items ==> w.queue.items[id] == item && Finished(item))
  }

  lemma {:induction false} StepKeepsClosed(w: World, step: Step, id: string, item: WorkItem)
    requires Invariant(w) && Enabled(w, step) && Closed(w, id, item)
    ensures Closed(Next(w, step), id, item) && Next(w, step).claims[id] == w.claims[id]
  {
    hide Coherent;
  }

  /** Over every run a finished item stays as it is until it is purged, and is never claimed
      again, nor does its id return. */
  lemma {:induction false} FinishedStaysFinished(w: World, steps: seq<Step>, id: string, item: WorkItem)
    requires Invariant(w) && Runs(w, steps) && Closed(w, id, item)
    ensures Closed(After(w, steps), id, item) && After(w, steps).claims[id] == w.claims[id]
    decreases |steps|
  {
    if steps != [] {
      hide Invariant, Enabled, Next, Closed;
      StepKeepsInvariant(w, steps[0]);
      StepKeepsClosed(w, steps[0], id, item);
      FinishedStaysFinished(Next(w, steps[0]), steps[1..], id, item);
    }
  }

  /** The step is not one its lease owner takes on the item. */
  ghost predicate NotByOwner(w: World, step: Step, id: string) {
    match step
    case RenewStep(i, worker, _, _) => i == id ==> !Owned(w.queue, id, worker)
    case CompleteStep(i, worker, _, _) => i == id ==> !Owned(w.queue, id, worker)
    case FailStep(i, worker, _, _, _) => i == id ==> !Owned(w.queue, id, worker)
    case _ => true
  }

  ghost predicate OwnerSilent(w: World, steps: seq<Step>, id: string)
    requires Runs(w, steps)
    decreases |steps|
  {
    steps == [] || (NotByOwner(w, steps[0], id) && OwnerSilent(Next(w, steps[0]), steps[1..], id))
  }

  /** An abandoned lease is claimed again after its expiry exactly while attempts remain. */
  lemma {:induction false} ExpiredLeaseIsClaimable(item: WorkItem, claimers: seq<string>, now: int)
    requires ItemValid(item, claimers) && item.status == Leased
    requires item.availableAt <= now && item.leaseExpiresAt.value <= now
    ensures Eligible(item, now) <==> |claimers| < item.maximumAttempts
  {
  }

  /** On its last attempt it is not: if that worker is gone, the item stays leased for ever. */
  lemma {:induction false} LastLeaseIsStuck(w: World, steps: seq<Step>, id: string)
    requires Invariant(w) && Runs(w, steps) && OwnerSilent(w, steps, id)
    requires id in w.queue.items && w.queue.items[id].status == Leased
    requires w.queue.items[id].attempts == w.queue.items[id].maximumAttempts
    ensures id in After(w, steps).queue.items
    ensures After(w, steps).queue.items[id] == w.queue.items[id]
    decreases |steps|
  {
    if steps != [] {
      var step := steps[0];
      StepKeepsInvariant(w, step);
      StuckStep(w, step, id);
      LastLeaseIsStuck(Next(w, step), steps[1..], id);
    }
  }

  lemma {:induction false} StuckStep(w: World, step: Step, id: string)
    requires Invariant(w) && Enabled(w, step) && NotByOwner(w, step, id)
    requires id in w.queue.items && w.queue.items[id].status == Leased
    requires w.queue.items[id].attempts == w.queue.items[id].maximumAttempts
    ensures id in Next(w, step).queue.items && Next(w, step).queue.items[id] == w.queue.items[id]
  {
    hide Coherent, ItemValid;
  }

  /** Enqueue a one-attempt item, and claim it. */
  function LastClaim(item: WorkItem, worker: string, now: int, seconds: nat): seq<Step> {
    [EnqueueStep(item), ClaimStep(item.id, worker, now, seconds)]
  }

  lemma {:induction false} LastClaimRuns(item: WorkItem, worker: string, now: int, seconds: nat)
    requires NewItem(Start(), item) && item.maximumAttempts == 1 && item.availableAt <= now
    ensures Runs(Start(), LastClaim(item, worker, now, seconds))
    ensures var w := After(Start(), LastClaim(item, worker, now, seconds));
      && w.queue.items == map[item.id := LeasedTo(item, worker, now, seconds)]
      && w.queue.items[item.id].attempts == w.queue.items[item.id].maximumAttempts
  {
    var steps := LastClaim(item, worker, now, seconds);
    var w1 := Next(Start(), steps[0]);
    assert w1.queue.items == map[item.id := item] && item.id in w1.claims;
    assert ClaimChoice(w1.queue, item.id, now);
    var w2 := Next(w1, steps[1]);
    assert w2.queue.items == map[item.id := LeasedTo(item, worker, now, seconds)];
    assert steps[1..] == [steps[1]] && [steps[1]][1..] == [];
    hide Next, Enabled;
    assert Runs(w2, []) && After(w2, []) == w2;
    assert Runs(w1, [steps[1]]) && After(w1, [steps[1]]) == w2;
  }

  /** This happens to every item with a single attempt whose worker is lost: it is never completed,
      failed, claimed or purged, whatever the others do and however much time passes. */
  lemma {:induction false} LostWorkerStrandsItem(
    item: WorkItem, worker: string, now: int, seconds: nat, later: seq<Step>)
    requires NewItem(Start(), item) && item.maximumAttempts == 1 && item.availableAt <= now
    ensures Runs(Start(), LastClaim(item, worker, now, seconds))
    ensures var w := After(Start(), LastClaim(item, worker, now, seconds));
      Runs(w, later) && OwnerSilent(w, later, item.id) ==>
      && item.id in After(w, later).queue.items
      && After(w, later).queue.items[item.id] == LeasedTo(item, worker, now, seconds)
  {
    LastClaimRuns(item, worker, now, seconds);
    hide LastClaim, Runs, After, OwnerSilent;
    RunKeepsInvariant(Start(), LastClaim(item, worker, now, seconds));
    var w := After(Start(), LastClaim(item, worker, now, seconds));
    if Runs(w, later) && OwnerSilent(w, later, item.id) {
      LastLeaseIsStuck(w, later, item.id);
    }
  }
}
