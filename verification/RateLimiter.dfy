/** The token bucket and in-flight limiter, over real time. */
module RateLimiter {
  import opened Messages

  datatype Policy = Policy(ratePerMinute: nat, burst: nat, maxConcurrent: Option<nat>)

  datatype Bucket = Bucket(tokens: real, lastRefill: real, active: nat)

  datatype Reason = RateLimitExceeded | ConcurrencyLimitExceeded | LimiterError

  datatype Decision =
    | Allowed(remaining: int, limit: nat)
    | Denied(reason: Reason, retryAfter: real, limit: nat)

  function FillRate(p: Policy): real {
    p.ratePerMinute as real / 60.0
  }

  /** What a policy gives in a time. */
  function Refill(p: Policy, time: real): real {
    time * FillRate(p)
  }

  function MinReal(a: real, b: real): real { if a <= b then a else b }

  function MaxReal(a: real, b: real): real { if a >= b then a else b }

  // ---------------------------------------------------------------- one bucket

  /** The bucket of a key at `now`: full when new, refilled for the time passed otherwise. */
  function Refilled(p: Policy, state: Option<Bucket>, now: real): Bucket {
    match state
    case None => Bucket(p.burst as real, now, 0)
    case Some(b) =>
      var elapsed := MaxReal(0.0, now - b.lastRefill);
      Bucket(MinReal(p.burst as real, b.tokens + Refill(p, elapsed)), now, b.active)
  }

  predicate AtCapacity(p: Policy, b: Bucket) {
    p.maxConcurrent.Some? && b.active >= p.maxConcurrent.value
  }

  function RetryAfter(p: Policy, b: Bucket): real {
    if p.ratePerMinute > 0 then MaxReal(0.1, (1.0 - b.tokens) / FillRate(p)) else 60.0
  }

  function Decide(p: Policy, b: Bucket): (r: (Bucket, Decision)) {
    if AtCapacity(p, b) then (b, Denied(ConcurrencyLimitExceeded, 1.0, p.maxConcurrent.value))
    else if b.tokens < 1.0 then (b, Denied(RateLimitExceeded, RetryAfter(p, b), p.burst))
    else
      var b' := b.(tokens := b.tokens - 1.0,
                   active := if p.maxConcurrent.Some? then b.active + 1 else b.active);
      (b', Allowed(b'.tokens.Floor, p.burst))
  }

  function Acquired(p: Policy, state: Option<Bucket>, now: real): (Bucket, Decision) {
    Decide(p, Refilled(p, state, now))
  }

  /** The answer when the limiter itself fails: nothing is counted. */
  function Unavailable(failClosed: bool): Decision {
    if failClosed then Denied(LimiterError, 5.0, 0) else Allowed(1, 1)
  }

  function Released(p: Policy, state: Option<Bucket>): Option<Bucket> {
    if p.maxConcurrent.Some? && state.Some? && state.value.active > 0
    then Some(state.value.(active := state.value.active - 1))
    else state
  }

  // ---------------------------------------------------------------- the limiter object

  type Key = (string, string)

  function AtLeastOne(n: int): nat {
    if n < 1 then 1 else n
  }

  class InMemoryApiRateLimiter {
    const fallback: Policy
    const policies: map<string, Policy>
    const failClosed: bool
    var states: map<Key, Bucket>

    function PolicyOf(route: string): Policy
    {
      if route in policies then policies[route] else fallback
    }

    function BucketOf(tenant: string, route: string): Option<Bucket>
      reads this
    {
      if (tenant, route) in states then Some(states[(tenant, route)]) else None
    }

    constructor (defaultRate: int, defaultBurst: int, maxConcurrentRuns: int, overrides: map<string, Policy>,
                 failClosed: bool)
      ensures states == map[] && this.failClosed == failClosed
      ensures fallback == Policy(AtLeastOne(defaultRate), AtLeastOne(defaultBurst), None)
      ensures policies == map["read" := fallback, "write" := fallback,
                              "run_create" := fallback.(maxConcurrent := Some(AtLeastOne(maxConcurrentRuns)))]
                          + overrides
      ensures forall route :: route in overrides ==> PolicyOf(route) == overrides[route]
      ensures forall route :: route !in overrides ==>
                PolicyOf(route) == Policy(AtLeastOne(defaultRate), AtLeastOne(defaultBurst),
                  if route == "run_create" then Some(AtLeastOne(maxConcurrentRuns)) else None)
    {
      var f := Policy(AtLeastOne(defaultRate), AtLeastOne(defaultBurst), None);
      fallback := f;
      policies := map["read" := f, "write" := f,
                      "run_create" := f.(maxConcurrent := Some(AtLeastOne(maxConcurrentRuns)))] + overrides;
      states := map[];
      this.failClosed := failClosed;
    }

    /** `clock` is None when reading the clock raises. */
    method Acquire(tenant: string, route: string, clock: Option<real>) returns (d: Decision)
      modifies this`states
      ensures clock.None? ==> states == old(states) && d == Unavailable(failClosed)
      ensures clock.Some? ==>
        && (tenant, route) in states
        && (states[(tenant, route)], d) == Acquired(PolicyOf(route), old(BucketOf(tenant, route)), clock.value)
        && states == old(states)[(tenant, route) := states[(tenant, route)]]
    {
      if clock.None? {
        return if failClosed then Denied(LimiterError, 5.0, 0) else Allowed(1, 1);
      }
      var now := clock.value;
      var policy, key := PolicyOf(route), (tenant, route);
      var b: Bucket;
      if key !in states {
        b := Bucket(policy.burst as real, now, 0);
      } else {
        b := states[key];
        var elapsed := MaxReal(0.0, now - b.lastRefill);
        b := Bucket(MinReal(policy.burst as real, b.tokens + Refill(policy, elapsed)), now, b.active);
      }
      states := states[key := b];
      if policy.maxConcurrent.Some? && b.active >= policy.maxConcurrent.value {
        return Denied(ConcurrencyLimitExceeded, 1.0, policy.maxConcurrent.value);
      }
      if b.tokens < 1.0 {
        return Denied(RateLimitExceeded, RetryAfter(policy, b), policy.burst);
      }
      b := b.(tokens := b.tokens - 1.0);
      if policy.maxConcurrent.Some? {
        b := b.(active := b.active + 1);
      }
      states := states[key := b];
      return Allowed(b.tokens.Floor, policy.burst);
    }

    method Release(tenant: string, route: string)
      modifies this`states
      ensures BucketOf(tenant, route) == Released(PolicyOf(route), old(BucketOf(tenant, route)))
      ensures forall k :: k != (tenant, route) ==>
                (k in states <==> k in old(states)) && (k in states ==> states[k] == old(states)[k])
    {
      var policy, key := PolicyOf(route), (tenant, route);
      if policy.maxConcurrent.None? {
        return;
      }
      if key in states && states[key].active > 0 {
        states := states[key := states[key].(active := states[key].active - 1)];
      }
    }
  }

  // ---------------------------------------------------------------- runs of one key

  datatype Event = AcquireAt(now: real) | Release

  function Step(p: Policy, state: Option<Bucket>, e: Event): Option<Bucket> {
    match e
    case AcquireAt(now) => Some(Acquired(p, state, now).0)
    case Release => Released(p, state)
  }

  predicate Admits(p: Policy, state: Option<Bucket>, e: Event) {
    e.AcquireAt? && Acquired(p, state, e.now).1.Allowed?
  }

  /** The clock never goes back, neither against the bucket nor along the events. */
  ghost predicate ClockRuns(state: Option<Bucket>, events: seq<Event>)
    decreases |events|
  {
    events == [] ||
    (match events[0]
     case AcquireAt(now) =>
       && (state.Some? ==> state.value.lastRefill <= now)
       && ClockRuns(Some(Bucket(0.0, now, 0)), events[1..])
     case Release => ClockRuns(state, events[1..]))
  }

  /** How many acquires in the window [t1, t2] are admitted. */
  ghost function AdmittedIn(p: Policy, state: Option<Bucket>, events: seq<Event>, t1: real, t2: real): nat
    decreases |events|
  {
    if events == [] then 0
    else
      (if Admits(p, state, events[0]) && t1 <= events[0].now <= t2 then 1 else 0)
      + AdmittedIn(p, Step(p, state, events[0]), events[1..], t1, t2)
  }

  ghost predicate TokensValid(p: Policy, state: Option<Bucket>) {
    state.Some? ==> 0.0 <= state.value.tokens <= p.burst as real
  }

  lemma {:induction false} MulNonNegative(a: real, b: real)
    requires a >= 0.0 && b >= 0.0
    ensures a * b >= 0.0
  {
  }

  lemma {:induction false} RefillNonNegative(p: Policy, time: real)
    requires time >= 0.0
    ensures Refill(p, time) >= 0.0
  {
    MulNonNegative(time, FillRate(p));
  }

  lemma {:induction false} RefillAdds(p: Policy, a: real, b: real)
    ensures Refill(p, a) + Refill(p, b) == Refill(p, a + b)
  {
    hide FillRate;
  }

  lemma {:induction false} TokensStayValid(p: Policy, state: Option<Bucket>, e: Event)
    requires TokensValid(p, state)
    ensures TokensValid(p, Step(p, state, e))
    ensures e.AcquireAt? ==> 0.0 <= Refilled(p, state, e.now).tokens <= p.burst as real
  {
    hide Refill;
    if e.AcquireAt? && state.Some? {
      RefillNonNegative(p, MaxReal(0.0, e.now - state.value.lastRefill));
    }
  }

  /** Only the last refill matters to the clock. */
  lemma {:induction false} ClockIgnoresTokens(a: Option<Bucket>, b: Option<Bucket>, events: seq<Event>)
    requires ClockRuns(a, events)
    requires a.Some? && b.Some? && a.value.lastRefill == b.value.lastRefill
    ensures ClockRuns(b, events)
    decreases |events|
  {
    if events != [] && events[0].Release? {
      ClockIgnoresTokens(a, b, events[1..]);
    }
  }

  lemma {:induction false} ClockAfterStep(p: Policy, state: Option<Bucket>, events: seq<Event>)
    requires events != [] && ClockRuns(state, events)
    ensures ClockRuns(Step(p, state, events[0]), events[1..])
  {
    match events[0]
    case AcquireAt(now) =>
      ClockIgnoresTokens(Some(Bucket(0.0, now, 0)), Step(p, state, events[0]), events[1..]);
    case Release =>
      if state.Some? {
        ClockIgnoresTokens(state, Step(p, state, events[0]), events[1..]);
      }
  }

  lemma {:induction false} NothingAfterWindow(p: Policy, state: Option<Bucket>, events: seq<Event>, t1: real, t2: real)
    requires ClockRuns(state, events) && state.Some? && state.value.lastRefill > t2
    ensures AdmittedIn(p, state, events, t1, t2) == 0
    decreases |events|
  {
    if events != [] {
      ClockAfterStep(p, state, events);
      NothingAfterWindow(p, Step(p, state, events[0]), events[1..], t1, t2);
    }
  }

  /** What a bucket can still give until t2: its tokens and the refill until then. */
  ghost function Potential(p: Policy, b: Bucket, t2: real): real {
    b.tokens + Refill(p, t2 - b.lastRefill)
  }

  /** An admitted request takes one token. */
  lemma {:induction false} DecideSpends(p: Policy, b: Bucket)
    ensures var (b', d) := Decide(p, b);
      && b'.lastRefill == b.lastRefill
      && b'.tokens + (if d.Allowed? then 1.0 else 0.0) == b.tokens
  {
  }

  /** Admitting a request pays for it from the potential. */
  lemma {:induction false} AcquirePays(p: Policy, b: Bucket, now: real, t2: real)
    requires b.lastRefill <= now
    ensures var (b', d) := Acquired(p, Some(b), now);
      && b'.lastRefill == now
      && Potential(p, b', t2) + (if d.Allowed? then 1.0 else 0.0) <= Potential(p, b, t2)
  {
    DecideSpends(p, Refilled(p, Some(b), now));
    hide Refill, Decide;
    RefillAdds(p, t2 - now, now - b.lastRefill);
    assert (t2 - now) + (now - b.lastRefill) == t2 - b.lastRefill;
  }

  lemma {:induction false} PotentialNonNegative(p: Policy, b: Bucket, t2: real)
    requires b.tokens >= 0.0 && b.lastRefill <= t2
    ensures Potential(p, b, t2) >= 0.0
  {
    hide Refill;
    RefillNonNegative(p, t2 - b.lastRefill);
  }

  lemma {:induction false} PotentialBoundsAdmissions(
    p: Policy, state: Option<Bucket>, events: seq<Event>, t1: real, t2: real)
    requires state.Some? && TokensValid(p, state) && ClockRuns(state, events)
    requires state.value.lastRefill <= t2
    ensures AdmittedIn(p, state, events, t1, t2) as real <= Potential(p, state.value, t2)
    decreases |events|
  {
    hide Potential, Acquired, TokensValid;
    PotentialOfValid(p, state, t2);
    if events != [] {
      var e, next := events[0], Step(p, state, events[0]);
      ClockAfterStep(p, state, events);
      TokensStayValid(p, state, e);
      if e.Release? {
        PotentialBoundsAdmissions(p, next, events[1..], t1, t2);
        ReleaseKeepsPotential(p, state, t2);
      } else {
        AcquirePays(p, state.value, e.now, t2);
        if e.now > t2 {
          NothingAfterWindow(p, next, events[1..], t1, t2);
        } else {
          PotentialBoundsAdmissions(p, next, events[1..], t1, t2);
        }
      }
    }
  }

  lemma {:induction false} PotentialOfValid(p: Policy, state: Option<Bucket>, t2: real)
    requires state.Some? && TokensValid(p, state) && state.value.lastRefill <= t2
    ensures Potential(p, state.value, t2) >= 0.0
  {
    PotentialNonNegative(p, state.value, t2);
  }

  lemma {:induction false} ReleaseKeepsPotential(p: Policy, state: Option<Bucket>, t2: real)
    requires state.Some?
    ensures Released(p, state).Some? && Released(p, state).value.lastRefill == state.value.lastRefill
    ensures Potential(p, Released(p, state).value, t2) == Potential(p, state.value, t2)
  {
  }

  /** What a policy allows in a window. */
  ghost function Allowance(p: Policy, t1: real, t2: real): real {
    p.burst as real + Refill(p, t2 - t1)
  }

  lemma {:induction false} AllowanceNonNegative(p: Policy, t1: real, t2: real)
    requires t1 <= t2
    ensures Allowance(p, t1, t2) >= 0.0
  {
    hide Refill;
    RefillNonNegative(p, t2 - t1);
  }

  /** A bucket at its first use in the window gives at most the burst and the window's refill. */
  lemma {:induction false} FirstUseInWindow(p: Policy, state: Option<Bucket>, now: real, t1: real, t2: real)
    requires TokensValid(p, state) && t1 <= now <= t2
    ensures var (b', d) := Acquired(p, state, now);
      && b'.lastRefill == now
      && Potential(p, b', t2) + (if d.Allowed? then 1.0 else 0.0)
           <= Allowance(p, t1, t2)
  {
    TokensStayValid(p, state, AcquireAt(now));
    DecideSpends(p, Refilled(p, state, now));
    hide Refill, Decide;
    RefillNonNegative(p, now - t1);
    RefillAdds(p, t2 - now, now - t1);
    assert (t2 - now) + (now - t1) == t2 - t1;
  }

  lemma {:induction false} WindowBoundFrom(
    p: Policy, state: Option<Bucket>, events: seq<Event>, t1: real, t2: real)
    requires TokensValid(p, state) && ClockRuns(state, events) && t1 <= t2
    requires state.Some? ==> state.value.lastRefill <= t1
    ensures AdmittedIn(p, state, events, t1, t2) as real <= Allowance(p, t1, t2)
    decreases |events|
  {
    hide Potential, Acquired, TokensValid, Allowance;
    AllowanceNonNegative(p, t1, t2);
    if events != [] {
      var e, next := events[0], Step(p, state, events[0]);
      ClockAfterStep(p, state, events);
      TokensStayValid(p, state, e);
      if e.Release? {
        WindowBoundFrom(p, next, events[1..], t1, t2);
      } else {
        RefillTime(p, state, e.now);
        if e.now < t1 {
          WindowBoundFrom(p, next, events[1..], t1, t2);
        } else if e.now > t2 {
          NothingAfterWindow(p, next, events[1..], t1, t2);
        } else {
          FirstUseInWindow(p, state, e.now, t1, t2);
          PotentialBoundsAdmissions(p, next, events[1..], t1, t2);
        }
      }
    }
  }

  lemma {:induction false} RefillTime(p: Policy, state: Option<Bucket>, now: real)
    ensures Acquired(p, state, now).0.lastRefill == now
  {
  }

  /** In any window of any run the admitted requests number at most the burst plus what the rate
      allows for the window's length. */
  lemma {:induction false} WindowBound(p: Policy, events: seq<Event>, t1: real, t2: real)
    requires ClockRuns(None, events) && t1 <= t2
    ensures AdmittedIn(p, None, events, t1, t2) as real
            <= p.burst as real + (t2 - t1) * (p.ratePerMinute as real / 60.0)
  {
    WindowBoundFrom(p, None, events, t1, t2);
    hide AdmittedIn, ClockRuns;
  }

  /** A caller limited by the rate who waits as told finds a token, if nobody else asked,
      exactly when the policy has a rate and room for a token. */
  lemma {:induction false} WaitingFindsToken(p: Policy, b: Bucket, wait: real)
    requires 0.0 <= b.tokens <= p.burst as real && !AtCapacity(p, b)
    requires Decide(p, b).1.Denied?
    requires wait >= Decide(p, b).1.retryAfter
    ensures p.ratePerMinute > 0 && p.burst >= 1 ==>
              Acquired(p, Some(b), b.lastRefill + wait).1.Allowed?
    ensures p.ratePerMinute == 0 || p.burst == 0 ==>
              Acquired(p, Some(b), b.lastRefill + wait).1.Denied?
  {
    var fill := FillRate(p);
    if p.ratePerMinute > 0 {
      var need := (1.0 - b.tokens) / fill;
      assert need * fill == 1.0 - b.tokens;
      assert wait >= need;
      MulNonNegative(wait - need, fill);
      assert (wait - need) * fill == wait * fill - need * fill;
    } else {
      assert fill == 0.0;
    }
  }

  /** The wait is not longer than it has to be: at least a tenth of a second is asked for, and of more
      than that nothing less will do. */
  lemma {:induction false} WaitingLessFindsNone(p: Policy, b: Bucket, wait: real)
    requires 0.0 <= b.tokens <= p.burst as real && !AtCapacity(p, b) && p.ratePerMinute > 0
    requires Decide(p, b).1.Denied?
    ensures Decide(p, b).1.retryAfter >= 0.1
    ensures 0.0 <= wait < Decide(p, b).1.retryAfter && Decide(p, b).1.retryAfter > 0.1 ==>
              Acquired(p, Some(b), b.lastRefill + wait).1.Denied?
  {
    var retry, fill := Decide(p, b).1.retryAfter, FillRate(p);
    if 0.0 <= wait < retry && retry > 0.1 {
      var need := (1.0 - b.tokens) / fill;
      assert need * fill == 1.0 - b.tokens;
      assert retry == need;
      LessTimeGivesLess(wait, need, fill);
      assert b.tokens + Refill(p, wait) < 1.0;
      hide Refill, FillRate;
      assert (b.lastRefill + wait) - b.lastRefill == wait;
      assert Refilled(p, Some(b), b.lastRefill + wait).tokens < 1.0;
    }
  }

  lemma {:induction false} LessTimeGivesLess(a: real, b: real, fill: real)
    requires a < b && fill > 0.0
    ensures a * fill < b * fill
  {
  }

  // ---------------------------------------------------------------- requests at one instant

  /** The bucket of a new key after `n` requests at the same instant. */
  ghost function AfterRequests(p: Policy, now: real, n: nat): Option<Bucket> {
    if n == 0 then None else Some(Acquired(p, AfterRequests(p, now, n - 1), now).0)
  }

  function Slots(p: Policy): nat {
    if p.maxConcurrent.Some? && p.maxConcurrent.value < p.burst then p.maxConcurrent.value else p.burst
  }

  lemma {:induction false} NoTimeNoRefill(p: Policy, b: Bucket)
    requires b.tokens <= p.burst as real
    ensures Refilled(p, Some(b), b.lastRefill) == b
  {
  }

  /** A new key's bucket at `now` after as many admissions. */
  function Used(p: Policy, now: real, used: nat): Bucket {
    Bucket((p.burst - used) as real, now, if p.maxConcurrent.Some? then used else 0)
  }

  lemma {:induction false} DecideOnUsed(p: Policy, now: real, used: nat)
    requires used <= Slots(p)
    ensures var (b, d) := Decide(p, Used(p, now, used));
      if used < Slots(p) then b == Used(p, now, used + 1) && d == Allowed(p.burst - used - 1, p.burst)
      else
        && b == Used(p, now, used)
        && if p.maxConcurrent.Some? && p.maxConcurrent.value <= p.burst
           then d == Denied(ConcurrencyLimitExceeded, 1.0, p.maxConcurrent.value)
           else d.Denied? && d.reason == RateLimitExceeded && d.limit == p.burst
  {
    hide RetryAfter;
  }

  /** Requests of a new key at one instant: as many are admitted as the burst and the cap both allow, and
      told what is left of the burst; the others are denied, for concurrency if the cap is reached. */
  lemma {:induction false} RequestsAtOnce(p: Policy, now: real, n: nat)
    ensures var d := Acquired(p, AfterRequests(p, now, n), now).1;
      if n < Slots(p) then d == Allowed(p.burst - n - 1, p.burst)
      else if p.maxConcurrent.Some? && p.maxConcurrent.value <= p.burst
      then d == Denied(ConcurrencyLimitExceeded, 1.0, p.maxConcurrent.value)
      else d.Denied? && d.reason == RateLimitExceeded && d.limit == p.burst
    ensures Refilled(p, AfterRequests(p, now, n), now) == Used(p, now, if n < Slots(p) then n else Slots(p))
  {
    hide Decide, Refilled;
    DecideOnUsed(p, now, if n < Slots(p) then n else Slots(p));
    if n == 0 {
      NewIsFull(p, now);
    } else {
      RequestsAtOnce(p, now, n - 1);
      var used := if n - 1 < Slots(p) then n - 1 else Slots(p);
      DecideOnUsed(p, now, used);
      var b := Decide(p, Used(p, now, used)).0;
      assert AfterRequests(p, now, n) == Some(b);
      assert b == Used(p, now, if n < Slots(p) then n else Slots(p));
      NoTimeNoRefill(p, b);
    }
  }

  lemma {:induction false} NewIsFull(p: Policy, now: real)
    ensures Refilled(p, None, now) == Used(p, now, 0)
  {
  }

  // ---------------------------------------------------------------- requests in flight

  /** Requests as the middleware runs them: an admitted request is released once, a denied one
      never. `open` are the requests in progress. */
  datatype Traffic = Traffic(state: Option<Bucket>, open: set<nat>, admitted: nat, released: nat)

  datatype Request = Begin(id: nat, clock: Option<real>) | Finish(id: nat)

  predicate Possible(t: Traffic, r: Request) {
    match r
    case Begin(id, _) => id !in t.open
    case Finish(id) => id in t.open
  }

  function Serve(p: Policy, failClosed: bool, t: Traffic, r: Request): Traffic
    requires Possible(t, r)
  {
    match r
    case Begin(id, None) =>
      if Unavailable(failClosed).Allowed? then t.(open := t.open + {id}, admitted := t.admitted + 1) else t
    case Begin(id, Some(now)) =>
      var (b, d) := Acquired(p, t.state, now);
      if d.Allowed? then Traffic(Some(b), t.open + {id}, t.admitted + 1, t.released)
      else t.(state := Some(b))
    case Finish(id) =>
      Traffic(Released(p, t.state), t.open - {id}, t.admitted, t.released + 1)
  }

  ghost predicate Served(p: Policy, failClosed: bool, t: Traffic, rs: seq<Request>)
    decreases |rs|
  {
    rs == [] || (Possible(t, rs[0]) && Served(p, failClosed, Serve(p, failClosed, t, rs[0]), rs[1..]))
  }

  ghost function AfterServing(p: Policy, failClosed: bool, t: Traffic, rs: seq<Request>): Traffic
    requires Served(p, failClosed, t, rs)
    decreases |rs|
  {
    if rs == [] then t else AfterServing(p, failClosed, Serve(p, failClosed, t, rs[0]), rs[1..])
  }

  /** The bucket counts exactly the open requests of a bounded route. */
  ghost predicate Counted(p: Policy, t: Traffic) {
    && t.admitted == t.released + |t.open|
    && (t.state.None? ==> t.open == {})
    && (t.state.Some? ==>
          match p.maxConcurrent
          case None => t.state.value.active == 0
          case Some(cap) => t.state.value.active == |t.open| <= cap)
  }

  lemma {:induction false} ServingCounts(p: Policy, t: Traffic, rs: seq<Request>)
    requires Counted(p, t) && Served(p, true, t, rs)
    ensures Counted(p, AfterServing(p, true, t, rs))
    decreases |rs|
  {
    if rs != [] {
      assert Counted(p, Serve(p, true, t, rs[0]));
      ServingCounts(p, Serve(p, true, t, rs[0]), rs[1..]);
    }
  }

  function Quiescent(): Traffic {
    Traffic(None, {}, 0, 0)
  }

  /** With a cap on requests in flight, and a limiter that denies when it fails, the active count is
      admitted minus released and never exceeds the cap. */
  lemma {:induction false} InFlightIsCapped(p: Policy, rs: seq<Request>)
    requires p.maxConcurrent.Some? && Served(p, true, Quiescent(), rs)
    ensures var t := AfterServing(p, true, Quiescent(), rs);
      && |t.open| == t.admitted - t.released <= p.maxConcurrent.value
      && (t.state.Some? ==> t.state.value.active == t.admitted - t.released)
  {
    ServingCounts(p, Quiescent(), rs);
  }

  /** Requests that arrive while the limiter fails. */
  function Outage(first: nat, count: nat): seq<Request>
    decreases count
  {
    if count == 0 then [] else [Begin(first, None)] + Outage(first + 1, count - 1)
  }

  lemma {:induction false} OutageAdmitsAll(p: Policy, t: Traffic, first: nat, count: nat)
    requires forall id <- t.open :: id < first
    ensures Served(p, false, t, Outage(first, count))
    ensures |AfterServing(p, false, t, Outage(first, count)).open| == |t.open| + count
    decreases count
  {
    if count > 0 {
      var t' := Serve(p, false, t, Begin(first, None));
      OutageAdmitsAll(p, t', first + 1, count - 1);
      assert Outage(first, count)[1..] == Outage(first + 1, count - 1);
    }
  }

  /** The cap holds in all traffic if and only if the limiter denies when it fails. */
  lemma {:induction false} CapHoldsIff(p: Policy, failClosed: bool)
    requires p.maxConcurrent.Some?
    ensures failClosed <==> forall rs :: Served(p, failClosed, Quiescent(), rs) ==>
      |AfterServing(p, failClosed, Quiescent(), rs).open| <= p.maxConcurrent.value
  {
    if failClosed {
      forall rs | Served(p, failClosed, Quiescent(), rs)
        ensures |AfterServing(p, failClosed, Quiescent(), rs).open| <= p.maxConcurrent.value
      {
        InFlightIsCapped(p, rs);
      }
    } else {
      OutageAdmitsAll(p, Quiescent(), 0, p.maxConcurrent.value + 1);
    }
  }
}
