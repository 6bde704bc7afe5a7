/** Per-principal publish rate limiting with token buckets, over the reals. */
module RateLimit {
  import opened Common
  import opened Sequences

  type Amount = r: real | 0.0 <= r

  /** `burst` tokens at most, refilled at `perSecond`; at most `principals` buckets are remembered. */
  datatype Config = Config(perSecond: Amount, burst: Amount, principals: nat)

  datatype Bucket = Bucket(tokens: real, lastRefill: real)

  /** The buckets, and their owners in first-seen order. */
  datatype Limiter = Limiter(config: Config, buckets: map<Principal, Bucket>, order: seq<Principal>, evictions: nat)

  function Min(a: real, b: real): real {
    if a <= b then a else b
  }

  function Refilled(config: Config, bucket: Bucket, now: real): real {
    Min(bucket.tokens + Refill(config.perSecond, now - bucket.lastRefill), config.burst)
  }

  /** What `elapsed` seconds add to a bucket. */
  function Refill(perSecond: Amount, elapsed: real): real {
    elapsed * perSecond
  }

  lemma {:induction false} RefillGrows(perSecond: Amount, a: real, b: real)
    ensures Refill(perSecond, a + b) == Refill(perSecond, a) + Refill(perSecond, b)
    ensures a >= 0.0 ==> Refill(perSecond, a) >= 0.0
    ensures Refill(perSecond, 0.0) == 0.0
  {
  }

  function BucketOf(l: Limiter, principal: Principal, now: real): Bucket {
    if principal in l.buckets then l.buckets[principal] else Bucket(l.config.burst, now)
  }

  predicate Allows(l: Limiter, principal: Principal, now: real) {
    Refilled(l.config, BucketOf(l, principal, now), now) >= 1.0
  }

  function Charged(l: Limiter, principal: Principal, now: real): Bucket {
    var tokens := Refilled(l.config, BucketOf(l, principal, now), now);
    Bucket(if tokens >= 1.0 then tokens - 1.0 else tokens, now)
  }

  /** One call: charge the bucket, and if it is new, queue it and evict the longest-tracked one if over capacity. */
  function Allow(l: Limiter, principal: Principal, now: real): Limiter {
    var charged := l.(buckets := l.buckets[principal := Charged(l, principal, now)]);
    if principal in l.buckets then charged
    else
      var queued := charged.(order := l.order + [principal]);
      if |queued.order| > l.config.principals
      then queued.(order := queued.order[1..], buckets := queued.buckets - {queued.order[0]},
        evictions := l.evictions + 1)
      else queued
  }

  ghost predicate Valid(l: Limiter) {
    && Distinct(l.order) && Elements(l.order) == l.buckets.Keys
    && |l.order| <= l.config.principals
    && forall p :: p in l.buckets ==> 0.0 <= l.buckets[p].tokens <= l.config.burst
  }

  lemma {:induction false} AllowKeepsValid(l: Limiter, principal: Principal, now: real)
    requires Valid(l) && (principal in l.buckets ==> l.buckets[principal].lastRefill <= now)
    ensures Valid(Allow(l, principal, now))
  {
    ChargedIsBounded(l, principal, now);
    if principal !in l.buckets {
      assert principal !in l.order by { assert principal !in Elements(l.order); }
      DistinctAppend(l.order, principal);
      if |l.order| + 1 > l.config.principals { DistinctTail(l.order + [principal]); }
    }
  }

  lemma {:induction false} ChargedIsBounded(l: Limiter, principal: Principal, now: real)
    requires Valid(l) && (principal in l.buckets ==> l.buckets[principal].lastRefill <= now)
    ensures 0.0 <= Charged(l, principal, now).tokens <= l.config.burst
  {
    RefillGrows(l.config.perSecond, now - BucketOf(l, principal, now).lastRefill, 0.0);
  }

  /** A call changes no other principal's bucket, except by evicting it. */
  lemma {:induction false} OthersUntouched(l: Limiter, principal: Principal, now: real, other: Principal)
    requires other != principal && other in Allow(l, principal, now).buckets
    ensures other in l.buckets && Allow(l, principal, now).buckets[other] == l.buckets[other]
  {
  }

  class RateLimiter {
    const config: Config
    var buckets: map<Principal, Bucket>
    var order: seq<Principal>
    var evictions: nat

    ghost function State(): Limiter
      reads this
    {
      Limiter(config, buckets, order, evictions)
    }

    constructor (config: Config)
      ensures State() == Limiter(config, map[], [], 0) && Valid(State())
    {
      this.config := config;
      buckets, order, evictions := map[], [], 0;
    }

    method AllowPublish(principal: Principal, now: real) returns (allowed: bool)
      requires Valid(State()) && (principal in buckets ==> buckets[principal].lastRefill <= now)
      modifies this
      ensures Valid(State())
      ensures State() == Allow(old(State()), principal, now)
      ensures allowed <==> Allows(old(State()), principal, now)
    {
      AllowKeepsValid(State(), principal, now);
      allowed := Charge(principal, now);
    }

    method Charge(principal: Principal, now: real) returns (allowed: bool)
      modifies this
      ensures State() == Allow(old(State()), principal, now)
      ensures allowed <==> Allows(old(State()), principal, now)
    {
      var isNew := principal !in buckets;
      var bucket := if isNew then Bucket(config.burst, now) else buckets[principal];
      var tokens := Refilled(config, bucket, now);
      allowed := tokens >= 1.0;
      buckets := buckets[principal := Bucket(if allowed then tokens - 1.0 else tokens, now)];
      if isNew {
        Track(principal);
      }
    }

    /** Queues a principal seen for the first time, and drops the longest-tracked one if that is too many. */
    method Track(principal: Principal)
      modifies this
      ensures State() ==
        var queued := old(State()).(order := old(order) + [principal]);
        if |queued.order| > config.principals
        then queued.(order := queued.order[1..], buckets := queued.buckets - {queued.order[0]},
          evictions := queued.evictions + 1)
        else queued
    {
      order := order + [principal];
      if |order| > config.principals {
        var oldest := order[0];
        order := order[1..];
        buckets := buckets - {oldest};
        evictions := evictions + 1;
      }
    }
  }

  // -------------------------------------------------------------------- runs

  datatype Call = Call(principal: Principal, at: real)

  function Execute(l: Limiter, run: seq<Call>): Limiter {
    if run == [] then l
    else
      var before := Execute(l, run[..|run| - 1]);
      Allow(before, run[|run| - 1].principal, run[|run| - 1].at)
  }

  /** Calls come in the order of their times, none of them before `start`. */
  ghost predicate Chronological(run: seq<Call>, start: real) {
    && (forall i :: 0 <= i < |run| ==> start <= run[i].at)
    && (forall i :: 0 <= i < |run| - 1 ==> run[i].at <= run[i + 1].at)
  }

  function LastTime(run: seq<Call>, start: real): real {
    if run == [] then start else run[|run| - 1].at
  }

  /** How many of the run's calls by `principal` are allowed. */
  function Allowed(l: Limiter, run: seq<Call>, principal: Principal): nat {
    if run == [] then 0
    else
      var call := run[|run| - 1];
      Allowed(l, run[..|run| - 1], principal) +
        if call.principal == principal && Allows(Execute(l, run[..|run| - 1]), principal, call.at) then 1 else 0
  }

  /** How many times `principal` loses its bucket during the run. */
  function Evicted(l: Limiter, run: seq<Call>, principal: Principal): nat {
    if run == [] then 0
    else
      var call, before := run[|run| - 1], Execute(l, run[..|run| - 1]);
      Evicted(l, run[..|run| - 1], principal) +
        if (principal in before.buckets || call.principal == principal)
           && principal !in Allow(before, call.principal, call.at).buckets
        then 1 else 0
  }

  /** What `principal` could still spend at time `now`: the tokens it has, or a full bucket. */
  function Budget(l: Limiter, principal: Principal, now: real): real {
    Refilled(l.config, BucketOf(l, principal, now), now)
  }

  ghost predicate RefilledBefore(l: Limiter, now: real) {
    forall p :: p in l.buckets ==> l.buckets[p].lastRefill <= now
  }

  /** What a call uses of the principal's budget. */
  function Spent(l: Limiter, call: Call, principal: Principal): real {
    if call.principal == principal && Allows(l, principal, call.at) then 1.0 else 0.0
  }

  /** The principal loses its bucket in the call. */
  predicate Loses(l: Limiter, call: Call, principal: Principal) {
    (principal in l.buckets || call.principal == principal) && principal !in Allow(l, call.principal, call.at).buckets
  }

  /** One call pays for what it allows out of the caller's budget, unless the caller's bucket is evicted. */
  lemma {:induction false} CallPays(l: Limiter, call: Call, principal: Principal)
    requires Valid(l) && RefilledBefore(l, call.at)
    ensures Budget(Allow(l, call.principal, call.at), principal, call.at) + Spent(l, call, principal)
         <= Budget(l, principal, call.at) + if Loses(l, call, principal) then l.config.burst else 0.0
  {
    var after := Allow(l, call.principal, call.at);
    ChargedIsBounded(l, call.principal, call.at);
    BudgetIsNonNegative(l, principal, call.at);
    if call.principal != principal && principal in after.buckets {
      OthersUntouched(l, call.principal, call.at, principal);
    }
    if call.principal == principal && principal in after.buckets {
      RefillGrows(l.config.perSecond, 0.0, 0.0);
    }
  }

  lemma {:induction false} BudgetIsNonNegative(l: Limiter, principal: Principal, now: real)
    requires Valid(l) && RefilledBefore(l, now)
    ensures Budget(l, principal, now) >= 0.0
  {
    RefillGrows(l.config.perSecond, now - BucketOf(l, principal, now).lastRefill, 0.0);
  }

  lemma {:induction false} RunKeepsValid(l: Limiter, run: seq<Call>, start: real)
    requires Valid(l) && RefilledBefore(l, start) && Chronological(run, start)
    ensures var after, now := Execute(l, run), LastTime(run, start);
      Valid(after) && RefilledBefore(after, now) && after.config == l.config && start <= now
  {
    if run != [] {
      var init, call := run[..|run| - 1], run[|run| - 1];
      assert Chronological(init, start);
      RunKeepsValid(l, init, start);
      AllowKeepsValid(Execute(l, init), call.principal, call.at);
      AllowRefilledBefore(Execute(l, init), call.principal, call.at);
    }
  }

  lemma {:induction false} AllowRefilledBefore(l: Limiter, principal: Principal, now: real)
    requires RefilledBefore(l, now)
    ensures RefilledBefore(Allow(l, principal, now), now)
  {
  }

  /** What `principal` was allowed and could still spend, against a burst, the refill and the bursts of evictions. */
  ghost predicate WithinWindow(l: Limiter, run: seq<Call>, principal: Principal, start: real) {
    var after, now := Execute(l, run), LastTime(run, start);
    && Budget(after, principal, now) >= 0.0
    && Allowed(l, run, principal) as real + Budget(after, principal, now)
         <= l.config.burst + Refill(l.config.perSecond, now - start)
            + Bursts(l.config.burst, Evicted(l, run, principal))
  }

  lemma {:induction false} StartsWithinWindow(l: Limiter, principal: Principal, start: real)
    requires Valid(l) && RefilledBefore(l, start)
    ensures WithinWindow(l, [], principal, start)
  {
    BudgetIsNonNegative(l, principal, start);
    RefillGrows(l.config.perSecond, 0.0, 0.0);
  }

  /** The bound, from all calls but the last to all of them. */
  lemma {:induction false} WindowGrows(l: Limiter, run: seq<Call>, principal: Principal, start: real)
    requires run != [] && WithinWindow(l, run[..|run| - 1], principal, start)
    requires var before, mid := Execute(l, run[..|run| - 1]), LastTime(run[..|run| - 1], start);
      Valid(before) && RefilledBefore(before, mid) && start <= mid <= run[|run| - 1].at && before.config == l.config
    requires Budget(Execute(l, run), principal, run[|run| - 1].at) >= 0.0
    ensures WithinWindow(l, run, principal, start)
  {
    var init, call := run[..|run| - 1], run[|run| - 1];
    CallPaysInWindow(Execute(l, init), call, principal, start, LastTime(init, start));
    EvictedOnce(l, run, principal);
  }

  lemma {:induction false} StaysWithinWindow(l: Limiter, run: seq<Call>, principal: Principal, start: real)
    requires Valid(l) && RefilledBefore(l, start) && Chronological(run, start)
    ensures WithinWindow(l, run, principal, start)
    decreases |run|
  {
    if run == [] {
      StartsWithinWindow(l, principal, start);
    } else {
      var init := run[..|run| - 1];
      assert Chronological(init, start);
      StaysWithinWindow(l, init, principal, start);
      RunKeepsValid(l, init, start);
      RunKeepsValid(l, run, start);
      BudgetIsNonNegative(Execute(l, run), principal, run[|run| - 1].at);
      WindowGrows(l, run, principal, start);
    }
  }

  /**
   * The window bound. In any run, however the calls of others interleave, a principal is allowed at
   * most a burst plus what the rate refills in the time the run takes, and another burst for each time
   * its bucket was evicted meanwhile.
   */
  lemma {:induction false} WindowBound(l: Limiter, run: seq<Call>, principal: Principal, start: real)
    requires Valid(l) && RefilledBefore(l, start) && Chronological(run, start)
    ensures var after, now := Execute(l, run), LastTime(run, start);
      && Budget(after, principal, now) >= 0.0
      && Allowed(l, run, principal) as real + Budget(after, principal, now)
           <= l.config.burst + Refill(l.config.perSecond, now - start)
             + Bursts(l.config.burst, Evicted(l, run, principal))
  {
    StaysWithinWindow(l, run, principal, start);
  }

  /** What a window allows grows at least as fast as the budget does while no call is made. */
  lemma {:induction false} LimitGrows(l: Limiter, principal: Principal, start: real, now: real, later: real)
    requires now <= later && RefilledBefore(l, now)
    ensures Budget(l, principal, later) - Refill(l.config.perSecond, later - start)
         <= Budget(l, principal, now) - Refill(l.config.perSecond, now - start)
  {
    RefillGrows(l.config.perSecond, now - start, later - now);
  }

  /** What one call adds to what is allowed and to the budget, against what the window allows by then. */
  lemma {:induction false} CallPaysInWindow(before: Limiter, call: Call, principal: Principal, start: real, mid: real)
    requires Valid(before) && RefilledBefore(before, mid) && start <= mid <= call.at
    ensures var after := Allow(before, call.principal, call.at);
      Spent(before, call, principal) + Budget(after, principal, call.at)
        - Refill(before.config.perSecond, call.at - start)
        <= Budget(before, principal, mid) - Refill(before.config.perSecond, mid - start)
           + if Loses(before, call, principal) then before.config.burst else 0.0
  {
    CallPays(before, call, principal);
    LimitGrows(before, principal, start, mid, call.at);
  }

  lemma {:induction false} EvictedOnce(l: Limiter, run: seq<Call>, principal: Principal)
    requires run != []
    ensures var init, call := run[..|run| - 1], run[|run| - 1];
      var before := Execute(l, init);
      Bursts(l.config.burst, Evicted(l, run, principal)) ==
        Bursts(l.config.burst, Evicted(l, init, principal)) +
        if Loses(before, call, principal) then l.config.burst else 0.0
  {
  }

  /** `n` bursts. */
  function Bursts(burst: Amount, n: nat): real {
    if n == 0 then 0.0 else Bursts(burst, n - 1) + burst
  }

  /** For a principal that keeps its bucket: at most `burst + perSecond * (t - s)` in any window [s, t]. */
  lemma {:induction false} WindowBoundWithoutEviction(l: Limiter, run: seq<Call>, principal: Principal, s: real,
      t: real)
    requires Valid(l) && RefilledBefore(l, s) && Chronological(run, s) && LastTime(run, s) <= t
    requires Evicted(l, run, principal) == 0
    ensures Allowed(l, run, principal) as real <= l.config.burst + Refill(l.config.perSecond, t - s)
  {
    WindowBound(l, run, principal, s);
    RunKeepsValid(l, run, s);
    RefillGrows(l.config.perSecond, t - LastTime(run, s), LastTime(run, s) - s);
  }

  /** In any one second that is a burst, and what is refilled in a second. */
  lemma {:induction false} OneSecondBound(l: Limiter, run: seq<Call>, principal: Principal, s: real)
    requires Valid(l) && RefilledBefore(l, s) && Chronological(run, s) && LastTime(run, s) <= s + 1.0
    requires Evicted(l, run, principal) == 0
    ensures Allowed(l, run, principal) as real <= l.config.burst + l.config.perSecond
  {
    WindowBoundWithoutEviction(l, run, principal, s, s + 1.0);
    OneSecond(l.config.perSecond, s);
  }

  lemma OneSecond(perSecond: Amount, s: real)
    ensures Refill(perSecond, s + 1.0 - s) == perSecond
  {
  }

  // ------------------------------------------------- whose bucket is evicted

  function NewLimiter(config: Config): Limiter {
    Limiter(config, map[], [], 0)
  }

  /** The call with which the bucket that `principal` has after the run came to be. */
  function TrackedFrom(config: Config, run: seq<Call>, principal: Principal): nat {
    if run == [] then 0
    else if principal in Execute(NewLimiter(config), run[..|run| - 1]).buckets
    then TrackedFrom(config, run[..|run| - 1], principal)
    else |run| - 1
  }

  ghost predicate Tracks(config: Config, run: seq<Call>, principal: Principal) {
    principal in Execute(NewLimiter(config), run).buckets
  }

  /** It was not there before that call, and has been ever since. */
  lemma {:induction false} TrackedFromIs(config: Config, run: seq<Call>, principal: Principal)
    requires Tracks(config, run, principal)
    ensures var k := TrackedFrom(config, run, principal);
      && k < |run| && run[k].principal == principal && !Tracks(config, run[..k], principal)
      && forall j :: k < j <= |run| ==> Tracks(config, run[..j], principal)
    decreases |run|
  {
    assert run[..|run|] == run;
    if run != [] {
      var init := run[..|run| - 1];
      if Tracks(config, init, principal) {
        TrackedFromIs(config, init, principal);
        assert forall j :: 0 <= j < |run| ==> init[..j] == run[..j];
      }
    }
  }

  /** The queue is in the order in which its principals came to be tracked. */
  ghost predicate QueuedInOrder(config: Config, run: seq<Call>, order: seq<Principal>) {
    forall i, j :: 0 <= i < j < |order| ==> TrackedFrom(config, run, order[i]) < TrackedFrom(config, run, order[j])
  }

  /** The queue holds exactly those tracked, each once, and no more than there is room for. */
  ghost predicate Queued(l: Limiter) {
    Distinct(l.order) && Elements(l.order) == l.buckets.Keys && |l.order| <= l.config.principals
  }

  lemma {:induction false} AllowKeepsQueued(l: Limiter, principal: Principal, now: real)
    requires Queued(l)
    ensures Queued(Allow(l, principal, now))
  {
    if principal !in l.buckets {
      assert principal !in l.order by { assert principal !in Elements(l.order); }
      DistinctAppend(l.order, principal);
      if |l.order| + 1 > l.config.principals { DistinctTail(l.order + [principal]); }
    }
  }

  lemma {:induction false} StillInOrder(config: Config, run: seq<Call>)
    requires run != [] && Queued(Execute(NewLimiter(config), run[..|run| - 1]))
    requires QueuedInOrder(config, run[..|run| - 1], Execute(NewLimiter(config), run[..|run| - 1]).order)
    ensures QueuedInOrder(config, run, Execute(NewLimiter(config), run).order)
  {
    var init, call := run[..|run| - 1], run[|run| - 1];
    var before, after := Execute(NewLimiter(config), init), Execute(NewLimiter(config), run);
    forall p | p in before.order
      ensures p in before.buckets && TrackedFrom(config, run, p) == TrackedFrom(config, init, p) < |init|
    {
      assert p in Elements(before.order);
      TrackedFromIs(config, init, p);
    }
    var queued := if call.principal in before.buckets then before.order else before.order + [call.principal];
    assert after.order == queued || after.order == queued[1..];
    assert QueuedInOrder(config, run, queued);
  }

  lemma {:induction false} RunIsQueued(config: Config, run: seq<Call>)
    ensures var l := Execute(NewLimiter(config), run);
      Queued(l) && l.config == config && QueuedInOrder(config, run, l.order)
    decreases |run|
  {
    if run != [] {
      RunIsQueued(config, run[..|run| - 1]);
      AllowKeepsQueued(Execute(NewLimiter(config), run[..|run| - 1]), run[|run| - 1].principal, run[|run| - 1].at);
      StillInOrder(config, run);
    }
  }

  /** A call takes nobody's bucket, or, when there is no room for a new one, that of the first in the queue. */
  lemma {:induction false} FirstInQueueGoes(l: Limiter, principal: Principal, now: real)
    requires Queued(l) && l.config.principals > 0
    ensures var after := Allow(l, principal, now).buckets;
      if principal in l.buckets || |l.buckets| < l.config.principals then after.Keys == l.buckets.Keys + {principal}
      else
        && l.order != [] && l.order[0] in l.buckets && l.order[0] != principal
        && after.Keys == l.buckets.Keys + {principal} - {l.order[0]}
    ensures Allow(l, principal, now).evictions ==
      l.evictions + if principal in l.buckets || |l.buckets| < l.config.principals then 0 else 1
  {
    DistinctSize(l.order);
    assert |l.buckets.Keys| == |l.buckets|;
    if l.order != [] { assert l.order[0] in Elements(l.order); }
  }

  /** `victim` has been tracked since its `k`th call; every other has been without a bucket since then. */
  ghost predicate TrackedLongest(config: Config, run: seq<Call>, victim: Principal, k: nat) {
    && k < |run| && run[k].principal == victim
    && (forall j :: k < j <= |run| ==> Tracks(config, run[..j], victim))
    && (forall other :: Tracks(config, run, other) && other != victim ==>
          exists j :: k < j <= |run| && !Tracks(config, run[..j], other))
  }

  lemma {:induction false} FirstInQueueIsTrackedLongest(config: Config, run: seq<Call>) returns (k: nat)
    requires var l := Execute(NewLimiter(config), run);
      Queued(l) && QueuedInOrder(config, run, l.order) && l.order != []
    ensures TrackedLongest(config, run, Execute(NewLimiter(config), run).order[0], k)
  {
    var order := Execute(NewLimiter(config), run).order;
    assert order[0] in Elements(order);
    TrackedFromIs(config, run, order[0]);
    k := TrackedFrom(config, run, order[0]);
    forall other | Tracks(config, run, other) && other != order[0]
      ensures exists j :: k < j <= |run| && !Tracks(config, run[..j], other)
    {
      assert other in Elements(order);
      var i :| 0 <= i < |order| && order[i] == other;
      TrackedFromIs(config, run, other);
      assert k < TrackedFrom(config, run, other);
    }
  }

  /**
   * Over any run on a new limiter: a call for a known principal, or while there is room, takes nobody's
   * bucket. Otherwise exactly one goes, that of whoever has been tracked longest without a break.
   */
  lemma {:induction false} LongestTrackedGoes(config: Config, run: seq<Call>, call: Call)
    returns (victim: Principal, k: nat)
    requires config.principals > 0
    ensures var before := Execute(NewLimiter(config), run).buckets;
      var after := Allow(Execute(NewLimiter(config), run), call.principal, call.at).buckets;
      if call.principal in before || |before| < config.principals then after.Keys == before.Keys + {call.principal}
      else
        && after.Keys == before.Keys + {call.principal} - {victim} && victim != call.principal
        && TrackedLongest(config, run, victim, k)
    ensures var before := Execute(NewLimiter(config), run);
      Allow(before, call.principal, call.at).evictions ==
      before.evictions + if call.principal in before.buckets || |before.buckets| < config.principals then 0 else 1
  {
    var l := Execute(NewLimiter(config), run);
    RunIsQueued(config, run);
    FirstInQueueGoes(l, call.principal, call.at);
    victim, k := call.principal, 0;
    if call.principal !in l.buckets && |l.buckets| >= config.principals {
      victim := l.order[0];
      k := FirstInQueueIsTrackedLongest(config, run);
    }
  }

  // ------------------------------------------------- when a call is refused

  /** How many of the calls by `principal` from position `i` on are allowed. */
  function AllowedSince(l: Limiter, run: seq<Call>, principal: Principal, i: nat): (n: nat)
    ensures n <= if i <= |run| then |run| - i else 0
  {
    if |run| <= i then 0
    else
      var call := run[|run| - 1];
      AllowedSince(l, run[..|run| - 1], principal, i) +
        if call.principal == principal && Allows(Execute(l, run[..|run| - 1]), principal, call.at) then 1 else 0
  }

  /** What is left at time `now` of a full bucket at the `i`th call. */
  function Left(l: Limiter, run: seq<Call>, principal: Principal, i: nat, now: real): real
    requires i < |run|
  {
    l.config.burst + Refill(l.config.perSecond, now - run[i].at) - AllowedSince(l, run, principal, i) as real
  }

  /** The bucket holds the least of what is left since any of its owner's calls. */
  ghost predicate HoldsTheLeast(l: Limiter, run: seq<Call>, principal: Principal, bucket: Bucket) {
    && (forall i :: 0 <= i < |run| && run[i].principal == principal ==>
          bucket.tokens <= Left(l, run, principal, i, bucket.lastRefill))
    && (exists i :: 0 <= i < |run| && run[i].principal == principal
          && bucket.tokens == Left(l, run, principal, i, bucket.lastRefill))
  }

  lemma {:induction false} OthersCallIsNoMatter(l: Limiter, run: seq<Call>, principal: Principal, bucket: Bucket)
    requires run != [] && run[|run| - 1].principal != principal
    requires HoldsTheLeast(l, run[..|run| - 1], principal, bucket)
    ensures HoldsTheLeast(l, run, principal, bucket)
  {
    var init := run[..|run| - 1];
    forall i | 0 <= i < |run| && run[i].principal == principal
      ensures init[i] == run[i] && Left(l, run, principal, i, bucket.lastRefill) ==
        Left(l, init, principal, i, bucket.lastRefill)
    {
    }
    var i :| 0 <= i < |init| && init[i].principal == principal
      && bucket.tokens == Left(l, init, principal, i, bucket.lastRefill);
    assert run[i] == init[i];
  }

  /** What is left grows with the time that passes. */
  lemma {:induction false} LeftLater(l: Limiter, run: seq<Call>, principal: Principal, i: nat, now: real, later: real)
    requires i < |run|
    ensures Left(l, run, principal, i, later) ==
      Left(l, run, principal, i, now) + Refill(l.config.perSecond, later - now)
  {
    RefillGrows(l.config.perSecond, now - run[i].at, later - now);
    assert now - run[i].at + (later - now) == later - run[i].at;
  }

  lemma {:induction false} LeftAfterCall(l: Limiter, run: seq<Call>, principal: Principal, i: nat, now: real)
    requires i < |run| && run[|run| - 1].principal == principal && now == run[|run| - 1].at
    ensures var before := Execute(l, run[..|run| - 1]);
      var spent := if Allows(before, principal, now) then 1.0 else 0.0;
      Left(l, run, principal, i, now) ==
        (if i == |run| - 1 then l.config.burst else Left(l, run[..|run| - 1], principal, i, now)) - spent
  {
    RefillGrows(l.config.perSecond, 0.0, 0.0);
    if i < |run| - 1 { assert run[..|run| - 1][i] == run[i]; }
  }

  /** The owner's own call, on a bucket that held the least of what was left, or on a new one. */
  lemma {:induction false} OwnCallHoldsTheLeast(l: Limiter, run: seq<Call>, principal: Principal, before: Limiter)
    requires run != [] && run[|run| - 1].principal == principal && before == Execute(l, run[..|run| - 1])
    requires before.config == l.config
    requires if principal in before.buckets
      then HoldsTheLeast(l, run[..|run| - 1], principal, before.buckets[principal])
      else forall i :: 0 <= i < |run| - 1 ==> run[i].principal != principal
    ensures HoldsTheLeast(l, run, principal, Charged(before, principal, run[|run| - 1].at))
  {
    var init, now, last := run[..|run| - 1], run[|run| - 1].at, |run| - 1;
    var charged, bucket := Charged(before, principal, now), BucketOf(before, principal, now);
    RefillGrows(l.config.perSecond, 0.0, 0.0);
    LeftAfterCall(l, run, principal, last, now);
    assert run[last].principal == principal;
    forall i | 0 <= i < last && run[i].principal == principal
      ensures charged.tokens <= Left(l, run, principal, i, now)
    {
      LeftOfOwnCall(l, run, principal, before, i);
    }
    if principal in before.buckets {
      var i :| 0 <= i < |init| && init[i].principal == principal
        && bucket.tokens == Left(l, init, principal, i, bucket.lastRefill);
      assert run[i] == init[i];
      LeftOfOwnCall(l, run, principal, before, i);
      assert charged.tokens == Left(l, run, principal, i, now) || charged.tokens == Left(l, run, principal, last, now);
    } else {
      assert charged.tokens == Left(l, run, principal, last, now);
    }
  }

  /** An earlier call: what is left since then is at least what the bucket holds, and equal if it was before. */
  lemma {:induction false} LeftOfOwnCall(l: Limiter, run: seq<Call>, principal: Principal, before: Limiter, i: nat)
    requires i < |run| - 1 && run[i].principal == principal && run[|run| - 1].principal == principal
    requires before == Execute(l, run[..|run| - 1]) && before.config == l.config && principal in before.buckets
    requires HoldsTheLeast(l, run[..|run| - 1], principal, before.buckets[principal])
    ensures var init, now, bucket := run[..|run| - 1], run[|run| - 1].at, before.buckets[principal];
      var charged := Charged(before, principal, now);
      && charged.tokens <= Left(l, run, principal, i, now)
      && (bucket.tokens == Left(l, init, principal, i, bucket.lastRefill) ==>
            charged.tokens == Left(l, run, principal, i, now)
            || charged.tokens == Left(l, run, principal, |run| - 1, now))
  {
    var init, now, bucket := run[..|run| - 1], run[|run| - 1].at, before.buckets[principal];
    assert init[i] == run[i];
    LeftLater(l, init, principal, i, bucket.lastRefill, now);
    LeftAfterCall(l, run, principal, i, now);
    LeftAfterCall(l, run, principal, |run| - 1, now);
  }

  lemma {:induction false} RunKeepsConfig(l: Limiter, run: seq<Call>)
    ensures Execute(l, run).config == l.config
  {
    if run != [] { RunKeepsConfig(l, run[..|run| - 1]); }
  }

  /** Throughout a run that begins without the bucket, and never loses it. */
  lemma {:induction false} BucketHoldsTheLeast(l: Limiter, run: seq<Call>, principal: Principal)
    requires principal !in l.buckets && Evicted(l, run, principal) == 0
    ensures var after := Execute(l, run);
      if principal in after.buckets then HoldsTheLeast(l, run, principal, after.buckets[principal])
      else forall i :: 0 <= i < |run| ==> run[i].principal != principal
  {
    if run != [] {
      var init, call := run[..|run| - 1], run[|run| - 1];
      BucketHoldsTheLeast(l, init, principal);
      RunKeepsConfig(l, init);
      var before := Execute(l, init);
      if call.principal == principal {
        assert forall i :: 0 <= i < |init| ==> init[i] == run[i];
        OwnCallHoldsTheLeast(l, run, principal, before);
      } else if principal in before.buckets {
        OthersUntouched(before, call.principal, call.at, principal);
        OthersCallIsNoMatter(l, run, principal, before.buckets[principal]);
      }
    }
  }

  /**
   * Exactly when a call is refused, for a principal first seen in the run that keeps its bucket: if since
   * some earlier call of its own, that one included, it has used up all but less than one token of a burst
   * and of what was refilled in the time. In particular a newcomer has a whole burst.
   */
  lemma {:induction false} RefusedIff(l: Limiter, run: seq<Call>, principal: Principal, now: real)
    requires principal !in l.buckets && Evicted(l, run, principal) == 0 && l.config.burst >= 1.0
    ensures !Allows(Execute(l, run), principal, now) <==>
      exists i :: 0 <= i < |run| && run[i].principal == principal && Left(l, run, principal, i, now) < 1.0
  {
    BucketHoldsTheLeast(l, run, principal);
    RunKeepsConfig(l, run);
    RefillGrows(l.config.perSecond, 0.0, 0.0);
    var after := Execute(l, run);
    if principal in after.buckets {
      var bucket := after.buckets[principal];
      forall i | 0 <= i < |run| && run[i].principal == principal
        ensures Left(l, run, principal, i, now) ==
          Left(l, run, principal, i, bucket.lastRefill) + Refill(l.config.perSecond, now - bucket.lastRefill)
      {
        LeftLater(l, run, principal, i, bucket.lastRefill, now);
      }
    }
  }

  /** A newcomer that publishes all at once is granted its whole burst. */
  lemma {:induction false} NewcomerHasABurst(l: Limiter, run: seq<Call>, principal: Principal, now: real)
    requires principal !in l.buckets && Evicted(l, run, principal) == 0
    requires forall i :: 0 <= i < |run| ==> run[i].principal == principal && run[i].at == now
    requires |run| as real + 1.0 <= l.config.burst
    ensures Allows(Execute(l, run), principal, now)
  {
    RefusedIff(l, run, principal, now);
    RefillGrows(l.config.perSecond, 0.0, 0.0);
  }

  // ----------------------------------------------------------- slow senders

  /** Calls by `principal` leave time for a whole token between them, and since the bucket's last refill. */
  ghost predicate Unhurried(l: Limiter, run: seq<Call>, principal: Principal) {
    && (forall i, j :: 0 <= i < j < |run| && run[i].principal == principal && run[j].principal == principal ==>
          Refill(l.config.perSecond, run[j].at - run[i].at) >= 1.0)
    && (principal in l.buckets ==> forall j :: 0 <= j < |run| && run[j].principal == principal ==>
          Refill(l.config.perSecond, run[j].at - l.buckets[principal].lastRefill) >= 1.0)
  }

  function Calls(run: seq<Call>, principal: Principal): nat {
    if run == [] then 0
    else Calls(run[..|run| - 1], principal) + if run[|run| - 1].principal == principal then 1 else 0
  }

  /** A tracked bucket was last refilled at its owner's latest call, or before the run. */
  ghost predicate RefilledByCall(l: Limiter, run: seq<Call>, principal: Principal, at: real) {
    || (principal in l.buckets && l.buckets[principal].lastRefill == at)
    || exists i :: 0 <= i < |run| && run[i].principal == principal && run[i].at == at
  }

  lemma {:induction false} RefillSource(l: Limiter, run: seq<Call>, principal: Principal)
    ensures var after := Execute(l, run);
      principal in after.buckets ==> RefilledByCall(l, run, principal, after.buckets[principal].lastRefill)
  {
    if run != [] {
      var init, call := run[..|run| - 1], run[|run| - 1];
      RefillSource(l, init, principal);
      var before, after := Execute(l, init), Execute(l, run);
      if principal in after.buckets && call.principal != principal {
        OthersUntouched(before, call.principal, call.at, principal);
        if i :| 0 <= i < |init| && init[i].principal == principal && init[i].at == after.buckets[principal].lastRefill {
          assert run[i] == init[i];
        }
      }
    }
  }

  /** With a burst of at least one, a sender that waits for a token each time is never refused. */
  lemma {:induction false} SlowSenderIsNeverRefused(l: Limiter, run: seq<Call>, principal: Principal, start: real)
    requires Valid(l) && RefilledBefore(l, start) && Chronological(run, start)
    requires Unhurried(l, run, principal) && l.config.burst >= 1.0
    ensures Allowed(l, run, principal) == Calls(run, principal)
  {
    if run != [] {
      var init, call := run[..|run| - 1], run[|run| - 1];
      assert Chronological(init, start);
      assert Unhurried(l, init, principal) by {
        assert forall i :: 0 <= i < |init| ==> init[i] == run[i];
      }
      SlowSenderIsNeverRefused(l, init, principal, start);
      if call.principal == principal {
        RunKeepsValid(l, init, start);
        RefillSource(l, init, principal);
        TokenIsThere(l, run, principal, Execute(l, init));
      }
    }
  }

  lemma {:induction false} TokenIsThere(l: Limiter, run: seq<Call>, principal: Principal, before: Limiter)
    requires Unhurried(l, run, principal) && l.config.burst >= 1.0 && before.config == l.config && Valid(before)
    requires run != [] && run[|run| - 1].principal == principal
    requires principal in before.buckets ==>
      RefilledByCall(l, run[..|run| - 1], principal, before.buckets[principal].lastRefill)
    ensures Allows(before, principal, run[|run| - 1].at)
  {
    RefillGrows(l.config.perSecond, 0.0, 0.0);
    if principal in before.buckets {
      var at := before.buckets[principal].lastRefill;
      assert Refill(l.config.perSecond, run[|run| - 1].at - at) >= 1.0;
    }
  }
}
