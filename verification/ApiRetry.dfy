// The request loop of the wallet's API client (src/wallet-engine/api/client.ts): three
// budgets of retries under one pinned key and one idempotency key.
module ApiRetry {
  import opened Options

  const MAX_RETRY_TRANSIENT: nat := 3
  const MAX_RETRY_RATE_LIMITED: nat := 2
  const MAX_RETRY_IN_FLIGHT: nat := 3
  const DEFAULT_RATE_LIMIT_BACKOFF_MS: int := 30_000
  const DEFAULT_IN_FLIGHT_RETRY_SECONDS: int := 5
  const JITTER_MS: nat := 250

  datatype Answer =
    | NetworkError
    | Response(status: int, idempotencyInFlight: bool, retryAfter: Option<int>)

  datatype Spec = Spec(path: string, key: Option<string>, idempotencyKey: Option<string>, body: Option<string>)

  // One request as it goes over the wire.
  datatype Sent = Sent(path: string, bearer: string, idempotencyKey: Option<string>, body: Option<string>)

  datatype Result = KeyRequired | Data | ApiError(status: int)

  datatype Kind = Success | Transient | RateLimited | InFlight | Permanent

  function KindOf(a: Answer): Kind {
    if a.NetworkError? then Transient
    else if 200 <= a.status < 300 then Success
    else if a.status == 429 then RateLimited
    else if a.status == 409 && a.idempotencyInFlight then InFlight
    else if a.status >= 500 then Transient
    else Permanent
  }

  function Budget(kind: Kind): nat {
    match kind
    case Transient => MAX_RETRY_TRANSIENT
    case RateLimited => MAX_RETRY_RATE_LIMITED
    case InFlight => MAX_RETRY_IN_FLIGHT
    case _ => 0
  }

  // How many of the first n answers are of this kind.
  function Count(world: nat -> Answer, n: nat, kind: Kind): nat {
    if n == 0 then 0 else Count(world, n - 1, kind) + (if KindOf(world(n - 1)) == kind then 1 else 0)
  }

  // Answer n ends the call: it is final, or the budget of its kind is used up.
  predicate Stops(world: nat -> Answer, n: nat) {
    Count(world, n, KindOf(world(n))) >= Budget(KindOf(world(n)))
  }

  ghost predicate StopsFirstAt(world: nat -> Answer, n: nat) {
    Stops(world, n) && forall m: nat :: m < n ==> !Stops(world, m)
  }

  function ResultOf(a: Answer): Result {
    if a.NetworkError? then ApiError(0) else if 200 <= a.status < 300 then Data else ApiError(a.status)
  }

  function Pow2(n: nat): nat { if n == 0 then 1 else 2 * Pow2(n - 1) }

  function BackoffMs(attempt: nat, jitterMs: nat): int
    requires attempt >= 1
  {
    Pow2(attempt - 1) * 1000 + jitterMs
  }

  // How long the client waits after an answer when it has used `used` retries of its kind.
  function Wait(a: Answer, used: nat, jitterMs: nat): int {
    match KindOf(a)
    case Transient => BackoffMs(used + 1, jitterMs)
    case RateLimited =>
      if a.NetworkError? || a.retryAfter.None? then DEFAULT_RATE_LIMIT_BACKOFF_MS else a.retryAfter.value * 1000
    case InFlight =>
      if a.NetworkError? || a.retryAfter.None? then DEFAULT_IN_FLIGHT_RETRY_SECONDS * 1000 else a.retryAfter.value * 1000
    case _ => 0
  }

  function WaitAfter(world: nat -> Answer, jitter: nat -> nat, n: nat): int {
    Wait(world(n), Count(world, n, KindOf(world(n))), jitter(n))
  }

  // The retries the first n answers use.
  function UsedBy(world: nat -> Answer, n: nat): Attempts {
    Attempts(Count(world, n, Transient), Count(world, n, RateLimited), Count(world, n, InFlight))
  }

  lemma OneMoreUsed(world: nat -> Answer, n: nat)
    requires !Stops(world, n)
    ensures UsedBy(world, n + 1) == Use(UsedBy(world, n), KindOf(world(n)))
    ensures UsedBy(world, n + 1) != UsedBy(world, n)
  {
  }

  // A network failure, a server error, a rate limit, or a first request still in flight.
  predicate MayBeRetried(a: Answer) {
    a.NetworkError? || a.status >= 500 || a.status == 429 || (a.status == 409 && a.idempotencyInFlight)
  }

  lemma RetriedMayBe(world: nat -> Answer, n: nat)
    requires forall m: nat :: m < n ==> !Stops(world, m)
    ensures forall m: nat :: m < n ==> MayBeRetried(world(m))
  {
    forall m: nat | m < n ensures MayBeRetried(world(m)) { assert !Stops(world, m); }
  }

  // `world` answers the n-th request this call sends.
  method Request(spec: Spec, current: Option<string>, world: nat -> Answer, jitter: nat -> nat)
    returns (result: Result, sends: seq<Sent>, sleeps: seq<int>)
    ensures spec.key.None? && current.None? <==> result == KeyRequired
    ensures result == KeyRequired ==> sends == [] && sleeps == []
    ensures result != KeyRequired ==>
      && sends != [] && StopsFirstAt(world, |sends| - 1)
      && var last := world(|sends| - 1);
         result == (if last.NetworkError? then ApiError(0) else if 200 <= last.status < 300 then Data else ApiError(last.status))
    ensures result != KeyRequired ==>
      && |sleeps| == |sends| - 1 && (forall n :: 0 <= n < |sleeps| ==> sleeps[n] == WaitAfter(world, jitter, n))
    ensures forall n: nat :: n < |sends| - 1 ==> MayBeRetried(world(n))
    ensures forall n :: 0 <= n < |sends| ==>
      && Some(sends[n].bearer) == (if spec.key.Some? then spec.key else current)
      && sends[n].path == spec.path && sends[n].idempotencyKey == spec.idempotencyKey && sends[n].body == spec.body
  {
    sends, sleeps := [], [];
    if spec.key.None? && current.None? { return KeyRequired, [], []; }
    var key := if spec.key.Some? then spec.key.value else current.value;
    var sent := Sent(spec.path, key, spec.idempotencyKey, spec.body);
    var attempts := Attempts(0, 0, 0);
    var n: nat := 0;
    while true
      invariant |sends| == |sleeps| == n
      invariant forall m :: 0 <= m < n ==> sends[m] == sent && sleeps[m] == WaitAfter(world, jitter, m)
      invariant forall m: nat :: m < n ==> !Stops(world, m)
      invariant attempts == UsedBy(world, n)
      invariant attempts.transient <= 3 && attempts.rateLimited <= 2 && attempts.inFlight <= 3
      decreases 8 - attempts.transient - attempts.rateLimited - attempts.inFlight
    {
      sends := sends + [sent];
      var ended, waitMs, used := Weigh(world(n), attempts, jitter(n));
      if ended.Some? {
        RetriedMayBe(world, n);
        return ended.value, sends, sleeps;
      }
      OneMoreUsed(world, n);
      attempts := used;
      sleeps := sleeps + [waitMs];
      n := n + 1;
    }
  }

  // The retries a call has used, kind by kind.
  datatype Attempts = Attempts(transient: nat, rateLimited: nat, inFlight: nat)

  function Used(attempts: Attempts, kind: Kind): nat {
    match kind
    case Transient => attempts.transient
    case RateLimited => attempts.rateLimited
    case InFlight => attempts.inFlight
    case _ => 0
  }

  function Use(attempts: Attempts, kind: Kind): Attempts {
    match kind
    case Transient => attempts.(transient := attempts.transient + 1)
    case RateLimited => attempts.(rateLimited := attempts.rateLimited + 1)
    case InFlight => attempts.(inFlight := attempts.inFlight + 1)
    case _ => attempts
  }

  // One answer: the end of the call, or the wait before the next request and the retry it used.
  method Weigh(res: Answer, attempts: Attempts, jitterMs: nat) returns (ended: Option<Result>, waitMs: int, used: Attempts)
    ensures ended.Some? <==> Ends(res, attempts)
    ensures ended.Some? ==> ended.value == ResultOf(res)
    ensures ended.None? ==> waitMs == WaitOf(res, attempts, jitterMs)
    ensures ended.None? ==> used == Use(attempts, KindOf(res))
  {
    ended, waitMs, used := None, 0, attempts;
    if res.NetworkError? {
      if attempts.transient >= MAX_RETRY_TRANSIENT { ended := Some(ApiError(0)); return; }
      used := attempts.(transient := attempts.transient + 1);
      waitMs := BackoffMs(used.transient, jitterMs);
    } else if 200 <= res.status < 300 {
      ended := Some(Data);
    } else if res.status == 429 && attempts.rateLimited < MAX_RETRY_RATE_LIMITED {
      used := attempts.(rateLimited := attempts.rateLimited + 1);
      waitMs := if res.retryAfter.Some? then res.retryAfter.value * 1000 else DEFAULT_RATE_LIMIT_BACKOFF_MS;
    } else if res.status == 409 && res.idempotencyInFlight && attempts.inFlight < MAX_RETRY_IN_FLIGHT {
      used := attempts.(inFlight := attempts.inFlight + 1);
      waitMs := (if res.retryAfter.Some? then res.retryAfter.value else DEFAULT_IN_FLIGHT_RETRY_SECONDS) * 1000;
    } else if res.status >= 500 && attempts.transient < MAX_RETRY_TRANSIENT {
      used := attempts.(transient := attempts.transient + 1);
      waitMs := BackoffMs(used.transient, jitterMs);
    } else {
      ended := Some(ApiError(res.status));
    }
  }

  // Whether an answer ends a call that has used these retries, and how long the call waits if
  // not.
  predicate Ends(res: Answer, attempts: Attempts) { Used(attempts, KindOf(res)) >= Budget(KindOf(res)) }

  function WaitOf(res: Answer, attempts: Attempts, jitterMs: nat): int { Wait(res, Used(attempts, KindOf(res)), jitterMs) }

  // What Weigh makes of each kind of answer.
  lemma AnswersAreWeighed(res: Answer, attempts: Attempts, jitterMs: nat)
    // Three retries after network failures and server errors, after one, two and four seconds.
    ensures res.NetworkError? || res.status >= 500 ==>
      && (Ends(res, attempts) <==> attempts.transient >= 3)
      && Use(attempts, KindOf(res)) == attempts.(transient := attempts.transient + 1)
      && (attempts.transient < 3 ==>
            WaitOf(res, attempts, jitterMs) == jitterMs + (if attempts.transient == 0 then 1000 else if attempts.transient == 1 then 2000 else 4000))
    // Two after a rate limit, as long as the service asks for or half a minute.
    ensures res.Response? && res.status == 429 ==>
      && (Ends(res, attempts) <==> attempts.rateLimited >= 2)
      && Use(attempts, KindOf(res)) == attempts.(rateLimited := attempts.rateLimited + 1)
      && WaitOf(res, attempts, jitterMs) == (if res.retryAfter.Some? then res.retryAfter.value * 1000 else 30_000)
    // Three while the first request is still in flight, as long as asked or five seconds.
    ensures res.Response? && res.status == 409 && res.idempotencyInFlight ==>
      && (Ends(res, attempts) <==> attempts.inFlight >= 3)
      && Use(attempts, KindOf(res)) == attempts.(inFlight := attempts.inFlight + 1)
      && WaitOf(res, attempts, jitterMs) == (if res.retryAfter.Some? then res.retryAfter.value * 1000 else 5_000)
    // Anything else is final.
    ensures !MayBeRetried(res) ==> Ends(res, attempts)
  {
    assert Pow2(0) == 1 && Pow2(1) == 2 && Pow2(2) == 4;
  }

  // The answers before the last fill their budgets at most.
  lemma {:induction false} BudgetsFill(world: nat -> Answer, n: nat)
    requires forall m: nat :: m < n ==> !Stops(world, m)
    ensures n == Count(world, n, Transient) + Count(world, n, RateLimited) + Count(world, n, InFlight)
    ensures Count(world, n, Transient) <= MAX_RETRY_TRANSIENT
    ensures Count(world, n, RateLimited) <= MAX_RETRY_RATE_LIMITED
    ensures Count(world, n, InFlight) <= MAX_RETRY_IN_FLIGHT
  {
    if n > 0 {
      BudgetsFill(world, n - 1);
      assert !Stops(world, n - 1);
    }
  }

  // Whatever the provider answers, a call ends, and within nine requests.
  lemma AtMostNineSends(world: nat -> Answer)
    ensures exists n: nat :: n <= 8 && StopsFirstAt(world, n)
    ensures forall n: nat :: StopsFirstAt(world, n) ==> n <= 8
  {
    var n: nat := 0;
    while !Stops(world, n)
      invariant n <= 8 && forall m: nat :: m < n ==> !Stops(world, m)
      decreases 8 - n
    {
      BudgetsFill(world, n + 1);
      n := n + 1;
    }
    assert StopsFirstAt(world, n);
    forall k: nat | StopsFirstAt(world, k) ensures k <= 8 { BudgetsFill(world, k); }
  }

  // A provider that makes a call send nine requests.
  function Stubborn(n: nat): Answer {
    if n < 3 then NetworkError
    else if n < 5 then Response(429, false, None)
    else if n < 8 then Response(409, true, None)
    else Response(503, false, None)
  }

  lemma NineSendsHappen()
    ensures StopsFirstAt(Stubborn, 8)
  {
    forall m: nat | m < 8 ensures !Stops(Stubborn, m) { StubbornCounts(m); }
    StubbornCounts(8);
  }

  lemma {:induction false} StubbornCounts(n: nat)
    requires n <= 8
    ensures Count(Stubborn, n, Transient) == (if n < 3 then n else 3)
    ensures Count(Stubborn, n, RateLimited) == (if n < 3 then 0 else if n < 5 then n - 3 else 2)
    ensures Count(Stubborn, n, InFlight) == (if n < 5 then 0 else n - 5)
  {
    if n > 0 { StubbornCounts(n - 1); }
  }
}
