// The request loop of the tool server's API client (src/apiClient.ts): bounded automatic
// retries, and one renewal of an expired owner session.
module GatewayRetry {
  import opened Options

  datatype Answer =
    | Aborted
    | NetworkFailure
    | Response(status: int, autoRetry: bool, retryAfter: Option<int>)

  // What becomes of the renewal hook if it is called.
  datatype Hook = Absent | Throws | Refuses | Renews(token: Option<string>)

  datatype Config = Config(maxAttempts: int, maxRetrySleepMs: int, retrySafe: bool, ownerSession: bool, hook: Hook)

  datatype End = Data | PassesAbort | NetworkError | ApiError(status: int) | RenewalError | FellThrough

  // A call: the token of every request sent, every sleep between them, the attempt whose 401
  // was answered by a successful renewal, and how the call ended.
  datatype Run = Run(sends: seq<string>, sleeps: seq<int>, renewedAt: Option<nat>, end: End)

  predicate IsOk(a: Answer) { a.Response? && 200 <= a.status < 300 }

  function Pow2(n: nat): nat { if n == 0 then 1 else 2 * Pow2(n - 1) }

  function BackoffMs(c: Config, attempt: nat): int
    requires attempt >= 1
  {
    var ms := 1000 * Pow2(attempt - 1);
    if ms < c.maxRetrySleepMs then ms else c.maxRetrySleepMs
  }

  function RetryDelayMs(c: Config, attempt: nat, retryAfter: Option<int>): Option<int>
    requires attempt >= 1
  {
    if retryAfter.Some? then (if retryAfter.value * 1000 > c.maxRetrySleepMs then None else Some(retryAfter.value * 1000))
    else Some(BackoffMs(c, attempt))
  }

  // The wait after an answer that the loop retries while attempts are left.
  function WaitFor(c: Config, attempt: nat, a: Answer): Option<int>
    requires attempt >= 1
  {
    if !c.retrySafe || a.Aborted? || IsOk(a) then None
    else if a.NetworkFailure? then Some(BackoffMs(c, attempt))
    else if a.autoRetry then RetryDelayMs(c, attempt, a.retryAfter)
    else None
  }

  // Whether the session of this call can be renewed at all.
  predicate IsRenewable(c: Config) { c.ownerSession && c.hook.Renews? && c.hook.token.Some? }

  predicate IsExpired(a: Answer) { a.Response? && a.status == 401 }

  // Whether this answer sends the loop to the renewal hook.
  predicate AsksForRenewal(c: Config, a: Answer, refreshed: bool) {
    IsExpired(a) && c.ownerSession && !refreshed && c.hook != Absent
  }

  predicate Renewed(c: Config, a: Answer, refreshed: bool) {
    AsksForRenewal(c, a, refreshed) && IsRenewable(c)
  }

  function EndOf(c: Config, a: Answer, refreshed: bool): End {
    if a.Aborted? then PassesAbort
    else if a.NetworkFailure? then NetworkError
    else if IsOk(a) then Data
    else if AsksForRenewal(c, a, refreshed) && c.hook == Throws then RenewalError
    else ApiError(a.status)
  }

  function Before(token: string, sleeps: seq<int>, renewedAt: Option<nat>, rest: Run): Run {
    Run([token] + rest.sends, sleeps + rest.sleeps, if renewedAt.Some? then renewedAt else rest.renewedAt, rest.end)
  }

  // The call from attempt `attempt` on; `world` answers request n as world(n).
  function Attempts(c: Config, world: nat -> Answer, token: string, attempt: nat, refreshed: bool): Run
    requires attempt >= 1
    decreases c.maxAttempts + 2 - attempt
  {
    if attempt > c.maxAttempts + (if refreshed then 1 else 0) then Run([], [], None, FellThrough)
    else
      var a := world(attempt);
      var asked := AsksForRenewal(c, a, refreshed);
      if Renewed(c, a, refreshed) then
        Before(token, [], Some(attempt), Attempts(c, world, c.hook.token.value, attempt + 1, true))
      else if !(asked && c.hook == Throws) && WaitFor(c, attempt, a).Some? && attempt < c.maxAttempts then
        Before(token, [WaitFor(c, attempt, a).value], None, Attempts(c, world, token, attempt + 1, refreshed || asked))
      else Run([token], [], None, EndOf(c, a, refreshed))
  }

  // A run that goes on as `rest`.
  function Then(done: Run, rest: Run): Run {
    Run(done.sends + rest.sends, done.sleeps + rest.sleeps, if done.renewedAt.Some? then done.renewedAt else rest.renewedAt, rest.end)
  }

  lemma ThenBefore(done: Run, token: string, sleeps: seq<int>, renewedAt: Option<nat>, rest: Run)
    requires renewedAt.Some? ==> done.renewedAt.None?
    ensures
      var more := Run(done.sends + [token], done.sleeps + sleeps, if renewedAt.Some? then renewedAt else done.renewedAt, done.end);
      Then(done, Before(token, sleeps, renewedAt, rest)) == Then(more, rest)
  {
    assert done.sends + ([token] + rest.sends) == (done.sends + [token]) + rest.sends;
    assert done.sleeps + (sleeps + rest.sleeps) == (done.sleeps + sleeps) + rest.sleeps;
  }

  // `done` is what the call has done when it is about to make attempt `attempt`.
  ghost predicate OnTrack(c: Config, world: nat -> Answer, token: string, done: Run, credential: string, attempt: nat, refreshed: bool) {
    && attempt >= 1 && (done.renewedAt.Some? ==> refreshed) && done.end == FellThrough
    && Attempts(c, world, token, 1, false) == Then(done, Attempts(c, world, credential, attempt, refreshed))
  }

  lemma GoesOnRenewed(c: Config, world: nat -> Answer, token: string, done: Run, credential: string, attempt: nat, refreshed: bool)
    requires OnTrack(c, world, token, done, credential, attempt, refreshed)
    requires attempt <= c.maxAttempts + (if refreshed then 1 else 0) && Renewed(c, world(attempt), refreshed)
    ensures OnTrack(c, world, token, done.(sends := done.sends + [credential], renewedAt := Some(attempt)),
                    c.hook.token.value, attempt + 1, true)
  {
    ThenBefore(done, credential, [], Some(attempt), Attempts(c, world, c.hook.token.value, attempt + 1, true));
    assert done.sleeps + [] == done.sleeps;
  }

  lemma GoesOnAfterSleep(c: Config, world: nat -> Answer, token: string, done: Run, credential: string, attempt: nat, refreshed: bool, ms: int)
    requires OnTrack(c, world, token, done, credential, attempt, refreshed)
    requires attempt < c.maxAttempts && !Renewed(c, world(attempt), refreshed) && WaitFor(c, attempt, world(attempt)) == Some(ms)
    requires !(AsksForRenewal(c, world(attempt), refreshed) && c.hook == Throws)
    ensures OnTrack(c, world, token, done.(sends := done.sends + [credential], sleeps := done.sleeps + [ms]),
                    credential, attempt + 1, refreshed || AsksForRenewal(c, world(attempt), refreshed))
  {
    ThenBefore(done, credential, [ms], None,
               Attempts(c, world, credential, attempt + 1, refreshed || AsksForRenewal(c, world(attempt), refreshed)));
  }

  lemma EndsHere(c: Config, world: nat -> Answer, token: string, done: Run, credential: string, attempt: nat, refreshed: bool)
    requires OnTrack(c, world, token, done, credential, attempt, refreshed)
    requires attempt <= c.maxAttempts + (if refreshed then 1 else 0) && !Renewed(c, world(attempt), refreshed)
    requires
      || (AsksForRenewal(c, world(attempt), refreshed) && c.hook == Throws)
      || WaitFor(c, attempt, world(attempt)).None? || attempt >= c.maxAttempts
    ensures Attempts(c, world, token, 1, false) == done.(sends := done.sends + [credential], end := EndOf(c, world(attempt), refreshed))
  {
    assert done.sleeps + [] == done.sleeps;
  }

  method Request(c: Config, world: nat -> Answer, token: string) returns (run: Run)
    ensures run == Attempts(c, world, token, 1, false)
  {
    var credential, refreshed, attempt := token, false, 1;
    run := Run([], [], None, FellThrough);
    while attempt <= c.maxAttempts + (if refreshed then 1 else 0)
      invariant OnTrack(c, world, token, run, credential, attempt, refreshed)
      decreases c.maxAttempts + 2 - attempt
    {
      var res := world(attempt);
      var asked := AsksForRenewal(c, res, refreshed);
      if asked && c.hook.Renews? && c.hook.token.Some? {
        GoesOnRenewed(c, world, token, run, credential, attempt, refreshed);
        run := run.(sends := run.sends + [credential], renewedAt := Some(attempt));
        credential, refreshed := c.hook.token.value, true;
      } else {
        var waitMs := NextWait(c, res, attempt, asked);
        if waitMs.None? {
          EndsHere(c, world, token, run, credential, attempt, refreshed);
          return run.(sends := run.sends + [credential], end := EndOf(c, res, refreshed));
        }
        GoesOnAfterSleep(c, world, token, run, credential, attempt, refreshed, waitMs.value);
        run := run.(sends := run.sends + [credential], sleeps := run.sleeps + [waitMs.value]);
        refreshed := refreshed || asked;
      }
      attempt := attempt + 1;
    }
  }

  // The sleep before the next attempt, if the loop makes one after this answer.
  method NextWait(c: Config, res: Answer, attempt: nat, asked: bool) returns (waitMs: Option<int>)
    requires attempt >= 1
    ensures waitMs == if !(asked && c.hook == Throws) && attempt < c.maxAttempts then WaitFor(c, attempt, res) else None
  {
    if res.Aborted? { return None; }
    if res.NetworkFailure? {
      if c.retrySafe && attempt < c.maxAttempts && !(asked && c.hook == Throws) { return Some(BackoffMs(c, attempt)); }
      return None;
    }
    if 200 <= res.status < 300 || (asked && c.hook == Throws) { return None; }
    if c.retrySafe && res.autoRetry && attempt < c.maxAttempts { return RetryDelayMs(c, attempt, res.retryAfter); }
    return None;
  }

  // ----- what a call does --------------------------------------------------------------------------------

  // From any attempt on: how many requests, sleeps and renewals, and which tokens.
  lemma {:induction false} AttemptsShape(c: Config, world: nat -> Answer, token: string, attempt: nat, refreshed: bool)
    requires 1 <= attempt <= c.maxAttempts + (if refreshed then 1 else 0)
    ensures
      var run := Attempts(c, world, token, attempt, refreshed);
      && run.end != FellThrough
      && 1 <= |run.sends| <= c.maxAttempts + 2 - attempt
      && |run.sends| == 1 + |run.sleeps| + (if run.renewedAt.Some? then 1 else 0)
      && (forall i :: 0 <= i < |run.sleeps| ==> run.sleeps[i] <= c.maxRetrySleepMs)
      && (run.renewedAt.Some? ==> !refreshed && attempt <= run.renewedAt.value <= c.maxAttempts)
      && (!c.retrySafe ==> run.sleeps == [])
      && (run.renewedAt.Some? ==> IsExpired(world(run.renewedAt.value)))
      && (run.renewedAt.Some? ==>
            && IsRenewable(c)
            && forall i :: 0 <= i < |run.sends| ==>
                 run.sends[i] == (if attempt + i > run.renewedAt.value then c.hook.token.value else token))
      && (run.renewedAt.None? ==> forall i :: 0 <= i < |run.sends| ==> run.sends[i] == token)
    decreases c.maxAttempts + 2 - attempt
  {
    var a := world(attempt);
    var asked := AsksForRenewal(c, a, refreshed);
    if Renewed(c, a, refreshed) {
      AttemptsShape(c, world, c.hook.token.value, attempt + 1, true);
    } else if !(asked && c.hook == Throws) && WaitFor(c, attempt, a).Some? && attempt < c.maxAttempts {
      AttemptsShape(c, world, token, attempt + 1, refreshed || asked);
    }
  }

  // The attempt whose answer the i-th sleep followed.
  function SleepAttempt(run: Run, attempt: nat, i: nat): nat {
    if run.renewedAt.Some? && run.renewedAt.value <= attempt + i then attempt + i + 1 else attempt + i
  }

  // What is left of a call after its first attempt slept: the sleeps and their attempts shift
  // by one.
  lemma SleepsShift(c: Config, world: nat -> Answer, token: string, attempt: nat, ms: int, rest: Run)
    requires rest.renewedAt.Some? ==> attempt + 1 <= rest.renewedAt.value
    requires attempt >= 1 && WaitFor(c, attempt, world(attempt)) == Some(ms) && SleepsFollow(c, world, attempt + 1, rest)
    ensures SleepsFollow(c, world, attempt, Before(token, [ms], None, rest))
  {
    var run := Before(token, [ms], None, rest);
    forall i: nat | i < |run.sleeps|
      ensures IsPrescribed(c, SleepAttempt(run, attempt, i), world(SleepAttempt(run, attempt, i)), run.sleeps[i])
    {
      if i > 0 {
        assert run.sleeps[i] == rest.sleeps[i-1];
        assert SleepAttempt(run, attempt, i) == SleepAttempt(rest, attempt + 1, i - 1);
      }
    }
  }

  // The sleep after this answer: a Retry-After that fits is obeyed to the second, anything else
  // waits for the backoff of the attempt.
  predicate IsPrescribed(c: Config, attempt: nat, a: Answer, ms: int)
    requires attempt >= 1
  {
    if a.Response? && a.retryAfter.Some? then ms == a.retryAfter.value * 1000 && ms <= c.maxRetrySleepMs
    else ms == BackoffMs(c, attempt)
  }

  // The backoff starts at a second and doubles with every attempt, up to the limit.
  lemma BackoffDoubles(c: Config, attempt: nat)
    requires attempt >= 1
    ensures BackoffMs(c, 1) == if 1000 < c.maxRetrySleepMs then 1000 else c.maxRetrySleepMs
    ensures BackoffMs(c, attempt) < c.maxRetrySleepMs ==>
      BackoffMs(c, attempt + 1) == if 2 * BackoffMs(c, attempt) < c.maxRetrySleepMs then 2 * BackoffMs(c, attempt) else c.maxRetrySleepMs
    ensures BackoffMs(c, attempt) >= c.maxRetrySleepMs ==>
      BackoffMs(c, attempt) == BackoffMs(c, attempt + 1) == c.maxRetrySleepMs
  {
    assert Pow2(0) == 1 && Pow2(attempt) == 2 * Pow2(attempt - 1);
    PowIsPositive(attempt - 1);
  }

  lemma {:induction false} PowIsPositive(n: nat)
    ensures Pow2(n) >= 1
  {
    if n > 0 { PowIsPositive(n - 1); }
  }

  // Every sleep is what the answer before it asks for.
  ghost predicate SleepsFollow(c: Config, world: nat -> Answer, attempt: nat, run: Run)
    requires attempt >= 1
  {
    forall i: nat :: i < |run.sleeps| ==>
      IsPrescribed(c, SleepAttempt(run, attempt, i), world(SleepAttempt(run, attempt, i)), run.sleeps[i])
  }

  lemma {:induction false} SleepsAreWaits(c: Config, world: nat -> Answer, token: string, attempt: nat, refreshed: bool)
    requires 1 <= attempt <= c.maxAttempts + (if refreshed then 1 else 0)
    ensures SleepsFollow(c, world, attempt, Attempts(c, world, token, attempt, refreshed))
    decreases c.maxAttempts + 2 - attempt
  {
    var a := world(attempt);
    var asked := AsksForRenewal(c, a, refreshed);
    if Renewed(c, a, refreshed) {
      SleepsAreWaits(c, world, c.hook.token.value, attempt + 1, true);
      AttemptsShape(c, world, c.hook.token.value, attempt + 1, true);
    } else if !(asked && c.hook == Throws) && WaitFor(c, attempt, a).Some? && attempt < c.maxAttempts {
      SleepsAreWaits(c, world, token, attempt + 1, refreshed || asked);
      AttemptsShape(c, world, token, attempt + 1, refreshed || asked);
      SleepsShift(c, world, token, attempt, WaitFor(c, attempt, a).value, Attempts(c, world, token, attempt + 1, refreshed || asked));
    }
  }

  // Whether request n is answered in a way that the call goes on after: by the first 401 of a
  // session that can be renewed; or, for a request that is safe to retry while attempts are left,
  // by a network failure or by an error marked for automatic retry whose Retry-After, if it has
  // one, fits the limit.
  ghost predicate GoesOn(c: Config, world: nat -> Answer, n: nat) {
    var a := world(n);
    var asks := IsExpired(a) && c.ownerSession && IsFirstExpiry(world, n);
    if asks && c.hook.Renews? && c.hook.token.Some? then true
    else
      && c.retrySafe && n < c.maxAttempts && !(asks && c.hook == Throws)
      && (a.NetworkFailure?
          || (a.Response? && !(200 <= a.status < 300) && a.autoRetry
              && (a.retryAfter.Some? ==> a.retryAfter.value * 1000 <= c.maxRetrySleepMs)))
  }

  ghost predicate IsFirstExpiry(world: nat -> Answer, n: nat) { forall m: nat :: 1 <= m < n ==> !IsExpired(world(m)) }

  // How a call ends on its last answer.
  ghost predicate EndsOn(c: Config, world: nat -> Answer, n: nat, end: End) {
    match world(n)
    case Aborted => end == PassesAbort
    case NetworkFailure => end == NetworkError
    case Response(status, _, _) =>
      if 200 <= status < 300 then end == Data
      else if status == 401 && c.ownerSession && c.hook == Throws && IsFirstExpiry(world, n) then end == RenewalError
      else end == ApiError(status)
  }

  // The loop's memory of the hook agrees with the answers so far.
  ghost predicate Remembers(c: Config, world: nat -> Answer, attempt: nat, refreshed: bool) {
    c.ownerSession && c.hook != Absent ==> (refreshed <==> !IsFirstExpiry(world, attempt))
  }

  lemma {:induction false} CallFrom(c: Config, world: nat -> Answer, token: string, attempt: nat, refreshed: bool)
    requires 1 <= attempt <= c.maxAttempts + (if refreshed then 1 else 0) && Remembers(c, world, attempt, refreshed)
    ensures
      var run := Attempts(c, world, token, attempt, refreshed);
      && run.sends != []
      && (forall n: nat :: attempt <= n < attempt + |run.sends| ==> (n < attempt + |run.sends| - 1 <==> GoesOn(c, world, n)))
      && EndsOn(c, world, attempt + |run.sends| - 1, run.end)
    decreases c.maxAttempts + 2 - attempt
  {
    var a := world(attempt);
    var asked := AsksForRenewal(c, a, refreshed);
    assert IsFirstExpiry(world, attempt + 1) <==> IsFirstExpiry(world, attempt) && !IsExpired(a);
    if Renewed(c, a, refreshed) {
      CallFrom(c, world, c.hook.token.value, attempt + 1, true);
    } else if !(asked && c.hook == Throws) && WaitFor(c, attempt, a).Some? && attempt < c.maxAttempts {
      CallFrom(c, world, token, attempt + 1, refreshed || asked);
    }
  }

  // A call goes on after exactly the answers it should go on after, and ends as its last answer
  // says.
  lemma CallGoesOnExactlyWhen(c: Config, world: nat -> Answer, token: string)
    requires c.maxAttempts >= 1
    ensures
      var run := Attempts(c, world, token, 1, false);
      && run.sends != []
      && (forall n: nat :: 1 <= n <= |run.sends| ==> (n < |run.sends| <==> GoesOn(c, world, n)))
      && EndsOn(c, world, |run.sends|, run.end)
  {
    CallFrom(c, world, token, 1, false);
  }

  // The call returns data exactly when its last answer is good; a good answer ends it at once.
  lemma {:induction false} EndsWithItsAnswer(c: Config, world: nat -> Answer, token: string, attempt: nat, refreshed: bool)
    requires 1 <= attempt <= c.maxAttempts + (if refreshed then 1 else 0)
    ensures
      var run := Attempts(c, world, token, attempt, refreshed);
      && run.sends != []
      && (run.end == Data <==> IsOk(world(attempt + |run.sends| - 1)))
      && (forall n: nat :: attempt <= n < attempt + |run.sends| - 1 ==> !IsOk(world(n)))
    decreases c.maxAttempts + 2 - attempt
  {
    var a := world(attempt);
    var asked := AsksForRenewal(c, a, refreshed);
    if Renewed(c, a, refreshed) {
      EndsWithItsAnswer(c, world, c.hook.token.value, attempt + 1, true);
    } else if !(asked && c.hook == Throws) && WaitFor(c, attempt, a).Some? && attempt < c.maxAttempts {
      EndsWithItsAnswer(c, world, token, attempt + 1, refreshed || asked);
    }
  }

  // At most maxAttempts + 1 requests and one renewal; no sleep beyond the limit; the throw
  // after the loop is reached exactly when no attempt is allowed at all.
  lemma CallIsBounded(c: Config, world: nat -> Answer, token: string)
    ensures
      var run := Attempts(c, world, token, 1, false);
      && (run.end == FellThrough <==> c.maxAttempts < 1)
      && (c.maxAttempts < 1 ==> run.sends == [])
      && (c.maxAttempts >= 1 ==> 1 <= |run.sends| <= c.maxAttempts + 1)
      && (|run.sends| == c.maxAttempts + 1 && c.maxAttempts >= 1 ==> run.renewedAt.Some?)
      && (forall i :: 0 <= i < |run.sleeps| ==> run.sleeps[i] <= c.maxRetrySleepMs)
  {
    if c.maxAttempts >= 1 {
      AttemptsShape(c, world, token, 1, false);
      SleepsBelowBudget(c, world, token, 1, false);
    }
  }

  lemma {:induction false} SleepsBelowBudget(c: Config, world: nat -> Answer, token: string, attempt: nat, refreshed: bool)
    requires 1 <= attempt <= c.maxAttempts + (if refreshed then 1 else 0)
    ensures |Attempts(c, world, token, attempt, refreshed).sleeps| <= (if attempt < c.maxAttempts then c.maxAttempts - attempt else 0)
    decreases c.maxAttempts + 2 - attempt
  {
    var a := world(attempt);
    var asked := AsksForRenewal(c, a, refreshed);
    if Renewed(c, a, refreshed) {
      SleepsBelowBudget(c, world, c.hook.token.value, attempt + 1, true);
    } else if !(asked && c.hook == Throws) && WaitFor(c, attempt, a).Some? && attempt < c.maxAttempts {
      SleepsBelowBudget(c, world, token, attempt + 1, refreshed || asked);
    }
  }

  // A request that is not safe to retry is sent twice only after a 401 and a renewal, the
  // second time under the renewed token.
  lemma UnsafeSentOnce(c: Config, world: nat -> Answer, token: string)
    requires !c.retrySafe && c.maxAttempts >= 1
    ensures
      var run := Attempts(c, world, token, 1, false);
      && |run.sends| <= 2
      && (|run.sends| == 2 <==> Renewed(c, world(1), false))
      && (|run.sends| == 2 ==> run.sends == [token, c.hook.token.value])
  {
    AttemptsShape(c, world, token, 1, false);
  }

  // Whether the loop gave up on an answer it retries while attempts are left.
  predicate GaveUp(c: Config, world: nat -> Answer, attempt: nat, run: Run)
    requires attempt >= 1
  {
    run.sends != []
    && var last := attempt + |run.sends| - 1;
       WaitFor(c, last, world(last)).Some? && !IsExpired(world(last))
  }

  lemma {:induction false} GaveUpAtTheEnd(c: Config, world: nat -> Answer, token: string, attempt: nat, refreshed: bool)
    requires 1 <= attempt <= c.maxAttempts + (if refreshed then 1 else 0)
    requires GaveUp(c, world, attempt, Attempts(c, world, token, attempt, refreshed))
    ensures
      var run := Attempts(c, world, token, attempt, refreshed);
      var last := attempt + |run.sends| - 1;
      last == (if run.renewedAt == Some(c.maxAttempts) || attempt > c.maxAttempts then c.maxAttempts + 1 else c.maxAttempts)
    decreases c.maxAttempts + 2 - attempt
  {
    var a := world(attempt);
    var asked := AsksForRenewal(c, a, refreshed);
    AttemptsShape(c, world, token, attempt, refreshed);
    if Renewed(c, a, refreshed) {
      AttemptsShape(c, world, c.hook.token.value, attempt + 1, true);
      GaveUpAtTheEnd(c, world, c.hook.token.value, attempt + 1, true);
    } else if !(asked && c.hook == Throws) && WaitFor(c, attempt, a).Some? && attempt < c.maxAttempts {
      AttemptsShape(c, world, token, attempt + 1, refreshed || asked);
      GaveUpAtTheEnd(c, world, token, attempt + 1, refreshed || asked);
    }
  }

  // A renewable session is renewed at the first 401.
  lemma {:induction false} RenewedAtFirstExpiry(c: Config, world: nat -> Answer, token: string, attempt: nat)
    requires 1 <= attempt <= c.maxAttempts && IsRenewable(c)
    requires GaveUp(c, world, attempt, Attempts(c, world, token, attempt, false))
    ensures
      var run := Attempts(c, world, token, attempt, false);
      (run.renewedAt.None? || run.renewedAt.value == c.maxAttempts) <==>
        forall n: nat :: attempt <= n < c.maxAttempts ==> !IsExpired(world(n))
    decreases c.maxAttempts - attempt
  {
    var a := world(attempt);
    GaveUpAtTheEnd(c, world, token, attempt, false);
    if !Renewed(c, a, false) && WaitFor(c, attempt, a).Some? && attempt < c.maxAttempts {
      AttemptsShape(c, world, token, attempt + 1, false);
      RenewedAtFirstExpiry(c, world, token, attempt + 1);
      assert !IsExpired(a);
    } else if Renewed(c, a, false) {
      AttemptsShape(c, world, c.hook.token.value, attempt + 1, true);
      assert IsExpired(world(attempt));
    }
  }

  // A renewal is meant to buy one extra attempt and to leave the budget of maxAttempts - 1
  // transient retries alone. A call that gives up has used that budget if and only if its
  // session cannot be renewed or none of the first maxAttempts - 1 requests is answered with a
  // 401: a renewal costs one retry unless it falls on the last attempt.
  lemma RenewalKeepsBudgetWhen(c: Config, world: nat -> Answer, token: string)
    requires c.maxAttempts >= 1 && GaveUp(c, world, 1, Attempts(c, world, token, 1, false))
    ensures
      |Attempts(c, world, token, 1, false).sleeps| == c.maxAttempts - 1 <==>
        !IsRenewable(c) || forall n: nat :: 1 <= n < c.maxAttempts ==> !IsExpired(world(n))
  {
    AttemptsShape(c, world, token, 1, false);
    GaveUpAtTheEnd(c, world, token, 1, false);
    if IsRenewable(c) { RenewedAtFirstExpiry(c, world, token, 1); }
  }

  // An expired session in front of an unavailable service, and the same service without it.
  lemma RenewalCostsARetry()
    ensures
      var c := Config(2, 10_000, true, true, Renews(Some("renewed")));
      var expired: nat -> Answer := n => if n == 1 then Response(401, false, None) else Response(503, true, None);
      var valid: nat -> Answer := n => Response(503, true, None);
      && Attempts(c, expired, "token", 1, false) == Run(["token", "renewed"], [], Some(1), ApiError(503))
      && Attempts(c, valid, "token", 1, false) == Run(["token", "token"], [1000], None, ApiError(503))
  {
    assert Pow2(0) == 1;
  }
}
