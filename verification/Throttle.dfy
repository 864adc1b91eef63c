// The sliding-window request limiter (src/wallet-engine/api/throttle.ts).
module Throttle {
  import opened Options

  // Time passes while a caller sleeps, at least for as long as it asked.
  class Clock {
    var now: int

    constructor (start: int)
      ensures now == start
    {
      now := start;
    }

    method Sleep(ms: int, late: nat)
      requires ms >= 0
      modifies this
      ensures now == old(now) + ms + late
    {
      now := now + ms + late;
    }
  }

  // The acquisitions still inside the window.
  function Fresh(times: seq<int>, now: int, windowMs: int): seq<int> {
    if times == [] then []
    else (if now - times[0] < windowMs then [times[0]] else []) + Fresh(times[1..], now, windowMs)
  }

  ghost predicate Ascending(times: seq<int>, now: int) {
    && (forall i, j :: 0 <= i < j < |times| ==> times[i] <= times[j])
    && (forall i :: 0 <= i < |times| ==> times[i] <= now)
  }

  // Any limit + 1 consecutive acquisitions span at least the window.
  ghost predicate Spaced(history: seq<int>, limit: nat, windowMs: int) {
    forall k: nat :: k + limit < |history| ==> history[k + limit] - history[k] >= windowMs
  }

  // `times` is the recent end of `history`; everything before it has aged out.
  ghost predicate IsRecentEnd(times: seq<int>, history: seq<int>, now: int, windowMs: int) {
    && |times| <= |history| && times == history[|history| - |times|..]
    && forall i :: 0 <= i < |history| - |times| ==> now - history[i] >= windowMs
  }

  lemma {:induction false} FreshIsRecentEnd(times: seq<int>, now: int, windowMs: int)
    requires Ascending(times, now)
    ensures IsRecentEnd(Fresh(times, now, windowMs), times, now, windowMs)
    ensures forall t :: t in Fresh(times, now, windowMs) ==> now - t < windowMs
  {
    if times != [] {
      FreshIsRecentEnd(times[1..], now, windowMs);
      var rest := Fresh(times[1..], now, windowMs);
      if now - times[0] < windowMs {
        assert |times| > 1 ==> times[1..][0] >= times[0];
        assert |rest| == |times| - 1;
        assert rest == times[1..];
        assert times == [times[0]] + times[1..];
      } else {
        assert times[|times| - |rest|..] == times[1..][|times[1..]| - |rest|..];
        forall i | 0 <= i < |times| - |rest| ensures now - times[i] >= windowMs {
          if i > 0 { assert times[i] == times[1..][i-1]; }
        }
      }
    }
  }

  // The recent end of a recent end, at a later time.
  lemma RecentEndOfRecentEnd(inner: seq<int>, times: seq<int>, history: seq<int>, now: int, later: int, windowMs: int)
    requires IsRecentEnd(times, history, now, windowMs) && IsRecentEnd(inner, times, later, windowMs) && now <= later
    ensures IsRecentEnd(inner, history, later, windowMs)
  {
    forall i | 0 <= i < |history| - |inner| ensures later - history[i] >= windowMs {
      if i >= |history| - |times| { assert history[i] == times[i - (|history| - |times|)]; }
    }
  }

  // Recording one more acquisition while fewer than `limit` are fresh keeps the spacing.
  lemma AcquireKeepsSpacing(recent: seq<int>, history: seq<int>, now: int, limit: nat, windowMs: int)
    requires Spaced(history, limit, windowMs) && Ascending(history, now) && limit > 0
    requires IsRecentEnd(recent, history, now, windowMs) && |recent| < limit
    ensures Spaced(history + [now], limit, windowMs) && Ascending(history + [now], now)
    ensures IsRecentEnd(recent + [now], history + [now], now, windowMs)
  {
  }

  // From `at` on, fewer than `limit` of these are fresh.
  ghost predicate FreesUp(times: seq<int>, at: int, windowMs: int, limit: nat) {
    forall later :: later >= at ==> |Fresh(times, later, windowMs)| < limit
  }

  // What the throttle keeps of one bucket, and the bucket's history.
  ghost predicate BucketOk(times: seq<int>, history: seq<int>, seen: int, limit: nat, windowMs: int) {
    && |times| <= limit
    && Ascending(history, seen) && Spaced(history, limit, windowMs)
    && IsRecentEnd(times, history, seen, windowMs)
  }

  lemma FreshOfRecentEnd(times: seq<int>, history: seq<int>, now: int, windowMs: int)
    requires IsRecentEnd(times, history, now, windowMs) && Ascending(history, now)
    ensures
      var recent := Fresh(times, now, windowMs);
      && IsRecentEnd(recent, history, now, windowMs) && |recent| <= |times|
      && (recent != [] ==> now - windowMs < recent[0] <= now)
  {
    var recent := Fresh(times, now, windowMs);
    FreshIsRecentEnd(times, now, windowMs);
    RecentEndOfRecentEnd(recent, times, history, now, now, windowMs);
    if recent != [] { assert recent[0] in recent; }
  }

  class Throttle {
    const limit: nat
    const windowMs: nat
    var buckets: map<string, seq<int>>
    // Every acquisition ever made per bucket, and the latest time seen.
    ghost var history: map<string, seq<int>>
    ghost var seen: int

    ghost predicate Valid()
      reads this
    {
      && limit > 0 && history.Keys == buckets.Keys
      && forall b :: b in buckets ==> BucketOk(buckets[b], history[b], seen, limit, windowMs)
    }

    ghost function HistoryOf(bucket: string): seq<int>
      reads this
    {
      if bucket in history then history[bucket] else []
    }

    function TimesOf(bucket: string): seq<int>
      reads this
    {
      if bucket in buckets then buckets[bucket] else []
    }

    constructor (limit: nat, windowMs: nat)
      requires limit >= 1
      ensures Valid() && this.limit == limit && this.windowMs == windowMs && history == map[]
    {
      this.limit, this.windowMs, buckets := limit, windowMs, map[];
      history, seen := map[], 0;
    }

    ghost predicate NotBefore(now: int)
      reads this
    {
      history == map[] || seen <= now
    }

    // Records that time moved on; nothing recorded so far is later than now.
    ghost method Observe(now: int)
      requires Valid() && NotBefore(now)
      modifies this`seen
      ensures Valid() && seen == now
    {
      var was := seen;
      seen := now;
      forall b | b in buckets ensures BucketOk(buckets[b], history[b], now, limit, windowMs) {
        assert BucketOk(buckets[b], history[b], was, limit, windowMs);
      }
    }

    // The timestamps of a bucket that are still inside the window.
    method Recent(bucket: string, now: int) returns (recent: seq<int>)
      requires Valid() && NotBefore(now)
      modifies this`seen
      ensures Valid() && seen == now
      ensures recent == Fresh(TimesOf(bucket), now, windowMs) && |recent| <= limit
      ensures recent != [] ==> bucket in buckets && now - windowMs < recent[0] <= now
      ensures IsRecentEnd(recent, HistoryOf(bucket), now, windowMs)
    {
      Observe(now);
      recent := Fresh(TimesOf(bucket), now, windowMs);
      FreshOfRecentEnd(TimesOf(bucket), HistoryOf(bucket), now, windowMs);
    }

    method Take(bucket: string, now: int, recent: seq<int>)
      requires Valid() && seen == now && |recent| < limit && IsRecentEnd(recent, HistoryOf(bucket), now, windowMs)
      modifies this`buckets, this`history
      ensures Valid()
      ensures history == old(history)[bucket := old(HistoryOf(bucket)) + [now]]
      ensures buckets == old(buckets)[bucket := recent + [now]]
    {
      AcquireKeepsSpacing(recent, HistoryOf(bucket), now, limit, windowMs);
      buckets := buckets[bucket := recent + [now]];
      history := history[bucket := HistoryOf(bucket) + [now]];
    }

    method Keep(bucket: string, recent: seq<int>)
      requires Valid() && bucket in buckets && |recent| <= limit && IsRecentEnd(recent, HistoryOf(bucket), seen, windowMs)
      modifies this`buckets
      ensures Valid() && buckets == old(buckets)[bucket := recent]
    {
      buckets := buckets[bucket := recent];
    }

    // One turn of acquire's loop: runs between two awaits, so callers cannot interleave in it.
    // Either the slot is taken or the caller must wait and come back. Other buckets stay.
    method Attempt(bucket: string, now: int) returns (waitMs: Option<int>)
      requires Valid() && NotBefore(now)
      modifies this
      ensures Valid() && seen == now
      ensures waitMs.None? <==> |Fresh(old(TimesOf(bucket)), now, windowMs)| < limit
      ensures history == if waitMs.None? then old(history)[bucket := old(HistoryOf(bucket)) + [now]] else old(history)
      ensures buckets == old(buckets)[bucket := TimesOf(bucket)]
      ensures waitMs.Some? ==>
        1 <= waitMs.value <= windowMs + 1 && FreesUp(TimesOf(bucket), now + waitMs.value, windowMs, limit)
    {
      var recent := Recent(bucket, now);
      if |recent| < limit {
        Take(bucket, now, recent);
        return None;
      }
      Keep(bucket, recent);
      var wait := windowMs - (now - recent[0]) + 1;
      AgesOut(recent, now, windowMs);
      return Some(wait);
    }

    // acquire with no other caller on the bucket.
    method Acquire(bucket: string, clock: Clock, late: nat) returns (sleeps: nat)
      requires Valid() && NotBefore(clock.now)
      modifies this, clock
      ensures Valid() && sleeps <= 1
      ensures history == old(history)[bucket := old(HistoryOf(bucket)) + [clock.now]]
      ensures clock.now <= old(clock.now) + (if sleeps == 0 then 0 else windowMs + 1 + late)
    {
      sleeps := 0;
      while true
        invariant Valid() && NotBefore(clock.now) && sleeps <= 1
        invariant history == old(history)
        invariant sleeps == 0 ==> clock.now == old(clock.now)
        invariant sleeps == 1 ==> |Fresh(TimesOf(bucket), clock.now, windowMs)| < limit
        invariant clock.now <= old(clock.now) + (if sleeps == 0 then 0 else windowMs + 1 + late)
        decreases 1 - sleeps
      {
        var waitMs := Attempt(bucket, clock.now);
        if waitMs.None? { return; }
        clock.Sleep(waitMs.value, late);
        sleeps := sleeps + 1;
      }
    }
  }

  lemma {:induction false} FreshAtMost(times: seq<int>, now: int, windowMs: int)
    ensures |Fresh(times, now, windowMs)| <= |times|
  {
    if times != [] { FreshAtMost(times[1..], now, windowMs); }
  }

  lemma AgesOut(recent: seq<int>, now: int, windowMs: nat)
    requires recent != []
    ensures FreesUp(recent, now + (windowMs - (now - recent[0]) + 1), windowMs, |recent|)
  {
    forall later | later >= now + (windowMs - (now - recent[0]) + 1) ensures |Fresh(recent, later, windowMs)| < |recent| {
      FreshAtMost(recent[1..], later, windowMs);
    }
  }
}
