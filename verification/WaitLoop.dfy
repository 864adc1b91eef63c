// The checkout wait loop (src/tools/wait.ts, runWaitLoop).
module WaitLoop {
  import opened Options

  const TERMINAL_CHECKOUT_STATUSES: set<string> := {"completed", "expired", "cancelled"}
  const LIFECYCLE: seq<string> := ["pending", "processing", "approved", "completed"]

  // One poll: a snapshot, an error the loop may ride out, or one it must not. Each takes time.
  datatype Poll =
    | Snapshot(status: string, live: bool, took: nat)
    | Failure(transient: bool, took: nat)

  // What the surroundings do at round n: whether the client was gone before it, during its
  // poll, how its poll goes, how long its progress notification takes and how late its sleep
  // returns.
  datatype Round = Round(goneBefore: bool, goneDuring: bool, poll: Poll, notifying: nat, late: nat)

  datatype Result =
    | Terminal(status: string, live: bool)
    | TimedOut(status: string, live: bool)
    | Disconnected
    | Failed                       // the last poll's own error
    | NothingObserved              // the budget elapsed before any status was seen

  datatype Progress = Progress(progress: nat, status: string)

  function ProgressFor(status: string): nat {
    if status == LIFECYCLE[0] then 1 else if status == LIFECYCLE[1] then 2 else if status == LIFECYCLE[2] then 3 else 4
  }

  // The statuses the first n polls observed.
  function Observed(world: nat -> Round, n: nat): seq<string> {
    if n == 0 then []
    else Observed(world, n - 1) + (if world(n - 1).poll.Snapshot? then [world(n - 1).poll.status] else [])
  }

  function Last(statuses: seq<string>): string { if statuses == [] then "" else statuses[|statuses|-1] }

  // The statuses that differ from the one before them, the first from none.
  function Changes(statuses: seq<string>): seq<string> {
    if statuses == [] then []
    else
      var front := statuses[..|statuses|-1];
      Changes(front) + (if statuses[|statuses|-1] != Last(front) then [statuses[|statuses|-1]] else [])
  }

  predicate IsTerminal(status: string) { status in TERMINAL_CHECKOUT_STATUSES }

  // A poll the loop goes on after: neither terminal nor a fatal error.
  predicate GoesOn(poll: Poll) { if poll.Snapshot? then !IsTerminal(poll.status) else poll.transient }

  // The liveness the last observed snapshot reported.
  function LastLive(world: nat -> Round, n: nat): bool {
    if n == 0 then false else if world(n - 1).poll.Snapshot? then world(n - 1).poll.live else LastLive(world, n - 1)
  }

  function Min(a: int, b: int): int { if a < b then a else b }

  function Notified(statuses: seq<string>): seq<Progress> {
    seq(|Changes(statuses)|, i requires 0 <= i < |Changes(statuses)| => Progress(ProgressFor(Changes(statuses)[i]), Changes(statuses)[i]))
  }

  lemma ObservedAgain(before: seq<string>, status: string)
    ensures Changes(before + [status]) == Changes(before) + (if status != Last(before) then [status] else [])
    ensures Last(before + [status]) == status
    ensures status == Last(before) ==> Notified(before + [status]) == Notified(before)
    ensures status != Last(before) ==> Notified(before + [status]) == Notified(before) + [Progress(ProgressFor(status), status)]
  {
    assert (before + [status])[..|before|] == before;
  }

  // Emits progress when the status differs from the last one.
  method Notice(status: string, lastStatus: string, progress: seq<Progress>, ghost before: seq<string>) returns (r: seq<Progress>)
    requires progress == Notified(before) && lastStatus == Last(before)
    ensures r == Notified(before + [status]) && Last(before + [status]) == status
  {
    ObservedAgain(before, status);
    r := if status != lastStatus then progress + [Progress(ProgressFor(status), status)] else progress;
  }

  // Sleeps one interval, or to the deadline if that is nearer.
  method Rest(now: int, deadline: int, intervalMs: nat, late: nat) returns (later: int)
    ensures later >= now && (later < deadline ==> later >= now + intervalMs)
    ensures later <= (if now < deadline then deadline else now) + late
  {
    later := if now < deadline then now + Min(intervalMs, deadline - now) + late else now;
  }

  // What a result says about the polls made: a terminal status is the last poll's; a timed-out
  // result carries the last observed status, which is neither empty nor terminal; an error is
  // the last poll's own, and one the loop could have ridden out only if nothing was observed.
  ghost predicate IsRight(world: nat -> Round, polls: nat, result: Result, end: int, deadline: int) {
    var seen := Last(Observed(world, polls));
    match result
    case Terminal(status, live) => polls > 0 && IsTerminal(status) && world(polls - 1).poll.Snapshot?
      && status == world(polls - 1).poll.status && live == world(polls - 1).poll.live
    case TimedOut(status, live) =>
      status == seen && status != "" && !IsTerminal(status) && live == LastLive(world, polls) && end >= deadline
    case NothingObserved => seen == "" && end >= deadline
    case Failed => polls > 0 && world(polls - 1).poll.Failure? && (world(polls - 1).poll.transient ==> seen == "" && end >= deadline)
    case Disconnected => polls > 0 ==> world(polls - 1).goneDuring || world(polls).goneBefore
  }

  // What the loop remembers of the first n polls.
  ghost predicate Remembers(world: nat -> Round, n: nat, lastStatus: string, isLive: bool) {
    lastStatus == Last(Observed(world, n)) && isLive == LastLive(world, n) && !IsTerminal(lastStatus)
  }

  // How far one round may run past the deadline it began before: its poll, its notification and
  // a late timer, but never another interval.
  function Overrun(round: Round): nat { round.poll.took + round.notifying + round.late }

  // How a wait may end on a round: exactly a terminal status makes a terminal result; an error is
  // the client's going away if it has, and a failure if it may not be ridden out.
  ghost predicate EndsRound(round: Round, result: Result) {
    match round.poll
    case Snapshot(status, _, _) => result.Terminal? <==> IsTerminal(status)
    case Failure(transient, _) => !result.Terminal? && if round.goneDuring then result == Disconnected else transient || result == Failed
  }

  // One turn of the loop from poll n on: a result, or a later time with the deadline still ahead.
  method Turn(world: nat -> Round, n: nat, start: int, deadline: int, intervalMs: nat,
              lastStatus: string, isLive: bool, progress: seq<Progress>)
    returns (result: Option<Result>, now: int, lastStatus': string, isLive': bool, progress': seq<Progress>)
    requires Remembers(world, n, lastStatus, isLive) && progress == Notified(Observed(world, n)) && start <= deadline
    ensures progress' == Notified(Observed(world, n + 1)) && start <= now <= deadline + Overrun(world(n))
    ensures result.Some? ==> IsRight(world, n + 1, result.value, now, deadline)
    ensures if result.Some? then EndsRound(world(n), result.value) else GoesOn(world(n).poll)
    ensures result.None? ==>
      && start + intervalMs <= now < deadline
      && Remembers(world, n + 1, lastStatus', isLive')
  {
    var round := world(n);
    now, lastStatus', isLive', progress' := start + round.poll.took, lastStatus, isLive, progress;
    match round.poll {
      case Failure(transient, _) =>
        assert Observed(world, n + 1) == Observed(world, n);
        if round.goneDuring { result := Some(Disconnected); return; }
        if !transient { result := Some(Failed); return; }
        now := Rest(now, deadline, intervalMs, round.late);
        if now >= deadline { result := Some(if lastStatus != "" then TimedOut(lastStatus, isLive) else Failed); return; }
      case Snapshot(status, live, _) =>
        progress' := Notice(status, lastStatus, progress, Observed(world, n));
        now := now + (if status != lastStatus then round.notifying else 0);
        lastStatus', isLive' := status, live;
        if IsTerminal(status) { result := Some(Terminal(status, live)); return; }
        now := Rest(now, deadline, intervalMs, round.late);
        if now >= deadline { result := Some(if status != "" then TimedOut(status, live) else NothingObserved); return; }
    }
    result := None;
  }

  // The statuses that end a wait, and the stage each status is reported as.
  lemma StatusesMean(status: string)
    ensures IsTerminal(status) <==> status == "completed" || status == "expired" || status == "cancelled"
    ensures ProgressFor("pending") == 1 && ProgressFor("processing") == 2 && ProgressFor("approved") == 3
    ensures status != "pending" && status != "processing" && status != "approved" ==> ProgressFor(status) == 4
  {
    assert |"pending"| == 7 && |"processing"| == 10 && |"approved"| == 8;
  }

  // The intervals that have passed when this many polls are over.
  ghost function Waited(polls: nat, intervalMs: nat): nat {
    if polls == 0 then 0 else Waited(polls - 1, intervalMs) + intervalMs
  }

  lemma {:induction false} WaitedIsProduct(polls: nat, intervalMs: nat)
    ensures Waited(polls, intervalMs) == polls * intervalMs
  {
    if polls > 0 { WaitedIsProduct(polls - 1, intervalMs); }
  }

  // How many polls a budget allows if each but the last is followed by an interval.
  lemma CeilingBound(polls: nat, timeoutMs: nat, intervalMs: nat)
    requires intervalMs >= 1
    ensures polls > 0 && Waited(polls - 1, intervalMs) < timeoutMs ==> polls <= (timeoutMs + intervalMs - 1) / intervalMs
    ensures timeoutMs > 0 <==> (timeoutMs + intervalMs - 1) / intervalMs >= 1
  {
    var q := (timeoutMs + intervalMs - 1) / intervalMs;
    if polls >= q + 1 {
      WaitedIsProduct(polls - 1, intervalMs);
      assert (polls - 1) * intervalMs >= q * intervalMs;
    }
  }

  // `start` is the clock when the wait begins; `timeoutMs` and `intervalMs` are its budget and
  // its polling interval.
  method RunWaitLoop(world: nat -> Round, start: int, timeoutMs: nat, intervalMs: nat)
    returns (result: Result, polls: nat, progress: seq<Progress>, end: int)
    requires intervalMs >= 1
    // Polls never outnumber the intervals in the budget; only an empty budget still buys one.
    ensures polls <= 1 || polls <= (timeoutMs + intervalMs - 1) / intervalMs
    ensures polls <= (timeoutMs + intervalMs - 1) / intervalMs <==> timeoutMs > 0 || world(0).goneBefore
    ensures polls == 0 <==> world(0).goneBefore
    ensures polls == 0 ==> result == Disconnected
    // It ends by its deadline, but for what the last round took.
    ensures end <= start + timeoutMs + (if polls == 0 then 0 else Overrun(world(polls - 1)))
    ensures IsRight(world, polls, result, end, start + timeoutMs)
    // No terminal status is passed over, and no fatal error.
    ensures forall n: nat :: n < polls - 1 ==> GoesOn(world(n).poll)
    // A terminal status ends the wait, and so does an error it cannot ride out.
    ensures polls > 0 ==> EndsRound(world(polls - 1), result) || (GoesOn(world(polls - 1).poll) && result == Disconnected)
    // Progress is emitted exactly at status changes.
    ensures progress == Notified(Observed(world, polls))
  {
    var deadline := start + timeoutMs;
    var lastStatus, isLive := "", false;
    polls, progress, end := 0, [], start;
    while true
      invariant end >= start && (if polls == 0 then end == start else !world(0).goneBefore)
      invariant polls > 0 ==> start + Waited(polls, intervalMs) <= end < deadline
      invariant Remembers(world, polls, lastStatus, isLive)
      invariant progress == Notified(Observed(world, polls))
      invariant forall n: nat :: n < polls ==> GoesOn(world(n).poll)
      decreases deadline - end
    {
      CeilingBound(polls, timeoutMs, intervalMs);
      if world(polls).goneBefore { return Disconnected, polls, progress, end; }
      var turn;
      turn, end, lastStatus, isLive, progress := Turn(world, polls, end, deadline, intervalMs, lastStatus, isLive, progress);
      polls := polls + 1;
      CeilingBound(polls, timeoutMs, intervalMs);
      if turn.Some? { return turn.value, polls, progress, end; }
    }
  }
}
