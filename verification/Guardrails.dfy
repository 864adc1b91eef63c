// The spending choke point (src/wallet-engine/guardrails/guardrails.ts and the sections of
// src/wallet-engine/wallet.ts that go through it): enforce, sign, record, broadcast under one
// operation mutex, with the recorded window kept in an authenticated file whose epoch must
// match a monotonic anchor. Files may be deleted, corrupted or rolled back and the process may
// crash between any two steps.
module Guardrails {
  import opened Options

  const WINDOW_MS: int := 24 * 60 * 60 * 1000

  datatype Entry = Entry(ts: int, cents: int)

  datatype Limits = Limits(perTx: int, daily: nat)

  // The state file: absent, unreadable, or the entries sealed with this epoch.
  datatype File = Absent | Corrupt | Good(epoch: nat, entries: seq<Entry>)

  // One send, sendMany, Boltz lockup or withdrawal of this value.
  type OpId = nat

  datatype Stage =
    | Waiting(cents: int)
    | Entered(cents: int)                                // holds the operation mutex
    | Allowed(cents: int)                                // enforced; builds and signs
    | Advanced(cents: int, entries: seq<Entry>)          // anchor advanced, file not yet written
    | Recorded(cents: int)
    | Finished

  datatype Event = DidEnforce(op: OpId, cents: int) | DidRecord(op: OpId, cents: int) | DidBroadcast(op: OpId)

  // `sealed` holds, per epoch, the entries ever sealed with it; `history` every recorded spend.
  datatype State = State(
    clock: int, initialized: bool, anchor: nat, file: File, ops: map<OpId, Stage>, holder: Option<OpId>,
    sealed: map<nat, seq<Entry>>, history: seq<Entry>, log: seq<Event>)

  // ----- reading the window ------------------------------------------------------------------------

  datatype Window = Full | Open(entries: seq<Entry>)

  function Kept(entries: seq<Entry>, now: int): seq<Entry> {
    if entries == [] then []
    else
      var last := entries[|entries|-1];
      Kept(entries[..|entries|-1], now) + (if now - last.ts <= WINDOW_MS then [last] else [])
  }

  function Total(entries: seq<Entry>): int {
    if entries == [] then 0 else Total(entries[..|entries|-1]) + entries[|entries|-1].cents
  }

  // Fail-closed: once anything was ever recorded, only the file sealed with the anchor's own
  // epoch is believed.
  function LoadWindow(s: State): Window {
    match s.file
    case Absent => if s.initialized then Full else Open([])
    case Corrupt => if s.initialized then Full else Open([])
    case Good(epoch, entries) =>
      if epoch != s.anchor then (if s.initialized then Full else Open([]))
      else Open(Kept(entries, s.clock))
  }

  predicate Enforce(limits: Limits, window: Window, cents: int) {
    && cents > 0
    && cents <= limits.perTx
    && window.Open?
    && Total(window.entries) + cents <= limits.daily
  }

  // ----- steps -----------------------------------------------------------------------------------------

  datatype Action =
    | Begin(op: OpId, cents: int)
    | Enter(op: OpId)            // acquires the mutex
    | Check(op: OpId)            // enforce
    | Advance(op: OpId)          // signed; recordSpend loads the window and advances the anchor
    | Write(op: OpId)            // recordSpend writes the file
    | Send(op: OpId)             // broadcast, then the section ends
    | Throw(op: OpId)            // any failure ends the section
    | Tick(ms: nat)
    | Crash
    | Delete
    | Damage
    | Replay(epoch: nat)         // an earlier file is put back

  const INITIAL: State := State(0, false, 0, Absent, map[], None, map[], [], [])

  predicate CanAct(s: State, a: Action) {
    match a
    case Begin(op, _) => op !in s.ops
    case Enter(op) => op in s.ops && s.ops[op].Waiting? && s.holder.None?
    case Check(op) => op in s.ops && s.ops[op].Entered?
    case Advance(op) => op in s.ops && s.ops[op].Allowed? && LoadWindow(s).Open?
    case Write(op) => op in s.ops && s.ops[op].Advanced?
    case Send(op) => op in s.ops && s.ops[op].Recorded?
    case Throw(op) => op in s.ops
    case Replay(epoch) => epoch in s.sealed
    case _ => true
  }

  function At(s: State, op: OpId, stage: Stage): State { s.(ops := s.ops[op := stage]) }

  // The section of `op` is over; the mutex is free if it held it.
  function Leave(s: State, op: OpId): State {
    At(s, op, Finished).(holder := if s.holder == Some(op) then None else s.holder)
  }

  function Act(limits: Limits, s: State, a: Action): State
    requires CanAct(s, a)
  {
    match a
    case Begin(op, cents) => At(s, op, Waiting(cents))
    case Enter(op) => At(s, op, Entered(s.ops[op].cents)).(holder := Some(op))
    case Check(op) =>
      var cents := s.ops[op].cents;
      if Enforce(limits, LoadWindow(s), cents) then At(s, op, Allowed(cents)).(log := s.log + [DidEnforce(op, cents)])
      else Leave(s, op)
    case Advance(op) =>
      var cents := s.ops[op].cents;
      At(s, op, Advanced(cents, LoadWindow(s).entries + [Entry(s.clock, cents)])).(initialized := true, anchor := s.anchor + 1)
    case Write(op) =>
      var cents, entries := s.ops[op].cents, s.ops[op].entries;
      At(s, op, Recorded(cents)).(
        file := Good(s.anchor, entries), sealed := s.sealed[s.anchor := entries],
        history := s.history + (if entries == [] then [] else [entries[|entries|-1]]), log := s.log + [DidRecord(op, cents)])
    case Send(op) => Leave(s, op).(log := s.log + [DidBroadcast(op)])
    case Throw(op) => Leave(s, op)
    case Tick(ms) => s.(clock := s.clock + ms)
    case Crash => s.(ops := map op | op in s.ops :: Finished, holder := None)
    case Delete => s.(file := Absent)
    case Damage => s.(file := Corrupt)
    case Replay(epoch) => s.(file := Good(epoch, s.sealed[epoch]))
  }

  // ----- rolling windows ----------------------------------------------------------------------------

  // What was recorded in the 24 hours that end at x.
  function WindowSum(history: seq<Entry>, x: int): int {
    if history == [] then 0
    else
      var last := history[|history|-1];
      WindowSum(history[..|history|-1], x) + (if x - 86_400_000 <= last.ts <= x then last.cents else 0)
  }

  ghost predicate Chronological(history: seq<Entry>, clock: int) {
    && (forall i, j :: 0 <= i < j < |history| ==> history[i].ts <= history[j].ts)
    && (forall i :: 0 <= i < |history| ==> history[i].ts <= clock && history[i].cents > 0)
  }

  // A window that ends later than every entry holds no more than one that ends earlier but
  // also after every entry.
  lemma {:induction false} LaterWindowHoldsLess(history: seq<Entry>, clock: int, x: int)
    requires Chronological(history, clock) && clock <= x
    ensures WindowSum(history, x) <= WindowSum(history, clock)
  {
    if history != [] {
      LaterWindowHoldsLess(history[..|history|-1], clock, x);
    }
  }

  // `entries` stands for `history` as far as the current and every later window goes.
  ghost predicate Represents(entries: seq<Entry>, history: seq<Entry>, clock: int) {
    Kept(entries, clock) == Kept(history, clock)
  }

  lemma KeptSnoc(entries: seq<Entry>, e: Entry, now: int)
    ensures Kept(entries + [e], now) == Kept(entries, now) + (if now - e.ts <= WINDOW_MS then [e] else [])
  {
    assert (entries + [e])[..|entries|] == entries;
  }

  lemma {:induction false} KeptAgain(entries: seq<Entry>, now: int, later: int)
    requires now <= later
    ensures Kept(Kept(entries, now), later) == Kept(entries, later)
  {
    if entries != [] {
      var front, last := entries[..|entries|-1], entries[|entries|-1];
      KeptAgain(front, now, later);
      if now - last.ts <= WINDOW_MS {
        KeptSnoc(Kept(front, now), last, later);
      } else {
        assert Kept(entries, now) == Kept(front, now) && Kept(entries, later) == Kept(front, later);
      }
    }
  }

  lemma StillRepresents(entries: seq<Entry>, history: seq<Entry>, now: int, later: int)
    requires Represents(entries, history, now) && now <= later
    ensures Represents(entries, history, later)
  {
    KeptAgain(entries, now, later);
    KeptAgain(history, now, later);
  }

  // Pruning and appending on the file is appending to the history.
  lemma AppendRepresents(history: seq<Entry>, e: Entry, now: int)
    ensures Represents(Kept(history, now) + [e], history + [e], now)
  {
    KeptAgain(history, now, now);
    KeptSnoc(Kept(history, now), e, now);
    KeptSnoc(history, e, now);
  }

  lemma {:induction false} KeptTotal(history: seq<Entry>, clock: int)
    requires Chronological(history, clock)
    ensures Total(Kept(history, clock)) == WindowSum(history, clock)
  {
    if history != [] {
      var front, last := history[..|history|-1], history[|history|-1];
      KeptTotal(front, clock);
      assert (Kept(front, clock) + [last])[..|Kept(front, clock)|] == Kept(front, clock);
      assert clock - last.ts > WINDOW_MS ==> Kept(history, clock) == Kept(front, clock);
    }
  }

  ghost predicate WithinLimits(limits: Limits, history: seq<Entry>) {
    && (forall x :: WindowSum(history, x) <= limits.daily)
    && (forall i :: 0 <= i < |history| ==> history[i].cents <= limits.perTx)
  }

  // A spend that fits the window ending now fits every window.
  lemma AppendWithinLimits(limits: Limits, history: seq<Entry>, e: Entry)
    requires Chronological(history, e.ts) && WithinLimits(limits, history) && 0 < e.cents <= limits.perTx
    requires WindowSum(history, e.ts) + e.cents <= limits.daily
    ensures WithinLimits(limits, history + [e]) && Chronological(history + [e], e.ts)
  {
    var h := history + [e];
    assert h[..|h|-1] == history;
    forall x ensures WindowSum(h, x) <= limits.daily {
      if x >= e.ts { LaterWindowHoldsLess(history, e.ts, x); }
      assert WindowSum(history, x) <= limits.daily;
    }
  }

  // ----- what every action keeps ---------------------------------------------------------------------

  ghost predicate FileOk(s: State) {
    && (s.file.Good? ==> s.file.epoch in s.sealed && s.sealed[s.file.epoch] == s.file.entries)
    && (forall epoch :: epoch in s.sealed ==> epoch <= s.anchor)
    && (s.anchor in s.sealed ==> Represents(s.sealed[s.anchor], s.history, s.clock))
    && (!s.initialized ==> s.anchor == 0 && s.history == [] && s.sealed == map[])
  }

  // The operation has so far only been enforced; it has so far not been broadcast.
  ghost predicate OnlyEnforced(log: seq<Event>, op: OpId) {
    forall n :: 0 <= n < |log| && log[n].op == op ==> log[n].DidEnforce?
  }

  ghost predicate Unsent(log: seq<Event>, op: OpId) {
    forall n :: 0 <= n < |log| && log[n].op == op ==> !log[n].DidBroadcast?
  }

  // What precedes an event: its operation records once, a value it was enforced for, and
  // broadcasts once, after its record.
  ghost predicate InTurn(before: seq<Event>, e: Event) {
    match e
    case DidEnforce(_, _) => true
    case DidRecord(op, cents) => DidEnforce(op, cents) in before && OnlyEnforced(before, op)
    case DidBroadcast(op) => (exists m :: 0 <= m < |before| && before[m].DidRecord? && before[m].op == op) && Unsent(before, op)
  }

  ghost predicate LogOk(log: seq<Event>) {
    forall n :: 0 <= n < |log| ==> InTurn(log[..n], log[n])
  }

  // The values recorded, in order, and the values of the history's entries.
  function Recordings(log: seq<Event>): seq<int> {
    if log == [] then []
    else
      var last := log[|log|-1];
      Recordings(log[..|log|-1]) + (if last.DidRecord? then [last.cents] else [])
  }

  function Values(history: seq<Entry>): seq<int> { seq(|history|, i requires 0 <= i < |history| => history[i].cents) }

  lemma RecordingsSnoc(log: seq<Event>, e: Event)
    ensures Recordings(log + [e]) == Recordings(log) + (if e.DidRecord? then [e.cents] else [])
  {
    assert (log + [e])[..|log|] == log;
  }

  lemma {:induction false} RecordedIsListed(log: seq<Event>, n: nat)
    requires n < |log| && log[n].DidRecord?
    ensures log[n].cents in Recordings(log)
  {
    if n < |log| - 1 { RecordedIsListed(log[..|log|-1], n); }
  }

  ghost predicate OpOk(limits: Limits, s: State, op: OpId)
    requires op in s.ops
  {
    match s.ops[op]
    case Waiting(_) => s.holder != Some(op) && OnlyEnforced(s.log, op)
    case Finished => s.holder != Some(op)
    case Entered(_) => s.holder == Some(op) && OnlyEnforced(s.log, op)
    case Allowed(cents) =>
      && s.holder == Some(op) && 0 < cents <= limits.perTx && WindowSum(s.history, s.clock) + cents <= limits.daily
      && DidEnforce(op, cents) in s.log && OnlyEnforced(s.log, op)
    case Advanced(cents, entries) =>
      && s.holder == Some(op) && s.initialized && s.anchor !in s.sealed
      && DidEnforce(op, cents) in s.log && OnlyEnforced(s.log, op)
      && entries != []
      && var e := entries[|entries|-1];
         && e.cents == cents && e.ts <= s.clock
         && Represents(entries, s.history + [e], s.clock)
         && Chronological(s.history + [e], s.clock) && WithinLimits(limits, s.history + [e])
    case Recorded(cents) => s.holder == Some(op) && DidRecord(op, cents) in s.log && Unsent(s.log, op)
  }

  // The log is in order, names operations that exist, and its records are the history.
  ghost predicate LogMatches(log: seq<Event>, history: seq<Entry>, ops: set<OpId>) {
    && LogOk(log) && Recordings(log) == Values(history)
    && forall n :: 0 <= n < |log| ==> log[n].op in ops
  }

  // The log is as it was, or has one more event of this operation.
  ghost predicate Continues(log: seq<Event>, log': seq<Event>, op: OpId) {
    log' == log || (|log'| == |log| + 1 && log'[..|log|] == log && log'[|log|].op == op)
  }

  lemma WaitingGoesOn(limits: Limits, s: State, s': State, op: OpId, o: OpId)
    requires o in s.ops && OpOk(limits, s, o) && o in s'.ops && o != op && s'.ops[o] == s.ops[o]
    requires s.holder == Some(op) && (s'.holder.None? || s'.holder == Some(op)) && Continues(s.log, s'.log, op)
    ensures OpOk(limits, s', o)
  {
  }

  ghost predicate Inv(limits: Limits, s: State) {
    && Chronological(s.history, s.clock) && WithinLimits(limits, s.history)
    && FileOk(s) && LogMatches(s.log, s.history, s.ops.Keys)
    && (forall op :: op in s.ops ==> OpOk(limits, s, op))
    && (s.holder.Some? ==> s.holder.value in s.ops)
  }

  // What a section may do to the rest of the state while it holds the mutex: whatever another
  // operation is waiting for stays as it was.
  lemma OthersWait(limits: Limits, s: State, s': State, op: OpId)
    requires Inv(limits, s) && s.holder == Some(op) && op in s.ops && op in s'.ops
    requires s'.ops.Keys == s.ops.Keys && forall o :: o in s.ops && o != op ==> s'.ops[o] == s.ops[o]
    requires s'.holder.None? || s'.holder == Some(op)
    requires OpOk(limits, s', op) && Continues(s.log, s'.log, op)
    ensures forall o :: o in s'.ops ==> OpOk(limits, s', o)
  {
    forall o | o in s'.ops ensures OpOk(limits, s', o) {
      if o != op { WaitingGoesOn(limits, s, s', op, o); }
    }
  }

  lemma LogGrows(log: seq<Event>, e: Event)
    requires LogOk(log) && InTurn(log, e)
    ensures LogOk(log + [e]) && Recordings(log + [e]) == Recordings(log) + (if e.DidRecord? then [e.cents] else [])
  {
    RecordingsSnoc(log, e);
    forall n | 0 <= n < |log + [e]| ensures InTurn((log + [e])[..n], (log + [e])[n]) {
      if n < |log| { assert (log + [e])[..n] == log[..n]; } else { assert (log + [e])[..n] == log; }
    }
  }

  lemma MatchGrows(log: seq<Event>, history: seq<Entry>, history': seq<Entry>, ops: set<OpId>, e: Event)
    requires LogMatches(log, history, ops) && InTurn(log, e) && e.op in ops
    requires Values(history') == Values(history) + (if e.DidRecord? then [e.cents] else [])
    ensures LogMatches(log + [e], history', ops) && Continues(log, log + [e], e.op)
  {
    LogGrows(log, e);
    assert (log + [e])[..|log|] == log;
  }

  lemma LastEvent(log: seq<Event>, e: Event)
    ensures e in log + [e]
    ensures e.DidEnforce? && OnlyEnforced(log, e.op) ==> OnlyEnforced(log + [e], e.op)
    ensures e.DidRecord? && OnlyEnforced(log, e.op) ==> Unsent(log + [e], e.op)
  {
    assert (log + [e])[|log|] == e;
  }

  // An open window is the history's.
  lemma OpenWindow(s: State)
    requires FileOk(s) && Chronological(s.history, s.clock) && LoadWindow(s).Open?
    ensures LoadWindow(s).entries == Kept(s.history, s.clock)
    ensures Total(LoadWindow(s).entries) == WindowSum(s.history, s.clock)
  {
    KeptTotal(s.history, s.clock);
  }

  lemma AllowedStep(limits: Limits, s: State, op: OpId)
    requires CanAct(s, Check(op)) && Enforce(limits, LoadWindow(s), s.ops[op].cents)
    requires Chronological(s.history, s.clock) && FileOk(s)
    ensures
      var cents := s.ops[op].cents;
      && Act(limits, s, Check(op)) == s.(ops := s.ops[op := Allowed(cents)], log := s.log + [DidEnforce(op, cents)])
      && 0 < cents <= limits.perTx && WindowSum(s.history, s.clock) + cents <= limits.daily
  {
    OpenWindow(s);
  }

  lemma AllowedOk(limits: Limits, s: State, op: OpId, s': State)
    requires op in s.ops && s.ops[op].Entered? && OpOk(limits, s, op)
    requires var cents := s.ops[op].cents; 0 < cents <= limits.perTx && WindowSum(s.history, s.clock) + cents <= limits.daily
    requires s' == s.(ops := s.ops[op := Allowed(s.ops[op].cents)], log := s.log + [DidEnforce(op, s.ops[op].cents)])
    ensures OpOk(limits, s', op)
  {
    LastEvent(s.log, DidEnforce(op, s.ops[op].cents));
  }

  lemma AllowedLog(limits: Limits, s: State, op: OpId, cents: int, s': State)
    requires LogMatches(s.log, s.history, s.ops.Keys) && op in s.ops
    requires s' == s.(ops := s.ops[op := Allowed(cents)], log := s.log + [DidEnforce(op, cents)])
    ensures LogMatches(s'.log, s'.history, s'.ops.Keys) && Continues(s.log, s'.log, op)
    ensures s'.ops.Keys == s.ops.Keys && forall o :: o in s.ops && o != op ==> s'.ops[o] == s.ops[o]
  {
    MatchGrows(s.log, s.history, s.history, s.ops.Keys, DidEnforce(op, cents));
    assert s'.ops.Keys == s.ops.Keys;
  }

  lemma AllowedKeeps(limits: Limits, s: State, op: OpId)
    requires Inv(limits, s) && CanAct(s, Check(op)) && Enforce(limits, LoadWindow(s), s.ops[op].cents)
    ensures Inv(limits, Act(limits, s, Check(op)))
  {
    assert OpOk(limits, s, op);
    var s' := Act(limits, s, Check(op));
    AllowedStep(limits, s, op);
    AllowedOk(limits, s, op, s');
    AllowedLog(limits, s, op, s.ops[op].cents, s');
    OthersWait(limits, s, s', op);
  }

  lemma RefusedKeeps(limits: Limits, s: State, op: OpId)
    requires Inv(limits, s) && CanAct(s, Check(op)) && !Enforce(limits, LoadWindow(s), s.ops[op].cents)
    ensures Inv(limits, Act(limits, s, Check(op)))
  {
    assert OpOk(limits, s, op);
    var s' := s.(ops := s.ops[op := Finished], holder := None);
    assert s'.ops.Keys == s.ops.Keys;
    OthersWait(limits, s, s', op);
    assert Act(limits, s, Check(op)) == s';
  }

  lemma CheckKeeps(limits: Limits, s: State, op: OpId)
    requires Inv(limits, s) && CanAct(s, Check(op))
    ensures Inv(limits, Act(limits, s, Check(op)))
  {
    if Enforce(limits, LoadWindow(s), s.ops[op].cents) { AllowedKeeps(limits, s, op); } else { RefusedKeeps(limits, s, op); }
  }

  lemma AdvancedOk(limits: Limits, s: State, op: OpId)
    requires Chronological(s.history, s.clock) && WithinLimits(limits, s.history) && FileOk(s)
    requires CanAct(s, Advance(op)) && OpOk(limits, s, op)
    ensures OpOk(limits, Act(limits, s, Advance(op)), op)
  {
    var e := Entry(s.clock, s.ops[op].cents);
    OpenWindow(s);
    AppendRepresents(s.history, e, s.clock);
    AppendWithinLimits(limits, s.history, e);
  }

  lemma AdvanceFrame(limits: Limits, s: State, op: OpId)
    requires CanAct(s, Advance(op)) && FileOk(s)
    ensures
      var s' := Act(limits, s, Advance(op));
      && FileOk(s') && s'.history == s.history && s'.clock == s.clock && s'.log == s.log && s'.holder == s.holder
      && s'.ops.Keys == s.ops.Keys && forall o :: o in s.ops && o != op ==> s'.ops[o] == s.ops[o]
  {
  }

  lemma AdvanceKeeps(limits: Limits, s: State, op: OpId)
    requires Inv(limits, s) && CanAct(s, Advance(op))
    ensures Inv(limits, Act(limits, s, Advance(op)))
  {
    assert OpOk(limits, s, op);
    AdvancedOk(limits, s, op);
    AdvanceFrame(limits, s, op);
    OthersWait(limits, s, Act(limits, s, Advance(op)), op);
  }

  lemma WriteFrame(limits: Limits, s: State, op: OpId)
    requires CanAct(s, Write(op)) && FileOk(s) && OpOk(limits, s, op)
    ensures
      var s' := Act(limits, s, Write(op));
      && FileOk(s') && s'.clock == s.clock && s'.holder == s.holder
      && Chronological(s'.history, s'.clock) && WithinLimits(limits, s'.history)
      && s'.ops.Keys == s.ops.Keys && forall o :: o in s.ops && o != op ==> s'.ops[o] == s.ops[o]
  {
  }

  lemma RecordGrows(log: seq<Event>, history: seq<Entry>, ops: set<OpId>, op: OpId, e: Entry)
    requires LogMatches(log, history, ops) && InTurn(log, DidRecord(op, e.cents)) && op in ops
    ensures LogMatches(log + [DidRecord(op, e.cents)], history + [e], ops)
    ensures Continues(log, log + [DidRecord(op, e.cents)], op)
  {
    assert Values(history + [e]) == Values(history) + [e.cents];
    MatchGrows(log, history, history + [e], ops, DidRecord(op, e.cents));
  }

  // What a section whose file is about to be written will record.
  lemma WriteStep(limits: Limits, s: State, op: OpId) returns (e: Entry)
    requires CanAct(s, Write(op)) && OpOk(limits, s, op)
    ensures InTurn(s.log, DidRecord(op, e.cents))
    ensures
      var s' := Act(limits, s, Write(op));
      s'.log == s.log + [DidRecord(op, e.cents)] && s'.history == s.history + [e]
  {
    e := s.ops[op].entries[|s.ops[op].entries|-1];
  }

  lemma WriteLogs(limits: Limits, s: State, op: OpId)
    requires CanAct(s, Write(op)) && LogMatches(s.log, s.history, s.ops.Keys) && OpOk(limits, s, op)
    ensures
      var s' := Act(limits, s, Write(op));
      LogMatches(s'.log, s'.history, s.ops.Keys) && Continues(s.log, s'.log, op)
  {
    var e := WriteStep(limits, s, op);
    RecordGrows(s.log, s.history, s.ops.Keys, op, e);
  }

  lemma RecordedOk(limits: Limits, s: State, op: OpId)
    requires CanAct(s, Write(op)) && OpOk(limits, s, op)
    ensures OpOk(limits, Act(limits, s, Write(op)), op)
  {
    LastEvent(s.log, DidRecord(op, s.ops[op].cents));
  }

  lemma WriteKeeps(limits: Limits, s: State, op: OpId)
    requires Inv(limits, s) && CanAct(s, Write(op))
    ensures Inv(limits, Act(limits, s, Write(op)))
  {
    assert OpOk(limits, s, op);
    WriteFrame(limits, s, op);
    WriteLogs(limits, s, op);
    RecordedOk(limits, s, op);
    OthersWait(limits, s, Act(limits, s, Write(op)), op);
  }

  lemma SendInTurn(limits: Limits, s: State, op: OpId)
    requires CanAct(s, Send(op)) && OpOk(limits, s, op)
    ensures InTurn(s.log, DidBroadcast(op))
  {
    var m :| 0 <= m < |s.log| && s.log[m] == DidRecord(op, s.ops[op].cents);
  }

  lemma SendLog(limits: Limits, s: State, op: OpId, s': State)
    requires LogMatches(s.log, s.history, s.ops.Keys) && CanAct(s, Send(op)) && OpOk(limits, s, op)
    requires s' == s.(ops := s.ops[op := Finished], holder := None, log := s.log + [DidBroadcast(op)])
    ensures LogMatches(s'.log, s'.history, s'.ops.Keys) && Continues(s.log, s'.log, op)
    ensures s'.ops.Keys == s.ops.Keys && forall o :: o in s.ops && o != op ==> s'.ops[o] == s.ops[o]
  {
    SendInTurn(limits, s, op);
    MatchGrows(s.log, s.history, s.history, s.ops.Keys, DidBroadcast(op));
    assert s'.ops.Keys == s.ops.Keys;
  }

  lemma SendStep(limits: Limits, s: State, op: OpId)
    requires CanAct(s, Send(op)) && s.holder == Some(op)
    ensures Act(limits, s, Send(op)) == s.(ops := s.ops[op := Finished], holder := None, log := s.log + [DidBroadcast(op)])
  {
  }

  lemma SendKeeps(limits: Limits, s: State, op: OpId)
    requires Inv(limits, s) && CanAct(s, Send(op))
    ensures Inv(limits, Act(limits, s, Send(op)))
  {
    assert OpOk(limits, s, op);
    var s' := Act(limits, s, Send(op));
    SendStep(limits, s, op);
    SendLog(limits, s, op, s');
    OthersWait(limits, s, s', op);
  }

  lemma TickAdvanced(limits: Limits, s: State, s': State, op: OpId)
    requires s' == s.(clock := s'.clock) && s.clock <= s'.clock && op in s.ops && s.ops[op].Advanced? && OpOk(limits, s, op)
    ensures OpOk(limits, s', op)
  {
    var entries := s.ops[op].entries;
    StillRepresents(entries, s.history + [entries[|entries|-1]], s.clock, s'.clock);
  }

  lemma TickOp(limits: Limits, s: State, s': State, op: OpId)
    requires s' == s.(clock := s'.clock) && s.clock <= s'.clock && op in s.ops && OpOk(limits, s, op)
    requires Chronological(s.history, s.clock)
    ensures OpOk(limits, s', op)
  {
    if s.ops[op].Advanced? { TickAdvanced(limits, s, s', op); } else { LaterWindowHoldsLess(s.history, s.clock, s'.clock); }
  }

  lemma TickKeeps(limits: Limits, s: State, ms: nat)
    requires Inv(limits, s)
    ensures Inv(limits, Act(limits, s, Tick(ms)))
  {
    var s' := Act(limits, s, Tick(ms));
    if s.anchor in s.sealed { StillRepresents(s.sealed[s.anchor], s.history, s.clock, s'.clock); }
    forall op | op in s'.ops ensures OpOk(limits, s', op) {
      TickOp(limits, s, s', op);
    }
  }

  lemma WaitKeeps(limits: Limits, s: State, a: Action)
    requires Inv(limits, s) && CanAct(s, a) && (a.Begin? || a.Enter? || a.Throw?)
    ensures Inv(limits, Act(limits, s, a))
  {
    var s' := Act(limits, s, a);
    forall o | o in s'.ops ensures OpOk(limits, s', o) {
      if o in s.ops { WaitOp(limits, s, a, o); }
    }
    assert s'.holder.Some? ==> s'.holder.value in s'.ops;
  }

  lemma WaitOp(limits: Limits, s: State, a: Action, o: OpId)
    requires Inv(limits, s) && CanAct(s, a) && (a.Begin? || a.Enter? || a.Throw?) && o in s.ops
    ensures o in Act(limits, s, a).ops && OpOk(limits, Act(limits, s, a), o)
  {
    assert OpOk(limits, s, o);
    if !a.Begin? { assert OpOk(limits, s, a.op); }
  }

  lemma CrashKeeps(limits: Limits, s: State)
    requires Inv(limits, s)
    ensures Inv(limits, Act(limits, s, Crash))
  {
    var s' := Act(limits, s, Crash);
    assert s' == s.(ops := s'.ops, holder := None) && s'.ops.Keys == s.ops.Keys;
    forall o | o in s'.ops ensures OpOk(limits, s', o) {
      assert s'.ops[o] == Finished;
    }
  }

  lemma FilesOp(limits: Limits, s: State, file: File, o: OpId)
    requires o in s.ops && OpOk(limits, s, o)
    ensures OpOk(limits, s.(file := file), o)
  {
  }

  lemma FilesKeep(limits: Limits, s: State, a: Action)
    requires Inv(limits, s) && CanAct(s, a) && (a.Delete? || a.Damage? || a.Replay?)
    ensures Inv(limits, Act(limits, s, a))
  {
    var s' := Act(limits, s, a);
    assert s' == s.(file := s'.file);
    forall o | o in s'.ops ensures OpOk(limits, s', o) {
      FilesOp(limits, s, s'.file, o);
    }
  }

  lemma ActKeeps(limits: Limits, s: State, a: Action)
    requires Inv(limits, s) && CanAct(s, a)
    ensures Inv(limits, Act(limits, s, a))
  {
    match a
    case Check(op) => CheckKeeps(limits, s, op);
    case Advance(op) => AdvanceKeeps(limits, s, op);
    case Write(op) => WriteKeeps(limits, s, op);
    case Send(op) => SendKeeps(limits, s, op);
    case Tick(ms) => TickKeeps(limits, s, ms);
    case Begin(_, _) => WaitKeeps(limits, s, a);
    case Enter(_) => WaitKeeps(limits, s, a);
    case Throw(_) => WaitKeeps(limits, s, a);
    case Crash => CrashKeeps(limits, s);
    case _ => FilesKeep(limits, s, a);
  }

  // ----- runs -----------------------------------------------------------------------------------------

  datatype Trace = Trace(states: seq<State>, actions: seq<Action>)

  ghost predicate IsTrace(limits: Limits, t: Trace) {
    && |t.states| == |t.actions| + 1
    && t.states[0] == INITIAL
    && forall i :: 0 <= i < |t.actions| ==>
         CanAct(t.states[i], t.actions[i]) && t.states[i+1] == Act(limits, t.states[i], t.actions[i])
  }

  lemma {:induction false} EveryStateIsInvariant(limits: Limits, t: Trace, k: nat)
    requires IsTrace(limits, t) && k < |t.states|
    ensures Inv(limits, t.states[k])
  {
    if k > 0 {
      EveryStateIsInvariant(limits, t, k - 1);
      ActKeeps(limits, t.states[k-1], t.actions[k-1]);
    }
  }

  // Before event n the operation recorded its value, which is that of an entry of the history.
  ghost predicate IsEntered(s: State, op: OpId, n: nat)
    requires n < |s.log|
  {
    exists m, i :: 0 <= m < n && 0 <= i < |s.history| && s.log[m] == DidRecord(op, s.history[i].cents)
  }

  // Over any interleaving of operations, crashes and file attacks, what was ever recorded in
  // any rolling 24 hours is within the daily limit and no single spend is above its limit;
  // those entries are what the operations recorded, each at most once; and whatever was
  // broadcast was before that enforced and then recorded, as an entry of this history.
  lemma SpendStaysWithinLimits(limits: Limits, t: Trace, k: nat, x: int)
    requires IsTrace(limits, t) && k < |t.states|
    ensures WindowSum(t.states[k].history, x) <= limits.daily
    ensures forall i :: 0 <= i < |t.states[k].history| ==> 0 < t.states[k].history[i].cents <= limits.perTx
    ensures LogOk(t.states[k].log) && Recordings(t.states[k].log) == Values(t.states[k].history)
    ensures forall n :: 0 <= n < |t.states[k].log| && t.states[k].log[n].DidBroadcast? ==>
      IsEntered(t.states[k], t.states[k].log[n].op, n)
  {
    EveryStateIsInvariant(limits, t, k);
    var s := t.states[k];
    forall n | 0 <= n < |s.log| && s.log[n].DidBroadcast? ensures IsEntered(s, s.log[n].op, n) {
      assert InTurn(s.log[..n], s.log[n]);
      var m :| 0 <= m < n && s.log[..n][m].DidRecord? && s.log[..n][m].op == s.log[n].op;
      RecordedIsListed(s.log, m);
      var i :| 0 <= i < |Values(s.history)| && Values(s.history)[i] == s.log[m].cents;
      assert s.history[i].cents == s.log[m].cents;
    }
  }

  // At most one operation is past its admission to the choke point.
  lemma SectionsExclude(limits: Limits, t: Trace, k: nat, p: OpId, q: OpId)
    requires IsTrace(limits, t) && k < |t.states| && p in t.states[k].ops && q in t.states[k].ops && p != q
    ensures t.states[k].ops[p].Waiting? || t.states[k].ops[p].Finished? || t.states[k].ops[q].Waiting? || t.states[k].ops[q].Finished?
  {
    EveryStateIsInvariant(limits, t, k);
    assert OpOk(limits, t.states[k], p) && OpOk(limits, t.states[k], q);
  }

  // In every reachable state enforcement admits exactly the positive amounts within the limit of
  // one spend that the daily limit leaves room for in the true history; and once anything was
  // ever recorded, only while the newest file is in place: a missing, damaged or rolled-back one
  // lets nothing through. A wallet that never recorded anything needs no file.
  lemma OnlyTheNewestFileIsBelieved(limits: Limits, t: Trace, k: nat)
    requires IsTrace(limits, t) && k < |t.states|
    ensures
      var s := t.states[k];
      forall cents :: Enforce(limits, LoadWindow(s), cents) <==>
        && 0 < cents <= limits.perTx && WindowSum(s.history, s.clock) + cents <= limits.daily
        && (s.initialized ==> s.file.Good? && s.file.epoch == s.anchor)
    ensures !t.states[k].initialized ==> t.states[k].history == []
  {
    EveryStateIsInvariant(limits, t, k);
    if LoadWindow(t.states[k]).Open? { OpenWindow(t.states[k]); }
  }

  // A spend of this operation from its request to its broadcast.
  ghost predicate SpendsIn(limits: Limits, s: State, op: OpId, cents: int, s': State) {
    && CanAct(s, Begin(op, cents))
    && var s1 := Act(limits, s, Begin(op, cents));
       CanAct(s1, Enter(op))
       && var s2 := Act(limits, s1, Enter(op));
          CanAct(s2, Check(op))
          && var s3 := Act(limits, s2, Check(op));
             CanAct(s3, Advance(op))
             && var s4 := Act(limits, s3, Advance(op));
                CanAct(s4, Write(op))
                && var s5 := Act(limits, s4, Write(op));
                   CanAct(s5, Send(op)) && s' == Act(limits, s5, Send(op))
  }

  lemma EntersSection(limits: Limits, s: State, op: OpId, cents: int) returns (s2: State)
    requires s.holder.None? && op !in s.ops
    ensures CanAct(s, Begin(op, cents)) && CanAct(Act(limits, s, Begin(op, cents)), Enter(op))
    ensures s2 == Act(limits, Act(limits, s, Begin(op, cents)), Enter(op))
    ensures s2 == s.(ops := s2.ops, holder := Some(op)) && op in s2.ops && s2.ops[op] == Entered(cents)
  {
    s2 := Act(limits, Act(limits, s, Begin(op, cents)), Enter(op));
  }

  lemma RecordsAndSends(limits: Limits, s: State, op: OpId, cents: int) returns (s': State)
    requires op in s.ops && s.ops[op] == Allowed(cents) && LoadWindow(s).Open? && s.holder == Some(op)
    ensures CanAct(s, Advance(op)) && CanAct(Act(limits, s, Advance(op)), Write(op))
    ensures CanAct(Act(limits, Act(limits, s, Advance(op)), Write(op)), Send(op))
    ensures s' == Act(limits, Act(limits, Act(limits, s, Advance(op)), Write(op)), Send(op))
    ensures s'.log == s.log + [DidRecord(op, cents), DidBroadcast(op)] && s'.history == s.history + [Entry(s.clock, cents)]
    ensures s'.holder.None? && s'.initialized && s'.file.Good? && s'.file.epoch == s'.anchor
  {
    s' := Act(limits, Act(limits, Act(limits, s, Advance(op)), Write(op)), Send(op));
    assert s'.log == (s.log + [DidRecord(op, cents)]) + [DidBroadcast(op)];
  }

  // From every reachable state in which no operation holds the mutex, an amount that fits the
  // limits is enforced, recorded and broadcast if the newest file is in place or nothing was
  // ever recorded. The laws above are not those of a choke point that lets nothing through.
  lemma SpendGoesThrough(limits: Limits, t: Trace, k: nat, op: OpId, cents: int) returns (s': State)
    requires IsTrace(limits, t) && k < |t.states| && t.states[k].holder.None? && op !in t.states[k].ops
    requires
      var s := t.states[k];
      && 0 < cents <= limits.perTx && WindowSum(s.history, s.clock) + cents <= limits.daily
      && (s.initialized ==> s.file.Good? && s.file.epoch == s.anchor)
    ensures SpendsIn(limits, t.states[k], op, cents, s')
    ensures s'.log == t.states[k].log + [DidEnforce(op, cents), DidRecord(op, cents), DidBroadcast(op)]
    ensures s'.history == t.states[k].history + [Entry(t.states[k].clock, cents)]
    ensures s'.holder.None? && s'.file.Good? && s'.file.epoch == s'.anchor
  {
    var s := t.states[k];
    OnlyTheNewestFileIsBelieved(limits, t, k);
    var s2 := EntersSection(limits, s, op, cents);
    assert LoadWindow(s2) == LoadWindow(s);
    var s3 := Act(limits, s2, Check(op));
    assert LoadWindow(s3) == LoadWindow(s);
    s' := RecordsAndSends(limits, s3, op, cents);
    assert s'.log == (s.log + [DidEnforce(op, cents)]) + [DidRecord(op, cents), DidBroadcast(op)];
  }

  // The first spend of a fresh wallet.
  lemma FirstSpendGoesThrough(limits: Limits, cents: int) returns (s': State)
    requires 0 < cents <= limits.perTx && cents <= limits.daily
    ensures SpendsIn(limits, INITIAL, 0, cents, s')
    ensures s'.log == [DidEnforce(0, cents), DidRecord(0, cents), DidBroadcast(0)]
  {
    s' := SpendGoesThrough(limits, Trace([INITIAL], []), 0, 0, cents);
  }
}
