// Withdrawals (src/wallet-engine/wallet.ts and src/wallet-engine/pending.ts): persist the
// request, POST it, enforce, sign, record, persist the signed bytes, broadcast, remove. The
// process may crash and the record may be tampered with between any two steps; a resume pass
// re-broadcasts stored bytes or re-POSTs. One driver acts on a record at a time.
module Withdrawals {
  import opened Options
  import opened Envelopes

  type Bytes = string

  datatype Mode = Live | Test

  datatype Credential = Credential(fingerprint: string, mode: Mode)

  datatype Body = Body(
    pixKey: string, taxNumber: string, refundAddress: string, depositCents: Option<int>, payoutCents: Option<int>)

  datatype RecordState = Requested | Signed

  datatype Record = Record(
    request: Body, state: RecordState, signedTx: Option<Bytes>, withdrawalId: Option<string>,
    keyMode: Option<Mode>, keyFingerprint: Option<string>)

  // ----- the durable records ------------------------------------------------------------------

  function NewRecord(request: Body, keyMode: Option<Mode>, keyFingerprint: Option<string>): Record {
    Record(request, Requested, None, None, keyMode, keyFingerprint)
  }

  function WithSigned(record: Record, withdrawalId: string, bytes: Bytes): Record {
    record.(state := Signed, signedTx := Some(bytes), withdrawalId := Some(withdrawalId))
  }

  class PendingWithdrawals {
    const file: EnvelopeFile<Record>

    constructor ()
      ensures fresh(file) && file.Valid() && forall key :: file.Holds(key) == None
    {
      file := new EnvelopeFile();
    }

    method PutRequested(key: string, request: Body, keyMode: Option<Mode>, keyFingerprint: Option<string>)
      requires file.Valid()
      modifies file
      ensures file.Valid()
      ensures IsSealed(file.Holds(key))
      ensures
        var record := file.Holds(key).value.record;
        && record.request == request && record.state == Requested && record.signedTx == None && record.withdrawalId == None
        && record.keyMode == keyMode && record.keyFingerprint == keyFingerprint
      ensures forall other :: other != key ==> file.Holds(other) == old(file.Holds(other))
    {
      file.PutRecord(key, Record(request, Requested, None, None, keyMode, keyFingerprint));
    }

    // Does nothing for an absent record and fails for a tampered one.
    method MarkSigned(key: string, withdrawalId: string, bytes: Bytes) returns (authentic: bool)
      requires file.Valid()
      modifies file
      ensures file.Valid()
      ensures authentic == !IsTampered(old(file.Holds(key)))
      ensures file.Holds(key) == Patch(old(file.Holds(key)), (r: Record) => WithSigned(r, withdrawalId, bytes))
      ensures !IsSealed(old(file.Holds(key))) ==> file.Holds(key) == old(file.Holds(key))
      ensures IsSealed(old(file.Holds(key))) <==> IsSealed(file.Holds(key))
      ensures IsSealed(file.Holds(key)) ==>
        var was, now := old(file.Holds(key)).value.record, file.Holds(key).value.record;
        && now.state == Signed && now.signedTx == Some(bytes) && now.withdrawalId == Some(withdrawalId)
        && now.request == was.request && now.keyMode == was.keyMode && now.keyFingerprint == was.keyFingerprint
      ensures forall other :: other != key ==> file.Holds(other) == old(file.Holds(other))
    {
      authentic := file.PatchRecord(key, (r: Record) => WithSigned(r, withdrawalId, bytes));
    }
  }

  // ----- one withdrawal as a state machine --------------------------------------------------------

  // The provider's answer: a sandbox placeholder, one the contract checks refuse, or a
  // payable one for this gross amount.
  datatype Wire = Sandbox | Unacceptable | Payable(withdrawalId: string, gross: int)

  datatype Why = BroadcastAccepted | SandboxAnswer | PermanentlyRejected | Refused

  // What one driver of the record does next.
  datatype Position =
    | Idle
    | Posting(request: Body, credential: Credential, resumed: bool)
    | Processing(wire: Wire)
    | Signing(withdrawalId: string, gross: int)
    | Recording(withdrawalId: string, gross: int, bytes: Bytes)
    | Storing(withdrawalId: string, bytes: Bytes)
    | Broadcasting(bytes: Bytes, resumed: bool)
    | Awaiting(bytes: Bytes, resumed: bool)
    | Removing(why: Why)
    | Discarding

  // Everything that happened under one idempotency key, in order.
  datatype Event =
    | Persisted(record: Record)
    | Posted(body: Body, credential: Credential)
    | Answered(wire: Wire)
    | Enforced(gross: int)
    | SignedTx(bytes: Bytes)
    | Recorded(gross: int)
    | Stored(withdrawalId: string, bytes: Bytes)
    | Broadcast(bytes: Bytes)
    | Accepted(bytes: Bytes)
    | Removed(why: Why)

  datatype Withdrawal = Withdrawal(slot: Slot<Record>, at: Position, log: seq<Event>)

  const UNUSED: Withdrawal := Withdrawal(None, Idle, [])

  datatype Choice = Goes | Fails | Rejected | Answers(wire: Wire) | Signs(bytes: Bytes)

  datatype Action =
    | Withdraw(request: Body, credential: Credential)
    | WrittenBefore(request: Body, keyMode: Option<Mode>)   // by a version without key fingerprints
    | Resume(active: Option<Credential>)
    | Move(choice: Choice)
    | Crash
    | Tamper
    | DiscardTampered

  // Only the key that created the request may replay it.
  predicate IsOtherKey(record: Record, key: Credential) {
    if record.keyFingerprint.Some? then record.keyFingerprint.value != key.fingerprint
    else record.keyMode.Some? && record.keyMode.value != key.mode
  }

  function Logged(w: Withdrawal, e: Event, at: Position): Withdrawal { w.(log := w.log + [e], at := at) }

  function Remove(w: Withdrawal, why: Why): Withdrawal {
    if w.slot.Some? then Logged(w, Removed(why), Idle).(slot := None) else w.(at := Idle)
  }

  // resumePendingWithdrawals on one authentic record.
  function ResumePosition(record: Record, active: Option<Credential>): Position {
    match record.state
    case Signed => if record.signedTx.None? then Idle else Broadcasting(record.signedTx.value, true)
    case Requested =>
      if active.None? || IsOtherKey(record, active.value) then Idle
      else Posting(record.request, active.value, true)
  }

  predicate CanMove(at: Position, choice: Choice) {
    match at
    case Idle => false
    case Posting(_, _, _) => !choice.Signs?
    case Signing(_, _) => choice.Signs? || choice.Fails?
    case _ => choice.Goes? || choice.Fails?
  }

  function StepStore(w: Withdrawal, withdrawalId: string, bytes: Bytes): Withdrawal {
    if w.slot.None? then w.(at := Broadcasting(bytes, false))
    else if w.slot.value.Tampered? then w.(at := Discarding)
    else Logged(w, Stored(withdrawalId, bytes), Broadcasting(bytes, false)).(slot := Some(Sealed(WithSigned(w.slot.value.record, withdrawalId, bytes))))
  }

  function StepDiscard(w: Withdrawal): Withdrawal {
    if IsSealed(w.slot) && w.slot.value.record.state == Requested then Remove(w, Refused) else w.(at := Idle)
  }

  function Step(w: Withdrawal, choice: Choice): Withdrawal
    requires CanMove(w.at, choice)
  {
    match w.at
    case Idle => w
    case Posting(request, key, resumed) =>
      (match choice
       case Goes => Logged(w, Posted(request, key), w.at)
       case Rejected => w.(at := if resumed then Removing(PermanentlyRejected) else Discarding)
       case Answers(wire) => Logged(w, Answered(wire), Processing(wire))
       case _ => w.(at := Idle))
    case Processing(wire) =>
      if wire.Sandbox? then w.(at := Removing(SandboxAnswer))
      else if wire.Unacceptable? || choice.Fails? then w.(at := Discarding)
      else Logged(w, Enforced(wire.gross), Signing(wire.withdrawalId, wire.gross))
    case Signing(id, gross) =>
      if choice.Signs? then Logged(w, SignedTx(choice.bytes), Recording(id, gross, choice.bytes)) else w.(at := Discarding)
    case Recording(id, gross, bytes) =>
      if choice.Goes? then Logged(w, Recorded(gross), Storing(id, bytes)) else w.(at := Discarding)
    case Storing(id, bytes) => if choice.Goes? then StepStore(w, id, bytes) else w.(at := Discarding)
    case Broadcasting(bytes, resumed) =>
      if choice.Goes? then Logged(w, Broadcast(bytes), Awaiting(bytes, resumed))
      else w.(at := if resumed then Idle else Discarding)
    case Awaiting(bytes, resumed) =>
      if choice.Goes? then Logged(w, Accepted(bytes), Removing(BroadcastAccepted))
      else w.(at := if resumed then Idle else Discarding)
    case Removing(why) => if choice.Goes? then Remove(w, why) else w.(at := Idle)
    case Discarding => if choice.Goes? then StepDiscard(w) else w.(at := Idle)
  }

  predicate CanAct(w: Withdrawal, a: Action) {
    match a
    case Withdraw(_, _) => w == UNUSED
    case WrittenBefore(_, _) => w == UNUSED
    case Resume(_) => w.at == Idle && IsSealed(w.slot)
    case Move(choice) => CanMove(w.at, choice)
    case Crash => true
    case Tamper => w.slot.Some?
    case DiscardTampered => w.at == Idle && IsTampered(w.slot)
  }

  function Act(w: Withdrawal, a: Action): Withdrawal
    requires CanAct(w, a)
  {
    match a
    case Withdraw(request, key) =>
      var record := NewRecord(request, Some(key.mode), Some(key.fingerprint));
      Withdrawal(Some(Sealed(record)), Posting(request, key, false), [Persisted(record)])
    case WrittenBefore(request, keyMode) =>
      var record := NewRecord(request, keyMode, None);
      Withdrawal(Some(Sealed(record)), Idle, [Persisted(record)])
    case Resume(active) => w.(at := ResumePosition(w.slot.value.record, active))
    case Move(choice) => Step(w, choice)
    case Crash => w.(at := Idle)
    case Tamper => w.(slot := Some(Tampered))
    case DiscardTampered => Remove(w, Refused)
  }

  // ----- what every reachable state satisfies --------------------------------------------------------

  predicate HasStored(log: seq<Event>) { exists n :: 0 <= n < |log| && log[n].Stored? }

  ghost predicate Origin(log: seq<Event>) { log != [] ==> log[0].Persisted? && log[0].record.state == Requested }

  // Every POST carries the persisted body under a key that may replay the record.
  ghost predicate PostsAgree(log: seq<Event>) {
    forall n :: 0 <= n < |log| && log[n].Posted? ==>
      log[0].Persisted? && log[n].body == log[0].record.request && !IsOtherKey(log[0].record, log[n].credential)
  }

  // These five events in a row: a payable answer, its amount enforced, a transaction signed, the
  // amount recorded, and the transaction stored under the answer's id.
  predicate IsOnePayment(answered: Event, enforced: Event, signed: Event, recorded: Event, stored: Event) {
    && stored.Stored? && recorded.Recorded?
    && signed == SignedTx(stored.bytes) && enforced == Enforced(recorded.gross)
    && answered == Answered(Payable(stored.withdrawalId, recorded.gross))
  }

  // The signed bytes are stored at most once, right after they were signed and recorded under
  // the enforced amount of the provider's answer.
  ghost predicate StoredOnce(log: seq<Event>) {
    && (forall m, n :: 0 <= m < n < |log| ==> !(log[m].Stored? && log[n].Stored?))
    && (forall n :: 0 <= n < |log| ==> IsBacked(log, n))
  }

  // If event n stores bytes, it completes a payment.
  predicate IsBacked(log: seq<Event>, n: nat)
    requires n < |log|
  {
    log[n].Stored? ==> n >= 4 && IsOnePayment(log[n-4], log[n-3], log[n-2], log[n-1], log[n])
  }

  // Nothing is signed after the bytes were stored.
  ghost predicate NeverSignedAgain(log: seq<Event>) {
    forall m, n :: 0 <= m < n < |log| ==> !(log[m].Stored? && log[n].SignedTx?)
  }

  // Every broadcast sends bytes that were stored before.
  ghost predicate StoredFirst(log: seq<Event>) {
    forall n :: 0 <= n < |log| && (log[n].Broadcast? || log[n].Accepted?) ==>
      exists m :: 0 <= m < n && log[m].Stored? && log[m].bytes == log[n].bytes
  }

  ghost predicate HoldsBytes(log: seq<Event>, bytes: Bytes) {
    exists n :: 0 <= n < |log| && log[n].Stored? && log[n].bytes == bytes
  }

  ghost predicate LogOk(log: seq<Event>) {
    Origin(log) && PostsAgree(log) && StoredOnce(log) && NeverSignedAgain(log) && StoredFirst(log)
  }

  ghost predicate SlotOk(w: Withdrawal) {
    IsSealed(w.slot) ==>
      var record := w.slot.value.record;
      && w.log != [] && w.log[0].Persisted?
      && record.request == w.log[0].record.request
      && record.keyMode == w.log[0].record.keyMode && record.keyFingerprint == w.log[0].record.keyFingerprint
      && (record.state == Requested ==> !HasStored(w.log))
      && (record.state == Signed ==>
            record.signedTx.Some? && record.withdrawalId.Some? && Stored(record.withdrawalId.value, record.signedTx.value) in w.log)
  }

  // The last four events are those that storing these bytes completes.
  predicate MayStore(log: seq<Event>, e: Event) {
    |log| >= 4 && IsOnePayment(log[|log|-4], log[|log|-3], log[|log|-2], log[|log|-1], e)
  }

  ghost predicate PositionOk(w: Withdrawal) {
    var log := w.log;
    match w.at
    case Idle | Discarding => true
    case Posting(request, key, _) =>
      !HasStored(log) && log != [] && log[0].Persisted? && request == log[0].record.request && !IsOtherKey(log[0].record, key)
      && w.slot.Some?
    case Processing(wire) => !HasStored(log) && w.slot.Some? && |log| >= 1 && log[|log|-1] == Answered(wire)
    case Signing(id, gross) =>
      && !HasStored(log) && w.slot.Some? && |log| >= 2
      && log[|log|-1] == Enforced(gross) && log[|log|-2] == Answered(Payable(id, gross))
    case Recording(id, gross, bytes) =>
      && !HasStored(log) && w.slot.Some? && |log| >= 3
      && log[|log|-1] == SignedTx(bytes) && log[|log|-2] == Enforced(gross) && log[|log|-3] == Answered(Payable(id, gross))
    case Storing(id, bytes) => !HasStored(log) && w.slot.Some? && MayStore(log, Stored(id, bytes))
    case Broadcasting(bytes, _) => HoldsBytes(log, bytes)
    case Awaiting(bytes, _) => HoldsBytes(log, bytes)
    case Removing(why) =>
      match why
      case BroadcastAccepted => exists n :: 0 <= n < |log| && log[n].Accepted?
      case _ => !HasStored(log)
  }

  ghost predicate Inv(w: Withdrawal) {
    LogOk(w.log) && SlotOk(w) && PositionOk(w) && (w.log == [] ==> w == UNUSED)
  }

  lemma StoredFirstGrows(log: seq<Event>, e: Event)
    requires StoredFirst(log) && (e.Broadcast? || e.Accepted? ==> HoldsBytes(log, e.bytes))
    ensures StoredFirst(log + [e])
  {
    var log' := log + [e];
    forall n | 0 <= n < |log'| && (log'[n].Broadcast? || log'[n].Accepted?)
      ensures exists m :: 0 <= m < n && log'[m].Stored? && log'[m].bytes == log'[n].bytes
    {
      if n < |log| {
        var m :| 0 <= m < n && log[m].Stored? && log[m].bytes == log[n].bytes;
        assert log'[m] == log[m];
      } else {
        var m :| 0 <= m < |log| && log[m].Stored? && log[m].bytes == e.bytes;
        assert log'[m] == log[m];
      }
    }
  }

  lemma HoldsBytesGrows(log: seq<Event>, e: Event, bytes: Bytes)
    requires HoldsBytes(log, bytes)
    ensures HoldsBytes(log + [e], bytes)
  {
    var n :| 0 <= n < |log| && log[n].Stored? && log[n].bytes == bytes;
    assert (log + [e])[n] == log[n];
  }

  lemma HasStoredGrows(log: seq<Event>, e: Event)
    requires !e.Stored?
    ensures HasStored(log + [e]) <==> HasStored(log)
  {
    if HasStored(log + [e]) {
      var n :| 0 <= n < |log + [e]| && (log + [e])[n].Stored?;
      assert log[n].Stored?;
    }
    if HasStored(log) {
      var n :| 0 <= n < |log| && log[n].Stored?;
      assert (log + [e])[n].Stored?;
    }
  }

  lemma StoredOnceGrows(log: seq<Event>, e: Event)
    requires StoredOnce(log) && NeverSignedAgain(log)
    requires e.Stored? ==> !HasStored(log) && MayStore(log, e)
    requires e.SignedTx? ==> !HasStored(log)
    ensures StoredOnce(log + [e]) && NeverSignedAgain(log + [e])
  {
    forall n | 0 <= n < |log + [e]| ensures IsBacked(log + [e], n) {
      if n < |log| { assert IsBacked(log, n); }
    }
  }

  lemma PostsAgreeGrow(log: seq<Event>, e: Event)
    requires Origin(log) && PostsAgree(log) && log != [] && !e.Persisted?
    requires e.Posted? ==> log[0].Persisted? && e.body == log[0].record.request && !IsOtherKey(log[0].record, e.credential)
    ensures Origin(log + [e]) && PostsAgree(log + [e])
  {
    assert (log + [e])[0] == log[0];
  }

  lemma Appended(log: seq<Event>, e: Event)
    requires LogOk(log) && log != [] && !e.Persisted?
    requires e.Posted? ==> log[0].Persisted? && e.body == log[0].record.request && !IsOtherKey(log[0].record, e.credential)
    requires e.Stored? ==> !HasStored(log) && MayStore(log, e)
    requires e.SignedTx? ==> !HasStored(log)
    requires e.Broadcast? || e.Accepted? ==> HoldsBytes(log, e.bytes)
    ensures LogOk(log + [e])
    ensures e.Stored? || (HasStored(log + [e]) <==> HasStored(log))
  {
    PostsAgreeGrow(log, e);
    StoredOnceGrows(log, e);
    StoredFirstGrows(log, e);
    if !e.Stored? { HasStoredGrows(log, e); }
  }

  // One more event, other than storing the bytes, with the record left as it is.
  lemma LoggingKeeps(w: Withdrawal, e: Event, at: Position)
    requires Inv(w) && w.log != [] && !e.Persisted? && !e.Stored?
    requires e.Posted? ==> w.log[0].Persisted? && e.body == w.log[0].record.request && !IsOtherKey(w.log[0].record, e.credential)
    requires e.SignedTx? ==> !HasStored(w.log)
    requires e.Broadcast? || e.Accepted? ==> HoldsBytes(w.log, e.bytes)
    ensures LogOk(Logged(w, e, at).log) && SlotOk(Logged(w, e, at))
    ensures HasStored(Logged(w, e, at).log) <==> HasStored(w.log)
  {
    Appended(w.log, e);
  }

  lemma RemoveKeeps(w: Withdrawal, why: Why)
    requires Inv(w) && w.log != []
    ensures Inv(Remove(w, why))
  {
    if w.slot.Some? { Appended(w.log, Removed(why)); }
  }

  lemma StoreKeeps(w: Withdrawal, id: string, bytes: Bytes)
    requires Inv(w) && w.at == Storing(id, bytes)
    ensures Inv(StepStore(w, id, bytes))
  {
    if IsSealed(w.slot) {
      Appended(w.log, Stored(id, bytes));
      var w' := StepStore(w, id, bytes);
      assert w'.log[|w.log|] == Stored(id, bytes) && w'.log[0] == w.log[0];
    }
  }

  lemma StepSends(w: Withdrawal, choice: Choice)
    requires Inv(w) && CanMove(w.at, choice) && (w.at.Posting? || w.at.Broadcasting? || w.at.Awaiting?)
    ensures Inv(Step(w, choice))
  {
    match w.at
    case Posting(request, key, resumed) =>
      if choice == Goes { LoggingKeeps(w, Posted(request, key), w.at); }
      if choice.Answers? { LoggingKeeps(w, Answered(choice.wire), Processing(choice.wire)); }
    case Broadcasting(bytes, resumed) =>
      if choice == Goes {
        LoggingKeeps(w, Broadcast(bytes), Awaiting(bytes, resumed));
        HoldsBytesGrows(w.log, Broadcast(bytes), bytes);
      }
    case Awaiting(bytes, resumed) =>
      if choice == Goes {
        LoggingKeeps(w, Accepted(bytes), Removing(BroadcastAccepted));
        assert Step(w, choice).log[|w.log|].Accepted?;
      }
  }

  lemma StepProcesses(w: Withdrawal, choice: Choice)
    requires Inv(w) && CanMove(w.at, choice) && w.at.Processing?
    ensures Inv(Step(w, choice))
  {
    var wire := w.at.wire;
    if wire.Payable? && choice == Goes { LoggingKeeps(w, Enforced(wire.gross), Signing(wire.withdrawalId, wire.gross)); }
  }

  lemma StepSigns(w: Withdrawal, choice: Choice)
    requires Inv(w) && CanMove(w.at, choice) && w.at.Signing?
    ensures Inv(Step(w, choice))
  {
    if choice.Signs? { LoggingKeeps(w, SignedTx(choice.bytes), Recording(w.at.withdrawalId, w.at.gross, choice.bytes)); }
  }

  lemma StepRecords(w: Withdrawal, choice: Choice)
    requires Inv(w) && CanMove(w.at, choice) && w.at.Recording?
    ensures Inv(Step(w, choice))
  {
    if choice == Goes { LoggingKeeps(w, Recorded(w.at.gross), Storing(w.at.withdrawalId, w.at.bytes)); }
  }

  lemma StepKeeps(w: Withdrawal, choice: Choice)
    requires Inv(w) && CanMove(w.at, choice)
    ensures Inv(Step(w, choice))
  {
    match w.at
    case Storing(id, bytes) => if choice == Goes { StoreKeeps(w, id, bytes); }
    case Removing(why) => if choice == Goes { RemoveKeeps(w, why); }
    case Discarding =>
      if choice == Goes && IsSealed(w.slot) && w.slot.value.record.state == Requested { RemoveKeeps(w, Refused); }
    case Posting(_, _, _) => StepSends(w, choice);
    case Broadcasting(_, _) => StepSends(w, choice);
    case Awaiting(_, _) => StepSends(w, choice);
    case Processing(_) => StepProcesses(w, choice);
    case Signing(_, _) => StepSigns(w, choice);
    case Recording(_, _, _) => StepRecords(w, choice);
  }

  lemma ActKeeps(w: Withdrawal, a: Action)
    requires Inv(w) && CanAct(w, a)
    ensures Inv(Act(w, a))
  {
    match a
    case Move(choice) => StepKeeps(w, choice);
    case DiscardTampered => Appended(w.log, Removed(Refused));
    case _ =>
  }

  // ----- runs ------------------------------------------------------------------------------------------

  datatype Trace = Trace(states: seq<Withdrawal>, actions: seq<Action>)

  ghost predicate IsTrace(t: Trace) {
    && |t.states| == |t.actions| + 1
    && t.states[0] == UNUSED
    && forall i :: 0 <= i < |t.actions| ==> CanAct(t.states[i], t.actions[i]) && t.states[i+1] == Act(t.states[i], t.actions[i])
  }

  lemma {:induction false} EveryStateIsInvariant(t: Trace, k: nat)
    requires IsTrace(t) && k < |t.states|
    ensures Inv(t.states[k])
  {
    if k > 0 {
      EveryStateIsInvariant(t, k - 1);
      ActKeeps(t.states[k-1], t.actions[k-1]);
    }
  }

  lemma StoredBytesAgree(log: seq<Event>, i: nat, j: nat)
    requires StoredOnce(log) && i < |log| && j < |log| && log[i].Stored? && log[j].Stored?
    ensures log[i].bytes == log[j].bytes
  {
  }

  lemma SameBroadcasts(log: seq<Event>, m: nat, n: nat)
    requires StoredOnce(log) && StoredFirst(log) && m < |log| && n < |log| && log[m].Broadcast? && log[n].Broadcast?
    ensures log[m].bytes == log[n].bytes
  {
    var i :| 0 <= i < m && log[i].Stored? && log[i].bytes == log[m].bytes;
    var j :| 0 <= j < n && log[j].Stored? && log[j].bytes == log[n].bytes;
    StoredBytesAgree(log, i, j);
  }

  // Event m stores these bytes: before it the provider answered with an amount to pay, exactly
  // that amount was enforced, these bytes were signed, and that amount was recorded as spent.
  predicate StoresAt(log: seq<Event>, m: nat, bytes: Bytes) {
    && 4 <= m < |log| && log[m].Stored? && log[m].bytes == bytes
    && log[m-4].Answered? && log[m-4].wire.Payable? && log[m-4].wire.withdrawalId == log[m].withdrawalId
    && log[m-3] == Enforced(log[m-4].wire.gross) && log[m-2] == SignedTx(bytes) && log[m-1] == Recorded(log[m-4].wire.gross)
  }

  lemma BroadcastWasStored(log: seq<Event>, n: nat)
    requires LogOk(log) && n < |log| && log[n].Broadcast?
    ensures exists m :: 0 <= m < n && StoresAt(log, m, log[n].bytes)
    ensures forall k :: n < k < |log| ==> !log[k].SignedTx?
  {
    var m :| 0 <= m < n && log[m].Stored? && log[m].bytes == log[n].bytes;
    assert IsBacked(log, m);
    assert StoresAt(log, m, log[n].bytes);
  }

  // Under one idempotency key every broadcast sends the same bytes. Before the first one, in this
  // order, the provider's amount was enforced, the bytes were signed, that amount was recorded as
  // spent and the bytes were durably stored; and nothing is signed after it.
  lemma BroadcastsAreTheStoredBytes(t: Trace, k: nat, n: nat)
    requires IsTrace(t) && k < |t.states| && n < |t.states[k].log| && t.states[k].log[n].Broadcast?
    ensures
      var log := t.states[k].log;
      && (forall m :: 0 <= m < |log| && log[m].Broadcast? ==> log[m].bytes == log[n].bytes)
      && (exists m :: 0 <= m < n && StoresAt(log, m, log[n].bytes))
      && (forall m :: n < m < |log| ==> !log[m].SignedTx?)
  {
    EveryStateIsInvariant(t, k);
    var log := t.states[k].log;
    BroadcastWasStored(log, n);
    forall m | 0 <= m < |log| && log[m].Broadcast? ensures log[m].bytes == log[n].bytes { SameBroadcasts(log, m, n); }
  }

  // A stored `requested` record has never been broadcast; a stored `signed` record holds the
  // bytes of every broadcast so far.
  lemma StoredStateTellsBroadcasts(t: Trace, k: nat)
    requires IsTrace(t) && k < |t.states| && IsSealed(t.states[k].slot)
    ensures
      var record, log := t.states[k].slot.value.record, t.states[k].log;
      && (record.state == Requested ==> forall n :: 0 <= n < |log| ==> !log[n].Broadcast?)
      && (record.state == Signed ==>
            record.signedTx.Some? && forall n :: 0 <= n < |log| && log[n].Broadcast? ==> Some(log[n].bytes) == record.signedTx)
  {
    EveryStateIsInvariant(t, k);
    var record, log := t.states[k].slot.value.record, t.states[k].log;
    forall n | 0 <= n < |log| && log[n].Broadcast?
      ensures record.state == Signed && record.signedTx.Some? && log[n].bytes == record.signedTx.value
    {
      var m :| 0 <= m < n && log[m].Stored? && log[m].bytes == log[n].bytes;
      var i :| 0 <= i < |log| && log[i] == Stored(record.withdrawalId.value, record.signedTx.value);
      StoredBytesAgree(log, i, m);
    }
  }

  // An authentic `signed` record leaves the store only after a broadcast of its bytes was
  // accepted.
  lemma SignedLeavesOnlyAfterBroadcast(t: Trace, k: nat)
    requires IsTrace(t) && k < |t.actions| && IsSealed(t.states[k].slot) && t.states[k].slot.value.record.state == Signed
    requires t.states[k+1].slot.None?
    ensures t.states[k].slot.value.record.signedTx.Some?
    ensures Accepted(t.states[k].slot.value.record.signedTx.value) in t.states[k].log
  {
    EveryStateIsInvariant(t, k);
    var w := t.states[k];
    assert w.at == Removing(BroadcastAccepted) by { SignedHasStored(w); }
    var n :| 0 <= n < |w.log| && w.log[n].Accepted?;
    var m :| 0 <= m < n && w.log[m].Stored? && w.log[m].bytes == w.log[n].bytes;
    var i :| 0 <= i < |w.log| && w.log[i] == Stored(w.slot.value.record.withdrawalId.value, w.slot.value.record.signedTx.value);
    StoredBytesAgree(w.log, i, m);
  }

  lemma SignedHasStored(w: Withdrawal)
    requires SlotOk(w) && IsSealed(w.slot) && w.slot.value.record.state == Signed
    ensures HasStored(w.log)
  {
    var i :| 0 <= i < |w.log| && w.log[i] == Stored(w.slot.value.record.withdrawalId.value, w.slot.value.record.signedTx.value);
    assert w.log[i].Stored?;
  }

  // The first event stays the first.
  lemma {:induction false} FirstEventStays(t: Trace, i: nat, k: nat)
    requires IsTrace(t) && i <= k < |t.states| && t.states[i].log != []
    ensures t.states[k].log != [] && t.states[k].log[0] == t.states[i].log[0]
    decreases k - i
  {
    if i < k {
      FirstEventStays(t, i, k - 1);
      assert t.states[k] == Act(t.states[k-1], t.actions[k-1]);
    }
  }

  // Every POST of a withdrawal, over all retries, crashes and resume passes, carries the body
  // the caller asked to withdraw, under a key with the fingerprint of the caller's key.
  lemma PostsReplayTheRequest(t: Trace, i: nat, k: nat, n: nat)
    requires IsTrace(t) && i < |t.actions| && t.actions[i].Withdraw?
    requires k < |t.states| && n < |t.states[k].log| && t.states[k].log[n].Posted?
    ensures i < k
    ensures t.states[k].log[n].body == t.actions[i].request
    ensures t.states[k].log[n].credential.fingerprint == t.actions[i].credential.fingerprint
  {
    EveryStateIsInvariant(t, k);
    if k <= i { NothingBefore(t, k, i); }
    FirstEventStays(t, i + 1, k);
  }

  lemma {:induction false} NothingBefore(t: Trace, k: nat, i: nat)
    requires IsTrace(t) && k <= i < |t.states| && t.states[i] == UNUSED
    ensures t.states[k].log == []
  {
    if t.states[k].log != [] { FirstEventStays(t, k, i); }
  }

  // A record from before key fingerprints is replayed under any key of the mode it names, and
  // under any key at all if it names none; its body is replayed as it was written.
  lemma OlderRecordsReplayByMode(t: Trace, i: nat, k: nat, n: nat)
    requires IsTrace(t) && i < |t.actions| && t.actions[i].WrittenBefore?
    requires k < |t.states| && n < |t.states[k].log| && t.states[k].log[n].Posted?
    ensures t.states[k].log[n].body == t.actions[i].request
    ensures t.actions[i].keyMode.Some? ==> t.states[k].log[n].credential.mode == t.actions[i].keyMode.value
  {
    EveryStateIsInvariant(t, k);
    if k <= i { NothingBefore(t, k, i); }
    FirstEventStays(t, i + 1, k);
  }

  // Whatever crashed, a resume pass over a `requested` record POSTs the caller's body again if
  // the active key has the fingerprint of the caller's, and does nothing under any other key or
  // none.
  lemma RequestedIsReposted(t: Trace, i: nat, k: nat, active: Option<Credential>)
    requires IsTrace(t) && i < k < |t.states| && t.actions[i].Withdraw?
    requires IsSealed(t.states[k].slot) && t.states[k].at == Idle && t.states[k].slot.value.record.state == Requested
    ensures CanAct(t.states[k], Resume(active))
    ensures
      var w, w' := t.states[k], Act(t.states[k], Resume(active));
      if active.Some? && active.value.fingerprint == t.actions[i].credential.fingerprint then
        w'.at.Posting? && w'.log == w.log && Step(w', Goes).log == w.log + [Posted(t.actions[i].request, active.value)]
      else w' == w
  {
    EveryStateIsInvariant(t, k);
    FirstEventStays(t, i + 1, k);
  }

  // Whatever crashed, a resume pass over a `signed` record re-broadcasts exactly the stored
  // bytes, whichever key is active, and never signs; the record always has those bytes.
  lemma SignedIsRebroadcast(t: Trace, k: nat, active: Option<Credential>)
    requires IsTrace(t) && k < |t.states| && IsSealed(t.states[k].slot) && t.states[k].at == Idle
    requires t.states[k].slot.value.record.state == Signed
    ensures
      var w, record := t.states[k], t.states[k].slot.value.record;
      && record.signedTx.Some? && CanAct(w, Resume(active))
      && Act(w, Resume(active)) == w.(at := Broadcasting(record.signedTx.value, true))
      && Step(Act(w, Resume(active)), Goes).log == w.log + [Broadcast(record.signedTx.value)]
  {
    EveryStateIsInvariant(t, k);
  }
}
