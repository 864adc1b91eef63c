// withdraw, processWithdrawResponse and the resume of one record (src/wallet-engine/wallet.ts)
// as they act on the store of pending withdrawals, each store operation and each contact with
// the outside being one step of the withdrawal machine.
module WithdrawalDriver {
  import opened Options
  import opened Envelopes
  import opened Withdrawals

  // ----- runs of one driver ----------------------------------------------------------------------

  predicate CanMoves(w: Withdrawal, choices: seq<Choice>)
    decreases |choices|
  {
    choices == [] || (CanMove(w.at, choices[0]) && CanMoves(Step(w, choices[0]), choices[1..]))
  }

  function Moves(w: Withdrawal, choices: seq<Choice>): Withdrawal
    requires CanMoves(w, choices)
    decreases |choices|
  {
    if choices == [] then w else Moves(Step(w, choices[0]), choices[1..])
  }

  // The machine's driver may get from w to w'.
  ghost predicate Reaches(w: Withdrawal, w': Withdrawal) {
    exists choices :: CanMoves(w, choices) && Moves(w, choices) == w'
  }

  lemma {:induction false} MovesThenOne(w: Withdrawal, choices: seq<Choice>, choice: Choice)
    requires CanMoves(w, choices) && CanMove(Moves(w, choices).at, choice)
    ensures CanMoves(w, choices + [choice]) && Moves(w, choices + [choice]) == Step(Moves(w, choices), choice)
    decreases |choices|
  {
    if choices == [] {
      assert [choice][1..] == [];
      assert choices + [choice] == [choice];
    } else {
      MovesThenOne(Step(w, choices[0]), choices[1..], choice);
      assert (choices + [choice])[1..] == choices[1..] + [choice];
    }
  }

  lemma ReachesItself(w: Withdrawal)
    ensures Reaches(w, w)
  {
    assert CanMoves(w, []) && Moves(w, []) == w;
  }

  lemma ReachesMore(w: Withdrawal, w': Withdrawal, choice: Choice)
    requires Reaches(w, w') && CanMove(w'.at, choice)
    ensures Reaches(w, Step(w', choice))
  {
    var choices :| CanMoves(w, choices) && Moves(w, choices) == w';
    MovesThenOne(w, choices, choice);
  }

  // ----- what the surroundings do ------------------------------------------------------------------

  // Whether each stage succeeds: the limits admit the amount, the transaction is built and
  // signed, the spend is recorded, the record is rewritten, the broadcast goes out and is
  // accepted, and a removal is written.
  datatype Env = Env(admits: bool, signed: Option<Bytes>, records: bool, writes: bool, goesOut: bool, accepted: bool, removes: bool)

  // How createWithdraw ends, after some number of requests under one key.
  datatype PostEnd = PermanentError | TransientError | Wired(wire: Wire)

  datatype Result = Paid(bytes: Bytes) | SandboxDone | Failed | Untouched

  // ----- the store operations of a driver -------------------------------------------------------------

  // Removes the record; a failure to is swallowed.
  method RemoveQuietly(store: PendingWithdrawals, key: string, removes: bool, ghost w0: Withdrawal, ghost from: Withdrawal)
    returns (ghost w: Withdrawal)
    requires store.file.Valid() && store.file.Holds(key) == from.slot && Reaches(w0, from) && from.at.Removing?
    modifies store.file
    ensures store.file.Valid() && store.file.Holds(key) == w.slot && Reaches(w0, w) && w.at == Idle
    ensures forall other :: other != key ==> store.file.Holds(other) == old(store.file.Holds(other))
    ensures removes ==> w.slot == None
    ensures from.log <= w.log
  {
    ReachesMore(w0, from, if removes then Goes else Fails);
    w := Step(from, if removes then Goes else Fails);
    if removes { store.file.RemoveRecord(key); }
  }

  // discardIfUnsigned: drops a record that is still `requested`, and leaves a signed or a
  // tampered one.
  method DiscardIfUnsigned(store: PendingWithdrawals, key: string, ghost w0: Withdrawal, ghost from: Withdrawal)
    returns (ghost w: Withdrawal)
    requires store.file.Valid() && store.file.Holds(key) == from.slot && Reaches(w0, from) && from.at.Discarding?
    modifies store.file
    ensures store.file.Valid() && store.file.Holds(key) == w.slot && Reaches(w0, w) && w.at == Idle
    ensures forall other :: other != key ==> store.file.Holds(other) == old(store.file.Holds(other))
    ensures IsSealed(from.slot) && from.slot.value.record.state == Requested ==> w.slot == None
    ensures !(IsSealed(from.slot) && from.slot.value.record.state == Requested) ==> w.slot == from.slot
    ensures from.log <= w.log
  {
    ReachesMore(w0, from, Goes);
    w := Step(from, Goes);
    var record, _ := store.file.Get(key);
    if record.Some? && record.value.state == Requested { store.file.RemoveRecord(key); }
  }

  // An authentic record now holds these bytes under this id; what was asked for is unchanged.
  ghost predicate HoldsSigned(was: Slot<Record>, now: Slot<Record>, withdrawalId: string, bytes: Bytes) {
    if IsSealed(was) then
      && IsSealed(now)
      && var before, record := was.value.record, now.value.record;
         && record.state == Signed && record.signedTx == Some(bytes) && record.withdrawalId == Some(withdrawalId)
         && record.request == before.request && record.keyMode == before.keyMode && record.keyFingerprint == before.keyFingerprint
    else now == was
  }

  // ----- processWithdrawResponse -------------------------------------------------------------------------

  // The section from enforcement to the stored bytes: the bytes to broadcast, or None when a
  // stage failed and nothing may be sent.
  method BuildSignPersist(store: PendingWithdrawals, key: string, wire: Wire, env: Env, ghost w0: Withdrawal, ghost from: Withdrawal)
    returns (bytes: Option<Bytes>, ghost w: Withdrawal)
    requires store.file.Valid() && store.file.Holds(key) == from.slot && Reaches(w0, from)
    requires from.at == Processing(wire) && wire.Payable?
    modifies store.file
    ensures store.file.Valid() && store.file.Holds(key) == w.slot && Reaches(w0, w)
    ensures forall other :: other != key ==> store.file.Holds(other) == old(store.file.Holds(other))
    ensures bytes.Some? <==> env.admits && env.signed.Some? && env.records && env.writes && !IsTampered(from.slot)
    ensures bytes.None? ==> w.at == Discarding && w.slot == from.slot
    ensures bytes.Some? ==> w.at == Broadcasting(bytes.value, false) && env.signed == bytes
    ensures bytes.Some? ==> HoldsSigned(from.slot, w.slot, wire.withdrawalId, bytes.value)
    ensures from.log <= w.log
  {
    w := from;
    ReachesMore(w0, w, if env.admits then Goes else Fails);
    w := Step(w, if env.admits then Goes else Fails);
    if !env.admits { return None, w; }
    ReachesMore(w0, w, if env.signed.Some? then Signs(env.signed.value) else Fails);
    w := Step(w, if env.signed.Some? then Signs(env.signed.value) else Fails);
    if env.signed.None? { return None, w; }
    ReachesMore(w0, w, if env.records then Goes else Fails);
    w := Step(w, if env.records then Goes else Fails);
    if !env.records { return None, w; }
    ReachesMore(w0, w, if env.writes then Goes else Fails);
    w := Step(w, if env.writes then Goes else Fails);
    if !env.writes { return None, w; }
    var authentic := store.MarkSigned(key, wire.withdrawalId, env.signed.value);
    return if authentic then env.signed else None, w;
  }

  // Broadcasts these bytes and drops the record once they were accepted.
  method BroadcastAndRemove(store: PendingWithdrawals, key: string, bytes: Bytes, env: Env, ghost w0: Withdrawal, ghost from: Withdrawal)
    returns (accepted: bool, ghost w: Withdrawal)
    requires store.file.Valid() && store.file.Holds(key) == from.slot && Reaches(w0, from)
    requires from.at.Broadcasting? && from.at.bytes == bytes
    modifies store.file
    ensures store.file.Valid() && store.file.Holds(key) == w.slot && Reaches(w0, w)
    ensures forall other :: other != key ==> store.file.Holds(other) == old(store.file.Holds(other))
    ensures accepted == (env.goesOut && env.accepted)
    ensures accepted ==> w.at == Idle && Accepted(bytes) in w.log && (env.removes ==> w.slot == None)
    ensures !accepted ==> w.at == (if from.at.resumed then Idle else Discarding) && w.slot == from.slot
    ensures from.log <= w.log
  {
    w := from;
    ReachesMore(w0, w, if env.goesOut then Goes else Fails);
    w := Step(w, if env.goesOut then Goes else Fails);
    if !env.goesOut { return false, w; }
    ReachesMore(w0, w, if env.accepted then Goes else Fails);
    w := Step(w, if env.accepted then Goes else Fails);
    if !env.accepted { return false, w; }
    assert w.log[|w.log|-1] == Accepted(bytes);
    w := RemoveQuietly(store, key, env.removes, w0, w);
    accepted := true;
  }

  // Deals with the provider's answer; whatever fails before the bytes are stored drops the
  // unsigned record, whatever fails after leaves the signed one.
  method ProcessWithdrawResponse(store: PendingWithdrawals, key: string, wire: Wire, env: Env, ghost w0: Withdrawal, ghost from: Withdrawal)
    returns (result: Result, ghost w: Withdrawal)
    requires store.file.Valid() && store.file.Holds(key) == from.slot && Reaches(w0, from) && from.at == Processing(wire)
    modifies store.file
    ensures store.file.Valid() && store.file.Holds(key) == w.slot && Reaches(w0, w) && w.at == Idle
    ensures forall other :: other != key ==> store.file.Holds(other) == old(store.file.Holds(other))
    ensures wire.Sandbox? <==> result == SandboxDone
    ensures result.Paid? ==> env.signed == Some(result.bytes) && Accepted(result.bytes) in w.log
    // With everything in order the withdrawal is paid and its record gone.
    ensures wire.Payable? && IsSealed(from.slot) && env == Env(true, env.signed, true, true, true, true, true) && env.signed.Some? ==>
      result == Paid(env.signed.value) && w.slot == None
    // A refusal before signing leaves nothing to resume.
    ensures wire.Unacceptable? || (wire.Payable? && (!env.admits || env.signed.None? || !env.records)) ==>
      result == Failed && (IsSealed(from.slot) && from.slot.value.record.state == Requested ==> w.slot == None)
    // A broadcast that fails leaves exactly the signed record to resume.
    ensures (wire.Payable? && env.admits && env.records && env.writes && env.signed.Some? && IsSealed(from.slot)
             && !(env.goesOut && env.accepted)) ==>
      result == Failed && HoldsSigned(from.slot, w.slot, wire.withdrawalId, env.signed.value)
    ensures from.log <= w.log
  {
    if wire.Sandbox? {
      ReachesMore(w0, from, Goes);
      w := Step(from, Goes);
      w := RemoveQuietly(store, key, env.removes, w0, w);
      return SandboxDone, w;
    }
    if wire.Unacceptable? {
      ReachesMore(w0, from, Goes);
      w := Step(from, Goes);
      w := DiscardIfUnsigned(store, key, w0, w);
      return Failed, w;
    }
    var bytes;
    bytes, w := BuildSignPersist(store, key, wire, env, w0, from);
    if bytes.None? {
      w := DiscardIfUnsigned(store, key, w0, w);
      return Failed, w;
    }
    var accepted;
    accepted, w := BroadcastAndRemove(store, key, bytes.value, env, w0, w);
    if !accepted {
      w := DiscardIfUnsigned(store, key, w0, w);
      return Failed, w;
    }
    result := Paid(bytes.value);
  }

  // ----- withdraw and resume ------------------------------------------------------------------------------

  // The requests createWithdraw sends, all with this body under this key.
  lemma Posts(w0: Withdrawal, from: Withdrawal, sends: nat) returns (w: Withdrawal)
    requires Reaches(w0, from) && from.at.Posting?
    ensures Reaches(w0, w) && w.slot == from.slot && w.at == from.at
    ensures |w.log| == |from.log| + sends && from.log <= w.log
    ensures forall n :: |from.log| <= n < |w.log| ==> w.log[n] == Posted(from.at.request, from.at.credential)
  {
    w := from;
    for n := 0 to sends
      invariant Reaches(w0, w) && w.slot == from.slot && w.at == from.at
      invariant |w.log| == |from.log| + n && from.log <= w.log
      invariant forall m :: |from.log| <= m < |w.log| ==> w.log[m] == Posted(from.at.request, from.at.credential)
    {
      ReachesMore(w0, w, Goes);
      w := Step(w, Goes);
    }
  }

  // After what had happened before, this many requests went out with this body under this key.
  ghost predicate PostsInARow(before: seq<Event>, after: seq<Event>, sends: nat, request: Body, credential: Credential) {
    && before <= after && |after| >= |before| + sends
    && forall n :: |before| <= n < |before| + sends ==> after[n] == Posted(request, credential)
  }

  // Whether the active key may replay a record: the one whose fingerprint it has, or for an
  // older record one of the mode it names, if it names one.
  predicate MayReplay(record: Record, active: Option<Credential>) {
    && active.Some?
    && (record.keyFingerprint.Some? ==> record.keyFingerprint.value == active.value.fingerprint)
    && (record.keyFingerprint.None? && record.keyMode.Some? ==> record.keyMode.value == active.value.mode)
  }

  // The tail withdraw and resume share: POST, then deal with the answer.
  method PostAndProcess(
      store: PendingWithdrawals, key: string, end: PostEnd, ghost sends: nat, env: Env, resumed: bool,
      ghost w0: Withdrawal, ghost from: Withdrawal)
    returns (result: Result, ghost w: Withdrawal)
    requires store.file.Valid() && store.file.Holds(key) == from.slot && Reaches(w0, from)
    requires from.at.Posting? && from.at.resumed == resumed
    modifies store.file
    ensures store.file.Valid() && store.file.Holds(key) == w.slot && Reaches(w0, w) && w.at == Idle
    ensures forall other :: other != key ==> store.file.Holds(other) == old(store.file.Holds(other))
    // A transient failure keeps the record for a replay; a permanent one drops an unsigned record.
    ensures end == TransientError ==> result == Failed && w.slot == from.slot
    ensures PostsInARow(from.log, w.log, sends, from.at.request, from.at.credential)
    ensures end == PermanentError && env.removes && IsSealed(from.slot) && from.slot.value.record.state == Requested ==>
      result == Failed && w.slot == None
    ensures result.Paid? ==> env.signed == Some(result.bytes) && Accepted(result.bytes) in w.log
  {
    w := Posts(w0, from, sends);
    match end
    case TransientError =>
      ReachesMore(w0, w, Fails);
      w := Step(w, Fails);
      result := Failed;
    case PermanentError =>
      ReachesMore(w0, w, Rejected);
      w := Step(w, Rejected);
      if resumed {
        w := RemoveQuietly(store, key, env.removes, w0, w);
      } else {
        w := DiscardIfUnsigned(store, key, w0, w);
      }
      result := Failed;
    case Wired(wire) =>
      ReachesMore(w0, w, Answers(wire));
      w := Step(w, Answers(wire));
      result, w := ProcessWithdrawResponse(store, key, wire, env, w0, w);
  }

  // withdraw: the request is in the store before the first POST.
  method Pay(store: PendingWithdrawals, key: string, request: Body, credential: Credential, end: PostEnd, ghost sends: nat, env: Env)
    returns (result: Result, ghost w: Withdrawal)
    requires store.file.Valid() && store.file.Holds(key) == None
    modifies store.file
    ensures store.file.Valid() && store.file.Holds(key) == w.slot && w.at == Idle
    ensures forall other :: other != key ==> store.file.Holds(other) == old(store.file.Holds(other))
    ensures Reaches(Act(UNUSED, Withdraw(request, credential)), w)
    ensures w.log != [] && w.log[0].Persisted? && w.log[0].record.request == request
    ensures PostsInARow([w.log[0]], w.log, sends, request, credential)
    ensures end == TransientError ==>
      && result == Failed && IsSealed(w.slot)
      && var record := w.slot.value.record;
         && record.request == request && record.state == Requested && record.signedTx == None
         && record.keyMode == Some(credential.mode) && record.keyFingerprint == Some(credential.fingerprint)
    ensures result.Paid? ==> env.signed == Some(result.bytes) && Accepted(result.bytes) in w.log
  {
    store.PutRequested(key, request, Some(credential.mode), Some(credential.fingerprint));
    ghost var w0 := Act(UNUSED, Withdraw(request, credential));
    ReachesItself(w0);
    result, w := PostAndProcess(store, key, end, sends, env, false, w0, w0);
  }

  // One record of a resume pass: stored bytes are broadcast again, a request is POSTed again
  // under its own key, and nothing else is done.
  method ResumeRecord(
      store: PendingWithdrawals, key: string, record: Record, active: Option<Credential>, end: PostEnd, ghost sends: nat, env: Env,
      ghost from: Withdrawal)
    returns (result: Result, ghost w: Withdrawal)
    requires store.file.Valid() && store.file.Holds(key) == from.slot
    requires CanAct(from, Resume(active)) && from.slot.value.record == record
    modifies store.file
    ensures store.file.Valid() && store.file.Holds(key) == w.slot && w.at == Idle
    ensures forall other :: other != key ==> store.file.Holds(other) == old(store.file.Holds(other))
    ensures Reaches(Act(from, Resume(active)), w)
    ensures record.state == Signed && record.signedTx.Some? ==>
      if env.goesOut && env.accepted then result == Paid(record.signedTx.value) && (env.removes ==> w.slot == None)
      else result == Failed && w.slot == from.slot
    ensures record.state == Requested && !MayReplay(record, active) ==> result == Untouched && w == from
    ensures record.state == Requested && MayReplay(record, active) ==>
      && PostsInARow(from.log, w.log, sends, record.request, active.value)
      && (end == TransientError ==> result == Failed && w.slot == from.slot)
      && (end == PermanentError && env.removes ==> result == Failed && w.slot == None)
  {
    ghost var w0 := Act(from, Resume(active));
    ReachesItself(w0);
    if record.state == Signed {
      if record.signedTx.None? { return Untouched, w0; }
      var accepted;
      accepted, w := BroadcastAndRemove(store, key, record.signedTx.value, env, w0, w0);
      return if accepted then Paid(record.signedTx.value) else Failed, w;
    }
    if active.None? || IsOtherKey(record, active.value) { return Untouched, w0; }
    result, w := PostAndProcess(store, key, end, sends, env, true, w0, w0);
  }
}
