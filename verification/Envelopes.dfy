// The encrypted record files (src/wallet-engine/convert/plan-store.ts and
// src/wallet-engine/pending.ts): a list of independently encrypted envelopes, one per id,
// which every operation reads, changes and rewrites under a mutex.
module Envelopes {
  import opened Options

  // An encrypted record either authenticates, and then holds exactly what was sealed, or
  // does not.
  datatype Envelope<T> = Sealed(record: T) | Tampered

  // What a file holds under one id.
  type Slot<T> = Option<Envelope<T>>

  predicate IsSealed<T>(slot: Slot<T>) { slot.Some? && slot.value.Sealed? }

  predicate IsTampered<T>(slot: Slot<T>) { slot.Some? && slot.value.Tampered? }

  // What a slot holds once its record was rewritten; only an authentic record can be.
  function Patch<T>(slot: Slot<T>, mutate: T -> T): Slot<T> {
    if IsSealed(slot) then Some(Sealed(mutate(slot.value.record))) else slot
  }

  // ----- the file ---------------------------------------------------------------------------------

  // What a file with these records holds under `id`.
  function Lookup<T>(ids: seq<string>, envelopes: seq<Envelope<T>>, id: string): Slot<T>
    requires |ids| == |envelopes|
  {
    if ids == [] then None
    else if ids[0] == id then Some(envelopes[0])
    else Lookup(ids[1..], envelopes[1..], id)
  }

  predicate Distinct(ids: seq<string>) { forall i, j :: 0 <= i < j < |ids| ==> ids[i] != ids[j] }

  lemma {:induction false} LookupFinds<T>(ids: seq<string>, envelopes: seq<Envelope<T>>)
    requires |ids| == |envelopes| && Distinct(ids)
    ensures forall i :: 0 <= i < |ids| ==> Lookup(ids, envelopes, ids[i]) == Some(envelopes[i])
    ensures forall id :: id !in ids ==> Lookup(ids, envelopes, id) == None
  {
    if ids != [] {
      LookupFinds(ids[1..], envelopes[1..]);
      forall i | 0 <= i < |ids| ensures Lookup(ids, envelopes, ids[i]) == Some(envelopes[i]) {
        if i > 0 { assert ids[1..][i-1] == ids[i] && envelopes[1..][i-1] == envelopes[i]; }
      }
    }
  }

  // What a reader of the whole file acts upon: the records that authenticate, in file order.
  function Authentic<T>(envelopes: seq<Envelope<T>>): seq<T> {
    if envelopes == [] then []
    else
      var last := envelopes[|envelopes|-1];
      Authentic(envelopes[..|envelopes|-1]) + (if last.Sealed? then [last.record] else [])
  }

  // ... and the ids of the records that do not.
  function Unauthentic<T>(ids: seq<string>, envelopes: seq<Envelope<T>>): seq<string>
    requires |ids| == |envelopes|
  {
    if ids == [] then []
    else
      Unauthentic(ids[..|ids|-1], envelopes[..|ids|-1]) + (if envelopes[|ids|-1].Tampered? then [ids[|ids|-1]] else [])
  }

  // Every record that is read was sealed under some id; a tampered id is exactly one that
  // holds a tampered record.
  lemma {:induction false} ReadersSeeTheFile<T>(ids: seq<string>, envelopes: seq<Envelope<T>>)
    requires |ids| == |envelopes| && Distinct(ids)
    ensures forall r :: r in Authentic(envelopes) ==> exists i :: 0 <= i < |ids| && Lookup(ids, envelopes, ids[i]) == Some(Sealed(r))
    ensures forall id :: id in Unauthentic(ids, envelopes) <==> IsTampered(Lookup(ids, envelopes, id))
  {
    LookupFinds(ids, envelopes);
    AuthenticAreSealed(envelopes);
    UnauthenticAreTampered(ids, envelopes);
    forall id ensures id in Unauthentic(ids, envelopes) <==> IsTampered(Lookup(ids, envelopes, id)) {
      if id in ids { var i :| 0 <= i < |ids| && ids[i] == id; }
    }
  }

  lemma {:induction false} AuthenticAreSealed<T>(envelopes: seq<Envelope<T>>)
    ensures forall r :: r in Authentic(envelopes) ==> exists i :: 0 <= i < |envelopes| && envelopes[i] == Sealed(r)
  {
    if envelopes != [] {
      var front := envelopes[..|envelopes|-1];
      AuthenticAreSealed(front);
      forall r | r in Authentic(envelopes) ensures exists i :: 0 <= i < |envelopes| && envelopes[i] == Sealed(r) {
        if r in Authentic(front) {
          var i :| 0 <= i < |front| && front[i] == Sealed(r);
          assert envelopes[i] == Sealed(r);
        } else {
          assert envelopes[|envelopes|-1] == Sealed(r);
        }
      }
    }
  }

  lemma {:induction false} UnauthenticAreTampered<T>(ids: seq<string>, envelopes: seq<Envelope<T>>)
    requires |ids| == |envelopes|
    ensures forall id :: id in Unauthentic(ids, envelopes) <==> exists i :: 0 <= i < |ids| && ids[i] == id && envelopes[i].Tampered?
  {
    if ids != [] {
      var n := |ids| - 1;
      UnauthenticAreTampered(ids[..n], envelopes[..n]);
      forall id ensures id in Unauthentic(ids, envelopes) <==> exists i :: 0 <= i < |ids| && ids[i] == id && envelopes[i].Tampered? {
        if id in Unauthentic(ids[..n], envelopes[..n]) {
          var i :| 0 <= i < n && ids[..n][i] == id && envelopes[..n][i].Tampered?;
          assert ids[i] == id && envelopes[i].Tampered?;
        }
        if exists i :: 0 <= i < |ids| && ids[i] == id && envelopes[i].Tampered? {
          var i :| 0 <= i < |ids| && ids[i] == id && envelopes[i].Tampered?;
          if i < n { assert ids[..n][i] == id && envelopes[..n][i].Tampered?; }
        }
      }
    }
  }

  class EnvelopeFile<T> {
    // The records of the file, in file order.
    var ids: seq<string>
    var envelopes: seq<Envelope<T>>

    ghost predicate Valid()
      reads this
    {
      |ids| == |envelopes| && Distinct(ids)
    }

    // The file as a function of the id.
    ghost function Holds(id: string): Slot<T>
      reads this
      requires Valid()
    {
      Lookup(ids, envelopes, id)
    }

    constructor ()
      ensures Valid() && forall id :: Holds(id) == None
    {
      ids, envelopes := [], [];
    }

    method Find(id: string) returns (at: int)
      requires Valid()
      ensures -1 <= at < |ids|
      ensures at >= 0 ==> ids[at] == id && Holds(id) == Some(envelopes[at])
      ensures at == -1 ==> id !in ids && Holds(id) == None
    {
      LookupFinds(ids, envelopes);
      at := 0;
      while at < |ids|
        invariant 0 <= at <= |ids|
        invariant id !in ids[..at]
      {
        if ids[at] == id { return; }
        at := at + 1;
      }
      assert ids[..|ids|] == ids;
      at := -1;
    }

    // Whatever the id held before is dropped, and the record becomes the last of the file.
    method PutRecord(id: string, record: T)
      requires Valid()
      modifies this
      ensures Valid()
      ensures Holds(id) == Some(Sealed(record))
      ensures forall other :: other != id ==> Holds(other) == old(Holds(other))
    {
      RemoveRecord(id);
      label Removed:
      LookupFinds(ids, envelopes);
      ids := ids + [id];
      envelopes := envelopes + [Sealed(record)];
      LookupFinds(ids, envelopes);
      assert ids[|ids|-1] == id && envelopes[|ids|-1] == Sealed(record);
      forall other | other != id ensures Holds(other) == old@Removed(Holds(other)) {
        if other in ids {
          var i :| 0 <= i < |ids| && ids[i] == other;
          assert old@Removed(ids)[i] == other;
        }
      }
    }

    method PatchRecord(id: string, mutate: T -> T) returns (authentic: bool)
      requires Valid()
      modifies this
      ensures Valid()
      ensures authentic == !IsTampered(old(Holds(id)))
      ensures Holds(id) == Patch(old(Holds(id)), mutate)
      ensures IsSealed(old(Holds(id))) ==> Holds(id) == Some(Sealed(mutate(old(Holds(id)).value.record)))
      ensures !IsSealed(old(Holds(id))) ==> Holds(id) == old(Holds(id))
      ensures forall other :: other != id ==> Holds(other) == old(Holds(other))
    {
      var at := Find(id);
      if at == -1 { return true; }
      if envelopes[at].Tampered? { return false; }
      Replace(at, Sealed(mutate(envelopes[at].record)));
      authentic := true;
    }

    method RemoveRecord(id: string)
      requires Valid()
      modifies this
      ensures Valid() && id !in ids
      ensures Holds(id) == None
      ensures forall other :: other != id ==> Holds(other) == old(Holds(other))
    {
      var at := Find(id);
      LookupFinds(ids, envelopes);
      if at == -1 { return; }
      ids := ids[..at] + ids[at+1..];
      envelopes := envelopes[..at] + envelopes[at+1..];
      LookupFinds(ids, envelopes);
      forall other | other != id ensures Holds(other) == old(Holds(other)) {
        if other in old(ids) {
          var i :| 0 <= i < |old(ids)| && old(ids)[i] == other;
          assert ids[if i < at then i else i - 1] == other;
        }
      }
    }

    // Rewrites the record at one position.
    method Replace(at: nat, envelope: Envelope<T>)
      requires Valid() && at < |ids|
      modifies this`envelopes
      ensures Valid() && Holds(ids[at]) == Some(envelope)
      ensures forall other :: other != ids[at] ==> Holds(other) == old(Holds(other))
    {
      LookupFinds(ids, envelopes);
      envelopes := envelopes[at := envelope];
      LookupFinds(ids, envelopes);
      forall other | other != ids[at] ensures Holds(other) == old(Holds(other)) {
        if other in ids {
          var i :| 0 <= i < |ids| && ids[i] == other;
        }
      }
    }

    // Decrypts one record; a tampered one is an error, not an answer.
    method Get(id: string) returns (record: Option<T>, authentic: bool)
      requires Valid()
      ensures authentic == !IsTampered(Holds(id))
      ensures record.Some? <==> IsSealed(Holds(id))
      ensures record.Some? ==> Holds(id) == Some(Sealed(record.value))
    {
      var at := Find(id);
      if at == -1 { return None, true; }
      if envelopes[at].Tampered? { return None, false; }
      return Some(envelopes[at].record), true;
    }

    // Decrypts every record; the tampered ones are collected instead of aborting.
    method ReadAll() returns (records: seq<T>, tamperedIds: seq<string>)
      requires Valid()
      ensures records == Authentic(envelopes)
      ensures tamperedIds == Unauthentic(ids, envelopes)
    {
      records, tamperedIds := [], [];
      for k := 0 to |ids|
        invariant records == Authentic(envelopes[..k])
        invariant tamperedIds == Unauthentic(ids[..k], envelopes[..k])
      {
        assert envelopes[..k+1][..k] == envelopes[..k] && ids[..k+1][..k] == ids[..k];
        match envelopes[k]
        case Sealed(record) => records := records + [record];
        case Tampered => tamperedIds := tamperedIds + [ids[k]];
      }
      assert envelopes[..|ids|] == envelopes && ids[..|ids|] == ids;
    }
  }
}
