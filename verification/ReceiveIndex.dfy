// Fresh receive indexes (src/wallet-engine/wallet.ts, getReceiveAddress and
// deriveDepixPayCredential without an explicit index; src/wallet-engine/store/seed-store.ts,
// setNextReceiveIndex). The operation mutex runs one allocation at a time, so any
// interleaving of callers is a sequence of allocations.
module ReceiveIndex {
  import opened Options

  // Where an allocation stops short of handing its index out, if it does.
  datatype Fault = NoFault | BeforePersist | AfterPersist | DerivationFails

  function Max(a: nat, b: nat): nat { if a < b then b else a }

  class IndexAllocator {
    // The persisted counter, and the wallet file as this process last read it.
    var persisted: nat
    var cached: nat
    // Every index ever handed out, by any caller of any process so far.
    ghost var handedOut: seq<nat>

    ghost predicate Valid()
      reads this
    {
      && cached <= persisted
      && (forall i :: 0 <= i < |handedOut| ==> handedOut[i] < cached)
      && (forall i, j :: 0 <= i < j < |handedOut| ==> handedOut[i] < handedOut[j])
    }

    constructor ()
      ensures Valid() && handedOut == [] && persisted == 0
    {
      persisted, cached, handedOut := 0, 0, [];
    }

    // Raises the persisted counter, or leaves it.
    method SetNextReceiveIndex(next: nat)
      modifies this`persisted
      ensures persisted == Max(old(persisted), next)
    {
      persisted := Max(persisted, next);
    }

    // Allocates max(last unused, next), persists the counter above it, re-reads the wallet
    // file, and only then hands the index out.
    method Allocate(lastUnused: nat, fault: Fault) returns (index: Option<nat>)
      requires Valid()
      modifies this
      ensures Valid() && persisted >= old(persisted)
      ensures fault == NoFault <==> index.Some?
      ensures index.Some? ==>
        && handedOut == old(handedOut) + [index.value]
        && index.value >= lastUnused && index.value < persisted
        && forall earlier :: earlier in old(handedOut) ==> earlier < index.value
      ensures index.None? ==> handedOut == old(handedOut)
      // No index is passed over: the next one is the counter's, unless the chain has used it.
      ensures index.Some? ==> index.value == (if lastUnused > old(cached) then lastUnused else old(cached))
      ensures index.Some? && old(persisted) <= index.value ==> persisted == cached == index.value + 1
    {
      var next := cached;
      var candidate := Max(lastUnused, next);
      if fault == BeforePersist { return None; }
      SetNextReceiveIndex(candidate + 1);
      if fault == AfterPersist { return None; }
      cached := persisted;
      if fault == DerivationFails { return None; }
      handedOut := handedOut + [candidate];
      return Some(candidate);
    }

    // A restart reads the counter from disk again.
    method Reopen()
      requires Valid()
      modifies this`cached
      ensures Valid() && cached == persisted && handedOut == old(handedOut)
    {
      cached := persisted;
    }
  }
}
