// enumerateRoutes (routes.ts) and the choice of one route (intent.ts resolveSingleRoute).
module Enumeration {
  import opened Options
  import opened Routes
  import opened RouteIds

  // What a listing of the routes of an intent must be: exactly the candidates, in order.
  ghost predicate Enumerates(rails: Rails, sel: Selector, routes: seq<Route>) {
    && (forall legs :: IsCandidate(rails, sel, legs) <==> BuildRoute(legs) in routes)
    && (forall r :: r in routes ==> r == BuildRoute(r.legs))
    && Sorted(routes)
  }

  predicate Distinct<T(==)>(xs: seq<T>) { forall i, j :: 0 <= i < j < |xs| ==> xs[i] != xs[j] }

  predicate StartsOn(sel: Selector, leg: Leg) { sel.fromNetwork.None? || leg.fromNetwork == sel.fromNetwork.value }

  // What can start a chain that brings this asset in from outside, narrowed to one origin if asked.
  method EntryLegs(rails: Rails, from: Asset, fromNetwork: Option<Network>) returns (legs: seq<Leg>)
    requires ValidRails(rails)
    ensures forall l :: l in legs <==> IsEntryLeg(rails, l) && l.from == from && (fromNetwork.None? || l.fromNetwork == fromNetwork.value)
    ensures Distinct(legs)
  {
    legs := [];
    if from == BTC {
      if fromNetwork.None? || fromNetwork.value == Bitcoin { legs := legs + [PegInLeg()]; }
      if fromNetwork.None? || fromNetwork.value == Lightning { legs := legs + [ReceiveLightningLeg()]; }
      return;
    }
    if from == USDT {
      if fromNetwork.Some? {
        if fromNetwork.value in rails.shift { legs := [ShiftReceiveLeg(fromNetwork.value)]; }
        return;
      }
      for k := 0 to |rails.shift|
        invariant forall l :: l in legs <==> l.fromNetwork in rails.shift[..k] && l == ShiftReceiveLeg(l.fromNetwork)
        invariant Distinct(legs)
      {
        legs := legs + [ShiftReceiveLeg(rails.shift[k])];
      }
    }
  }

  // What can end a chain: the legs whose output is this asset there.
  method ExitLegs(rails: Rails, to: Asset, network: Network) returns (legs: seq<Leg>)
    ensures forall l :: l in legs <==> IsExitLeg(rails, l) && l.to == to && l.network == network
    ensures Distinct(legs)
  {
    legs := [];
    if to == BTC && network == Bitcoin { legs := legs + [PegOutLeg()]; }
    if to == BTC && network == Lightning { legs := legs + [PayLightningLeg()]; }
    if (to == USDC || to == USDT) && (to, network) in rails.variants { legs := legs + [ToStablecoinLeg(to, network)]; }
    if to == USDT && network in rails.shift { legs := legs + [ShiftSendLeg(network)]; }
  }

  // Whether the intent spends Liquid holdings, by the test the code makes.
  predicate FromHoldings(sel: Selector) {
    IsLiquidAsset(sel.from) && (sel.fromNetwork.None? || sel.fromNetwork.value == Liquid)
  }

  // A chain that takes the origin of `sel` to holding `pivot` on Liquid: nothing, a market
  // leg, an entry leg, or an entry leg and a market leg.
  ghost predicate Reaches(rails: Rails, sel: Selector, pivot: Asset, prefix: seq<Leg>) {
    if FromHoldings(sel) then
      prefix == (if sel.from == pivot then [] else [MarketLeg(sel.from, pivot)])
    else
      && prefix != []
      && IsEntryLeg(rails, prefix[0]) && prefix[0].from == sel.from && StartsOn(sel, prefix[0])
      && prefix == (if prefix[0].to == pivot then [prefix[0]] else [prefix[0], MarketLeg(prefix[0].to, pivot)])
  }

  method ReachPivot(rails: Rails, sel: Selector, pivot: Asset) returns (chains: seq<seq<Leg>>)
    requires ValidRails(rails)
    ensures forall c :: c in chains <==> Reaches(rails, sel, pivot, c)
    ensures Distinct(chains)
  {
    if FromHoldings(sel) {
      chains := if sel.from == pivot then [[]] else [[MarketLeg(sel.from, pivot)]];
      return;
    }
    var entries := EntryLegs(rails, sel.from, sel.fromNetwork);
    chains := [];
    for k := 0 to |entries|
      invariant |chains| == k
      invariant forall j :: 0 <= j < k ==> chains[j] != [] && chains[j][0] == entries[j] && Reaches(rails, sel, pivot, chains[j])
    {
      var entry := entries[k];
      chains := chains + [if entry.to == pivot then [entry] else [entry, MarketLeg(entry.to, pivot)]];
    }
    forall c | Reaches(rails, sel, pivot, c) ensures c in chains {
      assert c[0] in entries;
      var k :| 0 <= k < |entries| && entries[k] == c[0];
      assert chains[k] == c;
    }
  }

  // ----- the candidate set, case by case ---------------------------------------------------

  // Chains that leave Liquid: an exit leg after what it takes to hold its pivot.
  ghost predicate LeavesLiquid(rails: Rails, sel: Selector, legs: seq<Leg>) {
    && legs != []
    && var exit := legs[|legs|-1];
    && IsExitLeg(rails, exit) && exit.to == sel.to && exit.network == Destination(sel)
    && Reaches(rails, sel, exit.from, legs[..|legs|-1])
    && !(legs[0].from == exit.to && legs[0].fromNetwork == exit.network)
  }

  // Chains that end on Liquid.
  ghost predicate LandsOnLiquid(rails: Rails, sel: Selector, legs: seq<Leg>) {
    if IsInboundUsdt(sel) then |legs| == 1 && IsEntryLeg(rails, legs[0]) && legs[0].from == USDT
    else legs != [] && Reaches(rails, sel, sel.to, legs)
  }

  predicate EndsOnLiquid(sel: Selector) { Destination(sel) == Liquid && IsLiquidAsset(sel.to) }

  lemma ChainByLength(legs: seq<Leg>)
    ensures |legs| == 1 ==> legs == [legs[0]]
    ensures |legs| == 2 ==> legs == [legs[0], legs[1]]
    ensures |legs| == 3 ==> legs == [legs[0], legs[1], legs[2]]
  {
  }

  lemma LandingChains(rails: Rails, sel: Selector, legs: seq<Leg>)
    requires ValidRails(rails) && EndsOnLiquid(sel)
    ensures IsCandidate(rails, sel, legs) <==> LandsOnLiquid(rails, sel, legs)
  {
    ChainByLength(legs);
    if IsCandidate(rails, sel, legs) {
      LandingCandidate(rails, sel, legs);
    }
  }

  lemma LandingCandidate(rails: Rails, sel: Selector, legs: seq<Leg>)
    requires ValidRails(rails) && EndsOnLiquid(sel) && IsCandidate(rails, sel, legs)
    ensures LandsOnLiquid(rails, sel, legs)
  {
    CandidatesHaveRouteShape(rails, sel, legs);
    assert forall i :: 0 <= i < |legs| ==> IsOffered(rails, legs[i]);
    assert |legs| >= 2 ==> Rank(legs[0]) < Rank(legs[1]);
  }

  predicate Joins(a: Leg, b: Leg) { a.to == b.from && a.network == b.fromNetwork && Rank(a) < Rank(b) }

  predicate SpansIntent(sel: Selector, first: Leg, last: Leg) {
    && first.from == sel.from && MayStartOn(sel, first.fromNetwork)
    && last.to == sel.to && last.network == Destination(sel)
    && !(first.from == sel.to && first.fromNetwork == Destination(sel))
  }

  lemma PairIsCandidate(rails: Rails, sel: Selector, a: Leg, b: Leg)
    requires IsOffered(rails, a) && IsOffered(rails, b) && Joins(a, b) && SpansIntent(sel, a, b)
    ensures IsCandidate(rails, sel, [a, b])
  {
  }

  lemma TripleIsCandidate(rails: Rails, sel: Selector, a: Leg, b: Leg, c: Leg)
    requires IsOffered(rails, a) && IsOffered(rails, b) && IsOffered(rails, c)
    requires Joins(a, b) && Joins(b, c) && SpansIntent(sel, a, c)
    ensures IsCandidate(rails, sel, [a, b, c])
  {
  }

  lemma HoldingsChains(rails: Rails, sel: Selector, prefix: seq<Leg>, exit: Leg)
    requires ValidRails(rails) && FromHoldings(sel) && Reaches(rails, sel, exit.from, prefix) && IsExitLeg(rails, exit)
    requires SpansIntent(sel, (prefix + [exit])[0], exit)
    ensures IsCandidate(rails, sel, prefix + [exit])
  {
    if sel.from == exit.from {
      assert prefix + [exit] == [exit];
    } else {
      var market := MarketLeg(sel.from, exit.from);
      assert prefix + [exit] == [market, exit];
      PairIsCandidate(rails, sel, market, exit);
    }
  }

  lemma ExternalChains(rails: Rails, sel: Selector, prefix: seq<Leg>, exit: Leg)
    requires ValidRails(rails) && !FromHoldings(sel) && Reaches(rails, sel, exit.from, prefix) && IsExitLeg(rails, exit)
    requires SpansIntent(sel, (prefix + [exit])[0], exit)
    ensures IsCandidate(rails, sel, prefix + [exit])
  {
    var entry := prefix[0];
    if entry.to == exit.from {
      assert prefix + [exit] == [entry, exit];
      PairIsCandidate(rails, sel, entry, exit);
    } else {
      var market := MarketLeg(entry.to, exit.from);
      assert prefix + [exit] == [entry, market, exit];
      TripleIsCandidate(rails, sel, entry, market, exit);
    }
  }

  lemma LeavingChainsStartRight(rails: Rails, sel: Selector, legs: seq<Leg>)
    requires ValidRails(rails) && !EndsOnLiquid(sel) && LeavesLiquid(rails, sel, legs)
    ensures SpansIntent(sel, legs[0], legs[|legs|-1])
  {
    if |legs| > 1 { assert legs[..|legs|-1][0] == legs[0]; }
  }

  lemma LeavingChainsAreCandidates(rails: Rails, sel: Selector, legs: seq<Leg>)
    requires ValidRails(rails) && !EndsOnLiquid(sel) && LeavesLiquid(rails, sel, legs)
    ensures IsCandidate(rails, sel, legs)
  {
    LeavingChainsStartRight(rails, sel, legs);
    var exit := legs[|legs|-1];
    var prefix := legs[..|legs|-1];
    assert legs == prefix + [exit];
    if FromHoldings(sel) {
      HoldingsChains(rails, sel, prefix, exit);
    } else {
      ExternalChains(rails, sel, prefix, exit);
    }
  }

  lemma CandidatesLeave(rails: Rails, sel: Selector, legs: seq<Leg>)
    requires ValidRails(rails) && !EndsOnLiquid(sel) && IsCandidate(rails, sel, legs)
    ensures LeavesLiquid(rails, sel, legs)
  {
    CandidatesHaveRouteShape(rails, sel, legs);
    ChainByLength(legs);
    var n := |legs|;
    var exit := legs[n-1];
    assert IsOffered(rails, exit);
    assert IsExitLeg(rails, exit);
    var prefix := legs[..n-1];
    assert IsOffered(rails, legs[0]);
    if n == 1 {
      assert prefix == [];
    } else if n == 2 {
      assert prefix == [legs[0]];
      assert Rank(legs[0]) < Rank(exit);
    } else {
      assert prefix == [legs[0], legs[1]];
      assert IsOffered(rails, legs[1]);
      assert Rank(legs[0]) < Rank(legs[1]) < Rank(exit);
    }
  }

  lemma LeavingChains(rails: Rails, sel: Selector, legs: seq<Leg>)
    requires ValidRails(rails) && !EndsOnLiquid(sel)
    ensures IsCandidate(rails, sel, legs) <==> LeavesLiquid(rails, sel, legs)
  {
    if IsCandidate(rails, sel, legs) { CandidatesLeave(rails, sel, legs); }
    if LeavesLiquid(rails, sel, legs) { LeavingChainsAreCandidates(rails, sel, legs); }
  }

  // ----- the enumeration ---------------------------------------------------------------------

  // The routes of a list of chains, one per chain.
  ghost predicate Builds(found: seq<Route>, chains: seq<seq<Leg>>) {
    && |found| == |chains|
    && (forall k :: 0 <= k < |found| ==> found[k] == BuildRoute(chains[k]))
  }

  lemma CandidatesCarryTheirCustody(rails: Rails, sel: Selector, legs: seq<Leg>)
    requires IsCandidate(rails, sel, legs)
    ensures forall i :: 0 <= i < |legs| ==> CustodialMatches(legs[i])
  {
    forall i | 0 <= i < |legs| ensures CustodialMatches(legs[i]) { assert IsOffered(rails, legs[i]); }
  }

  // No two candidates of one intent share an id.
  lemma CandidateIdsAreDistinct(rails: Rails, sel: Selector, legs: seq<Leg>, legs': seq<Leg>)
    requires IsCandidate(rails, sel, legs) && IsCandidate(rails, sel, legs')
    requires BuildRoute(legs).id == BuildRoute(legs').id
    ensures legs == legs'
  {
    CandidatesCarryTheirCustody(rails, sel, legs);
    CandidatesCarryTheirCustody(rails, sel, legs');
    RouteIdIsInjective(legs, legs');
  }

  // The sort of enumerateRoutes. Routes with distinct ids have one sorted order, so it does not
  // matter that the code leaves the algorithm to its runtime.
  method SortRoutes(found: seq<Route>) returns (routes: seq<Route>)
    requires forall i, j :: 0 <= i < j < |found| ==> found[i].id != found[j].id
    ensures Sorted(routes)
    ensures forall r :: r in routes <==> r in found
  {
    routes := [];
    for k := 0 to |found|
      invariant Sorted(routes)
      invariant forall r :: r in routes <==> r in found[..k]
    {
      var r := found[k];
      var p := 0;
      while p < |routes| && RouteLess(routes[p], r)
        invariant 0 <= p <= |routes|
        invariant forall q :: 0 <= q < p ==> RouteLess(routes[q], r)
      {
        p := p + 1;
      }
      forall q | p <= q < |routes| ensures RouteLess(r, routes[q]) {
        assert routes[p] in found[..k];
        RouteLessIsTotal(routes[p], r);
        if q > p { RouteLessIsTransitive(r, routes[p], routes[q]); }
      }
      ghost var was := routes;
      routes := routes[..p] + [r] + routes[p..];
      assert found[..k+1] == found[..k] + [r];
      assert forall x :: x in was <==> x in was[..p] || x in was[p..];
    }
    assert found[..|found|] == found;
  }

  // The route goes from and to what was asked for: to Liquid if no network was named, from this
  // wallet's holdings if it has the asset and no origin was named.
  predicate RunsAsAsked(sel: Selector, legs: seq<Leg>) {
    && legs != [] && legs[0].from == sel.from && legs[|legs|-1].to == sel.to
    && legs[|legs|-1].network == (if sel.network == None then Liquid else sel.network.value)
    && (sel.fromNetwork.Some? ==> legs[0].fromNetwork == sel.fromNetwork.value)
    && (sel.fromNetwork.None? && (sel.from == DEPIX || sel.from == LBTC || (sel.from == USDT && sel.to != USDT)) ==>
          legs[0].fromNetwork == Liquid)
    && (sel.fromNetwork.None? && (sel.from == BTC || sel.from == USDC) ==> legs[0].fromNetwork != Liquid)
  }

  lemma CandidateRunsAsAsked(rails: Rails, sel: Selector, legs: seq<Leg>)
    requires IsCandidate(rails, sel, legs)
    ensures RunsAsAsked(sel, legs)
  {
  }

  lemma ListsCandidates(rails: Rails, sel: Selector, found: seq<Route>, chains: seq<seq<Leg>>, routes: seq<Route>)
    requires Builds(found, chains) && Sorted(routes)
    requires forall legs :: legs in chains <==> IsCandidate(rails, sel, legs)
    requires forall r :: r in routes <==> r in found
    ensures Enumerates(rails, sel, routes)
  {
    forall legs ensures IsCandidate(rails, sel, legs) <==> BuildRoute(legs) in routes {
      if IsCandidate(rails, sel, legs) {
        var k :| 0 <= k < |chains| && chains[k] == legs;
        assert found[k] == BuildRoute(legs);
      }
      if BuildRoute(legs) in routes {
        var k :| 0 <= k < |found| && found[k] == BuildRoute(legs);
        assert chains[k] == legs;
      }
    }
  }

  method EnumerateRoutes(rails: Rails, sel: Selector) returns (routes: seq<Route>)
    requires ValidRails(rails)
    ensures Enumerates(rails, sel, routes)
    // What is listed of a route: its candidate chain, its hops, and whether SideShift takes part.
    ensures forall legs :: IsCandidate(rails, sel, legs) <==> exists r :: r in routes && r.legs == legs
    ensures forall r :: r in routes ==> r.hops == |r.legs| && r.id == RouteId(r.legs)
    ensures forall r :: r in routes ==> (r.custodial <==> exists i :: 0 <= i < |r.legs| && r.legs[i].provider == SideShift)
    ensures forall r :: r in routes ==> RunsAsAsked(sel, r.legs)
    // Fewer hops first, then routes without a custodian, then by id; no route twice.
    ensures forall i, j :: 0 <= i < j < |routes| ==>
      || routes[i].hops < routes[j].hops
      || (routes[i].hops == routes[j].hops && !routes[i].custodial && routes[j].custodial)
      || (routes[i].hops == routes[j].hops && routes[i].custodial == routes[j].custodial && Precedes(routes[i].id, routes[j].id))
  {
    var found: seq<Route> := [];
    ghost var chains: seq<seq<Leg>> := [];
    var network := Destination(sel);
    if network == Liquid && IsLiquidAsset(sel.to) {
      found, chains := LandingRoutes(rails, sel);
    } else {
      found, chains := LeavingRoutes(rails, sel);
    }
    forall i, j | 0 <= i < j < |found| ensures found[i].id != found[j].id {
      assert chains[i] in chains && chains[j] in chains;
      if found[i].id == found[j].id { CandidateIdsAreDistinct(rails, sel, chains[i], chains[j]); }
    }
    routes := SortRoutes(found);
    ListsCandidates(rails, sel, found, chains, routes);
    ListingReads(rails, sel, routes);
  }

  lemma CandidateCustody(rails: Rails, sel: Selector, legs: seq<Leg>)
    requires IsCandidate(rails, sel, legs)
    ensures BuildRoute(legs).custodial <==> exists i :: 0 <= i < |legs| && legs[i].provider == SideShift
  {
    CandidatesCarryTheirCustody(rails, sel, legs);
    forall i | 0 <= i < |legs| ensures legs[i].custodial <==> legs[i].provider == SideShift {
      assert CustodialMatches(legs[i]);
    }
  }

  // What a listing says of its routes and of their order.
  lemma ListingReads(rails: Rails, sel: Selector, routes: seq<Route>)
    requires Enumerates(rails, sel, routes)
    ensures forall legs :: IsCandidate(rails, sel, legs) <==> exists r :: r in routes && r.legs == legs
    ensures forall r :: r in routes ==> r.hops == |r.legs| && r.id == RouteId(r.legs)
    ensures forall r :: r in routes ==> RunsAsAsked(sel, r.legs)
    ensures forall r :: r in routes ==> (r.custodial <==> exists i :: 0 <= i < |r.legs| && r.legs[i].provider == SideShift)
    ensures forall i, j :: 0 <= i < j < |routes| ==>
      || routes[i].hops < routes[j].hops
      || (routes[i].hops == routes[j].hops && !routes[i].custodial && routes[j].custodial)
      || (routes[i].hops == routes[j].hops && routes[i].custodial == routes[j].custodial && Precedes(routes[i].id, routes[j].id))
  {
    forall legs ensures IsCandidate(rails, sel, legs) <==> exists r :: r in routes && r.legs == legs {
      if IsCandidate(rails, sel, legs) { assert BuildRoute(legs) in routes && BuildRoute(legs).legs == legs; }
    }
    forall r | r in routes ensures RunsAsAsked(sel, r.legs) { CandidateRunsAsAsked(rails, sel, r.legs); }
    forall r | r in routes ensures r.custodial <==> exists i :: 0 <= i < |r.legs| && r.legs[i].provider == SideShift {
      CandidateCustody(rails, sel, r.legs);
    }
    forall i, j | 0 <= i < j < |routes|
      ensures
        || routes[i].hops < routes[j].hops
        || (routes[i].hops == routes[j].hops && !routes[i].custodial && routes[j].custodial)
        || (routes[i].hops == routes[j].hops && routes[i].custodial == routes[j].custodial && Precedes(routes[i].id, routes[j].id))
    {
      StringLessIsPrecedes(routes[i].id, routes[j].id);
    }
  }

  // A landing chain that starts from outside is fixed by its entry leg.
  lemma EntryChainsAreCandidates(rails: Rails, sel: Selector, entries: seq<Leg>, chains: seq<seq<Leg>>)
    requires ValidRails(rails) && EndsOnLiquid(sel) && (IsInboundUsdt(sel) || !FromHoldings(sel))
    requires forall l :: l in entries <==> IsEntryLeg(rails, l) && l.from == sel.from && StartsOn(sel, l)
    requires |chains| == |entries|
    requires forall j :: 0 <= j < |chains| ==> LandsOnLiquid(rails, sel, chains[j]) && chains[j][0] == entries[j]
    ensures forall legs :: legs in chains <==> IsCandidate(rails, sel, legs)
  {
    forall legs ensures legs in chains <==> IsCandidate(rails, sel, legs) {
      LandingChains(rails, sel, legs);
      if LandsOnLiquid(rails, sel, legs) {
        assert legs[0] in entries;
        var k :| 0 <= k < |entries| && entries[k] == legs[0];
        assert chains[k] == legs;
      }
    }
  }

  // The branch of enumerateRoutes whose destination is Liquid.
  method LandingRoutes(rails: Rails, sel: Selector) returns (found: seq<Route>, ghost chains: seq<seq<Leg>>)
    requires ValidRails(rails) && EndsOnLiquid(sel)
    ensures Builds(found, chains) && Distinct(chains)
    ensures forall legs :: legs in chains <==> IsCandidate(rails, sel, legs)
  {
    found, chains := [], [];
    if FromHoldings(sel) {
      if sel.from != sel.to {
        found := [BuildRoute([MarketLeg(sel.from, sel.to)])];
        chains := [[MarketLeg(sel.from, sel.to)]];
      } else if sel.from == USDT && sel.fromNetwork.None? {
        var entries := EntryLegs(rails, USDT, None);
        for k := 0 to |entries|
          invariant |found| == |chains| == k
          invariant forall j :: 0 <= j < k ==> chains[j] == [entries[j]] && found[j] == BuildRoute(chains[j])
        {
          found := found + [BuildRoute([entries[k]])];
          chains := chains + [[entries[k]]];
        }
        EntryChainsAreCandidates(rails, sel, entries, chains);
        return;
      }
      forall legs ensures legs in chains <==> IsCandidate(rails, sel, legs) { LandingChains(rails, sel, legs); }
    } else {
      found, chains := ExternalLandingRoutes(rails, sel);
    }
  }

  // An entry leg, with a market leg after it when it lands another asset.
  function EntryChain(sel: Selector, entry: Leg): (chain: seq<Leg>)
    ensures chain != [] && chain[0] == entry
  {
    if entry.to == sel.to then [entry] else [entry, MarketLeg(entry.to, sel.to)]
  }

  lemma EntryChainLands(rails: Rails, sel: Selector, entry: Leg)
    requires ValidRails(rails) && EndsOnLiquid(sel) && !FromHoldings(sel)
    requires IsEntryLeg(rails, entry) && entry.from == sel.from && StartsOn(sel, entry)
    ensures LandsOnLiquid(rails, sel, EntryChain(sel, entry))
  {
  }

  // Chains that start outside and end with a holding of this wallet.
  method ExternalLandingRoutes(rails: Rails, sel: Selector) returns (found: seq<Route>, ghost chains: seq<seq<Leg>>)
    requires ValidRails(rails) && EndsOnLiquid(sel) && !FromHoldings(sel)
    ensures Builds(found, chains) && Distinct(chains)
    ensures forall legs :: legs in chains <==> IsCandidate(rails, sel, legs)
  {
    found, chains := [], [];
    var entries := EntryLegs(rails, sel.from, sel.fromNetwork);
    for k := 0 to |entries|
      invariant |found| == |chains| == k
      invariant forall j :: 0 <= j < k ==> found[j] == BuildRoute(chains[j]) && chains[j] == EntryChain(sel, entries[j])
    {
      var entry := entries[k];
      var chain := if entry.to == sel.to then [entry] else [entry, MarketLeg(entry.to, sel.to)];
      found := found + [BuildRoute(chain)];
      chains := chains + [chain];
    }
    forall j | 0 <= j < |chains| ensures LandsOnLiquid(rails, sel, chains[j]) && chains[j][0] == entries[j] {
      assert entries[j] in entries;
      EntryChainLands(rails, sel, entries[j]);
    }
    EntryChainsAreCandidates(rails, sel, entries, chains);
  }

  predicate IsRoundtrip(legs: seq<Leg>, exit: Leg)
    requires legs != []
  {
    legs[0].from == exit.to && legs[0].fromNetwork == exit.network
  }

  lemma PrefixThenExit(rails: Rails, sel: Selector, exit: Leg, prefix: seq<Leg>)
    requires IsExitLeg(rails, exit) && exit.to == sel.to && exit.network == Destination(sel)
    requires Reaches(rails, sel, exit.from, prefix)
    ensures LeavesLiquid(rails, sel, prefix + [exit]) <==> !IsRoundtrip(prefix + [exit], exit)
  {
    assert (prefix + [exit])[..|prefix + [exit]|-1] == prefix;
  }

  // The chains the inner loop keeps: each prefix followed by the exit, roundtrips dropped.
  function Kept(prefixes: seq<seq<Leg>>, exit: Leg): seq<seq<Leg>> {
    if prefixes == [] then []
    else
      var legs := prefixes[|prefixes|-1] + [exit];
      Kept(prefixes[..|prefixes|-1], exit) + (if IsRoundtrip(legs, exit) then [] else [legs])
  }

  lemma {:induction false} KeptMembers(prefixes: seq<seq<Leg>>, exit: Leg, c: seq<Leg>)
    ensures c in Kept(prefixes, exit) <==> c != [] && c[|c|-1] == exit && c[..|c|-1] in prefixes && !IsRoundtrip(c, exit)
  {
    if prefixes != [] {
      var rest, last := prefixes[..|prefixes|-1], prefixes[|prefixes|-1];
      KeptMembers(rest, exit, c);
      assert (last + [exit])[..|last|] == last;
      assert prefixes == rest + [last];
      if c != [] { assert c == c[..|c|-1] + [c[|c|-1]]; }
    }
  }

  lemma {:induction false} KeptDistinct(prefixes: seq<seq<Leg>>, exit: Leg)
    requires Distinct(prefixes)
    ensures Distinct(Kept(prefixes, exit))
  {
    if prefixes != [] {
      var rest, last := prefixes[..|prefixes|-1], prefixes[|prefixes|-1];
      KeptDistinct(rest, exit);
      KeptMembers(rest, exit, last + [exit]);
      assert (last + [exit])[..|last|] == last;
    }
  }

  lemma KeptLeaveLiquid(rails: Rails, sel: Selector, exit: Leg, prefixes: seq<seq<Leg>>, c: seq<Leg>)
    requires IsExitLeg(rails, exit) && exit.to == sel.to && exit.network == Destination(sel)
    requires forall x :: x in prefixes <==> Reaches(rails, sel, exit.from, x)
    ensures c in Kept(prefixes, exit) <==> LeavesLiquid(rails, sel, c) && c[|c|-1] == exit
  {
    KeptMembers(prefixes, exit, c);
    if c != [] && c[|c|-1] == exit && c[..|c|-1] in prefixes {
      assert c == c[..|c|-1] + [exit];
      PrefixThenExit(rails, sel, exit, c[..|c|-1]);
    }
  }

  // The inner loop: every way to reach the pivot of `exit`, then `exit`, roundtrips dropped.
  method RoutesThrough(rails: Rails, sel: Selector, exit: Leg, routes: seq<Route>, ghost before: seq<seq<Leg>>)
    returns (found: seq<Route>, ghost prefixes: seq<seq<Leg>>)
    requires ValidRails(rails) && Builds(routes, before)
    ensures Builds(found, before + Kept(prefixes, exit))
    ensures Distinct(prefixes) && forall x :: x in prefixes <==> Reaches(rails, sel, exit.from, x)
  {
    found := routes;
    var reached := ReachPivot(rails, sel, exit.from);
    prefixes := reached;
    for p := 0 to |reached|
      invariant Builds(found, before + Kept(reached[..p], exit))
    {
      assert reached[..p+1][..p] == reached[..p];
      var legs := reached[p] + [exit];
      var first := legs[0];
      if first.from == exit.to && first.fromNetwork == exit.network { continue; }
      found := found + [BuildRoute(legs)];
    }
    assert reached[..|reached|] == reached;
  }

  // `chains` are the chains that leave Liquid through one of `exits`.
  ghost predicate Covers(rails: Rails, sel: Selector, exits: seq<Leg>, chains: seq<seq<Leg>>) {
    && Distinct(chains)
    && (forall c :: c in chains <==> LeavesLiquid(rails, sel, c) && c[|c|-1] in exits)
  }

  lemma OneMoreExit(rails: Rails, sel: Selector, exits: seq<Leg>, exit: Leg, before: seq<seq<Leg>>, prefixes: seq<seq<Leg>>)
    requires IsExitLeg(rails, exit) && exit.to == sel.to && exit.network == Destination(sel)
    requires Distinct(prefixes) && forall x :: x in prefixes <==> Reaches(rails, sel, exit.from, x)
    requires Covers(rails, sel, exits, before) && exit !in exits
    ensures Covers(rails, sel, exits + [exit], before + Kept(prefixes, exit))
  {
    KeptDistinct(prefixes, exit);
    forall c ensures c in Kept(prefixes, exit) <==> LeavesLiquid(rails, sel, c) && c[|c|-1] == exit {
      KeptLeaveLiquid(rails, sel, exit, prefixes, c);
    }
  }

  lemma AllExitsCovered(rails: Rails, sel: Selector, exits: seq<Leg>, chains: seq<seq<Leg>>)
    requires ValidRails(rails) && !EndsOnLiquid(sel) && Covers(rails, sel, exits, chains)
    requires forall l :: l in exits <==> IsExitLeg(rails, l) && l.to == sel.to && l.network == Destination(sel)
    ensures forall legs :: legs in chains <==> IsCandidate(rails, sel, legs)
  {
    forall legs ensures legs in chains <==> IsCandidate(rails, sel, legs) { LeavingChains(rails, sel, legs); }
  }

  lemma NextOf(legs: seq<Leg>, e: nat)
    requires Distinct(legs) && e < |legs|
    ensures legs[e] !in legs[..e] && legs[..e+1] == legs[..e] + [legs[e]]
  {
  }

  // The branch of enumerateRoutes whose destination is external.
  method LeavingRoutes(rails: Rails, sel: Selector) returns (found: seq<Route>, ghost chains: seq<seq<Leg>>)
    requires ValidRails(rails) && !EndsOnLiquid(sel)
    ensures Builds(found, chains) && Distinct(chains)
    ensures forall legs :: legs in chains <==> IsCandidate(rails, sel, legs)
  {
    found, chains := [], [];
    var exits := ExitLegs(rails, sel.to, Destination(sel));
    for e := 0 to |exits|
      invariant Builds(found, chains)
      invariant Covers(rails, sel, exits[..e], chains)
    {
      var exit := exits[e];
      NextOf(exits, e);
      assert exit in exits;
      ghost var prefixes;
      found, prefixes := RoutesThrough(rails, sel, exit, found, chains);
      OneMoreExit(rails, sel, exits[..e], exit, chains, prefixes);
      chains := chains + Kept(prefixes, exit);
    }
    assert exits[..|exits|] == exits;
    AllExitsCovered(rails, sel, exits, chains);
  }

  // The listing is unique: any two listings of one intent's routes are equal.
  lemma EnumerationIsUnique(rails: Rails, sel: Selector, xs: seq<Route>, ys: seq<Route>)
    requires Enumerates(rails, sel, xs) && Enumerates(rails, sel, ys)
    ensures xs == ys
  {
    forall r ensures r in xs <==> r in ys {
      if r in xs { assert IsCandidate(rails, sel, r.legs); }
      if r in ys { assert IsCandidate(rails, sel, r.legs); }
    }
    SortedListingIsUnique(xs, ys);
  }

  // ----- the choice of one route -----------------------------------------------------------

  datatype Choice = Chosen(route: Route) | NoRoute | RouteNotFound | MultipleRoutes

  function WithId(routes: seq<Route>, id: string): seq<Route> {
    if routes == [] then []
    else (if routes[0].id == id then [routes[0]] else []) + WithId(routes[1..], id)
  }

  function SingleHops(routes: seq<Route>): seq<Route> {
    if routes == [] then []
    else (if routes[0].hops == 1 then [routes[0]] else []) + SingleHops(routes[1..])
  }

  function ResolveSingleRoute(routes: seq<Route>, requestedId: Option<string>): Choice {
    if routes == [] then NoRoute
    else match requestedId
      case Some(id) =>
        var found := WithId(routes, id);
        if found == [] then RouteNotFound else Chosen(found[0])
      case None =>
        var singleHop := SingleHops(routes);
        if |singleHop| == 1 then Chosen(singleHop[0])
        else if |routes| == 1 then Chosen(routes[0])
        else MultipleRoutes
  }

  lemma {:induction false} WithIdMembers(routes: seq<Route>, id: string)
    ensures forall r :: r in WithId(routes, id) <==> r in routes && r.id == id
  {
    if routes != [] {
      WithIdMembers(routes[1..], id);
      assert routes == [routes[0]] + routes[1..];
    }
  }

  lemma {:induction false} SingleHopsMembers(routes: seq<Route>)
    requires Sorted(routes)
    ensures forall r :: r in SingleHops(routes) <==> r in routes && r.hops == 1
    ensures Sorted(SingleHops(routes))
  {
    if routes != [] {
      SingleHopsMembers(routes[1..]);
      assert routes == [routes[0]] + routes[1..];
      assert forall r :: r in routes[1..] ==> RouteLess(routes[0], r);
      var rest := SingleHops(routes[1..]);
      assert forall k :: 0 <= k < |rest| ==> rest[k] in rest;
    }
  }

  // With an id, the chosen route is the one candidate that carries it.
  lemma RouteByIdIsUnambiguous(rails: Rails, sel: Selector, routes: seq<Route>, id: string, route: Route)
    requires Enumerates(rails, sel, routes)
    ensures ResolveSingleRoute(routes, Some(id)) == Chosen(route) <==>
      route == BuildRoute(route.legs) && IsCandidate(rails, sel, route.legs) && route.id == id
  {
    WithIdMembers(routes, id);
    var found := WithId(routes, id);
    if found != [] {
      assert found[0] in found;
      if route == BuildRoute(route.legs) && IsCandidate(rails, sel, route.legs) && route.id == id {
        CandidateIdsAreDistinct(rails, sel, route.legs, found[0].legs);
      }
    }
  }

  ghost predicate OnlySingleHop(rails: Rails, sel: Selector, legs: seq<Leg>) {
    && IsCandidate(rails, sel, legs) && |legs| == 1
    && forall other :: IsCandidate(rails, sel, other) && |other| == 1 ==> other == legs
  }

  ghost predicate OnlyCandidate(rails: Rails, sel: Selector, legs: seq<Leg>) {
    IsCandidate(rails, sel, legs) && forall other :: IsCandidate(rails, sel, other) ==> other == legs
  }

  lemma OneRoute(rails: Rails, sel: Selector, routes: seq<Route>, route: Route)
    requires Enumerates(rails, sel, routes)
    ensures |routes| == 1 && routes[0] == route <==> route == BuildRoute(route.legs) && OnlyCandidate(rails, sel, route.legs)
  {
    OneMember(routes);
    if |routes| == 1 && routes[0] == route {
      forall other | IsCandidate(rails, sel, other) ensures other == route.legs { assert BuildRoute(other) in routes; }
    }
    if route == BuildRoute(route.legs) && OnlyCandidate(rails, sel, route.legs) {
      forall x | x in routes ensures x == route { assert x == BuildRoute(x.legs); }
    }
  }

  lemma OneSingleHop(rails: Rails, sel: Selector, routes: seq<Route>, route: Route)
    requires Enumerates(rails, sel, routes)
    ensures |SingleHops(routes)| == 1 && SingleHops(routes)[0] == route <==>
      route == BuildRoute(route.legs) && OnlySingleHop(rails, sel, route.legs)
  {
    SingleHopsMembers(routes);
    var hops := SingleHops(routes);
    OneMember(hops);
    if |hops| == 1 && hops[0] == route {
      assert route in hops;
      forall other | IsCandidate(rails, sel, other) && |other| == 1 ensures other == route.legs {
        assert BuildRoute(other) in hops;
      }
    }
    if route == BuildRoute(route.legs) && OnlySingleHop(rails, sel, route.legs) {
      assert route in hops;
      forall x | x in hops ensures x == route { assert x == BuildRoute(x.legs); }
    }
  }

  // Without one, it is the only single-hop candidate or the only candidate.
  lemma UnaskedRouteIsUnambiguous(rails: Rails, sel: Selector, routes: seq<Route>, route: Route)
    requires Enumerates(rails, sel, routes)
    ensures ResolveSingleRoute(routes, None) == Chosen(route) <==>
      && route == BuildRoute(route.legs)
      && (OnlySingleHop(rails, sel, route.legs) || OnlyCandidate(rails, sel, route.legs))
  {
    OneRoute(rails, sel, routes, route);
    OneSingleHop(rails, sel, routes, route);
    SingleHopsMembers(routes);
    var hops := SingleHops(routes);
    if |hops| == 1 { assert hops[0] in hops; }
  }

  // When no route is chosen, and why.
  lemma RefusalsSayWhy(rails: Rails, sel: Selector, routes: seq<Route>, requestedId: Option<string>)
    requires Enumerates(rails, sel, routes)
    ensures
      var choice := ResolveSingleRoute(routes, requestedId);
      && (choice == NoRoute <==> forall legs :: !IsCandidate(rails, sel, legs))
      && (choice == RouteNotFound <==>
            && requestedId.Some? && (exists legs :: IsCandidate(rails, sel, legs))
            && forall legs :: IsCandidate(rails, sel, legs) ==> RouteId(legs) != requestedId.value)
      && (choice == MultipleRoutes <==>
            && requestedId.None? && (exists legs :: IsCandidate(rails, sel, legs))
            && forall legs :: !OnlySingleHop(rails, sel, legs) && !OnlyCandidate(rails, sel, legs))
  {
    if routes != [] {
      assert routes[0] in routes && IsCandidate(rails, sel, routes[0].legs);
      match requestedId
      case Some(id) =>
        WithIdMembers(routes, id);
        forall legs | IsCandidate(rails, sel, legs) ensures RouteId(legs) == id <==> BuildRoute(legs) in WithId(routes, id) {
          assert BuildRoute(legs) in routes;
        }
        if WithId(routes, id) != [] { assert WithId(routes, id)[0] in WithId(routes, id); }
      case None =>
        forall legs ensures OnlySingleHop(rails, sel, legs) || OnlyCandidate(rails, sel, legs) ==>
          ResolveSingleRoute(routes, None) == Chosen(BuildRoute(legs))
        {
          UnaskedRouteIsUnambiguous(rails, sel, routes, BuildRoute(legs));
        }
        if ResolveSingleRoute(routes, None).Chosen? {
          UnaskedRouteIsUnambiguous(rails, sel, routes, ResolveSingleRoute(routes, None).route);
        }
    } else {
      forall legs ensures !IsCandidate(rails, sel, legs) { assert BuildRoute(legs) !in routes; }
    }
  }

  // A sorted listing has one element exactly when all its elements are equal.
  lemma OneMember(routes: seq<Route>)
    requires Sorted(routes)
    ensures |routes| == 1 ==> routes == [routes[0]]
    ensures forall r :: r in routes && (forall x :: x in routes ==> x == r) ==> |routes| == 1 && routes[0] == r
  {
    forall r | r in routes && (forall x :: x in routes ==> x == r) ensures |routes| == 1 && routes[0] == r {
      assert routes[0] in routes;
      if |routes| > 1 {
        assert routes[1] in routes;
        assert RouteLess(routes[0], routes[1]);
        RouteLessIsTotal(r, r);
      }
    }
  }
}
