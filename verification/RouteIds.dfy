// Route ids (routes.ts legIdOf, buildRoute) and the order enumerateRoutes sorts by.
module RouteIds {
  import opened Routes

  function AssetName(a: Asset): string {
    match a
    case DEPIX => "DEPIX" case USDT => "USDT" case LBTC => "LBTC" case BTC => "BTC" case USDC => "USDC"
  }

  function NetworkName(n: Network): string {
    match n
    case Liquid => "liquid" case Bitcoin => "bitcoin" case Lightning => "lightning"
    case Ethereum => "ethereum" case Polygon => "polygon" case Arbitrum => "arbitrum"
    case Optimism => "optimism" case Base => "base" case Tron => "tron" case Bsc => "bsc" case Solana => "solana"
  }

  function ProviderName(p: Provider): string {
    match p
    case SideSwap => "sideswap" case Boltz => "boltz" case SideShift => "sideshift"
  }

  function CallName(m: Method): string {
    match m
    case Swap => "swap" case PegIn => "pegIn" case PegOut => "pegOut"
    case PayLightningInvoice => "payLightningInvoice" case ReceiveLightning => "receiveLightning"
    case ToStablecoin => "toStablecoin" case Send => "send" case Receive => "receive"
  }

  function LegId(leg: Leg): string {
    ProviderName(leg.provider) + "." + CallName(leg.call) + ":" +
    AssetName(leg.from) + "@" + NetworkName(leg.fromNetwork) + ">" +
    AssetName(leg.to) + "@" + NetworkName(leg.network)
  }

  // The leg ids joined with "+".
  function RouteId(legs: seq<Leg>): string {
    if legs == [] then ""
    else if |legs| == 1 then LegId(legs[0])
    else LegId(legs[0]) + "+" + RouteId(legs[1..])
  }

  predicate AnyCustodial(legs: seq<Leg>) { exists i :: 0 <= i < |legs| && legs[i].custodial }

  function BuildRoute(legs: seq<Leg>): Route {
    Route(RouteId(legs), legs, |legs|, AnyCustodial(legs))
  }

  // The separators of an id; no name contains one.
  predicate IsSeparator(c: char) { c == '.' || c == ':' || c == '@' || c == '>' || c == '+' }

  predicate IsWord(s: string) { forall i :: 0 <= i < |s| ==> !IsSeparator(s[i]) }

  lemma ProviderNameIsWord(p: Provider)
    ensures IsWord(ProviderName(p))
  {
  }

  lemma CallNameIsWord(m: Method)
    ensures IsWord(CallName(m))
  {
  }

  lemma AssetNameIsWord(a: Asset)
    ensures IsWord(AssetName(a))
  {
  }

  lemma NetworkNameIsWord(n: Network)
    ensures IsWord(NetworkName(n))
  {
  }

  lemma NamesAreInjective(leg: Leg, leg': Leg)
    ensures ProviderName(leg.provider) == ProviderName(leg'.provider) ==> leg.provider == leg'.provider
    ensures AssetName(leg.from) == AssetName(leg'.from) ==> leg.from == leg'.from
    ensures AssetName(leg.to) == AssetName(leg'.to) ==> leg.to == leg'.to
  {
  }

  lemma CallNamesAreInjective(m: Method, m': Method)
    requires CallName(m) == CallName(m')
    ensures m == m'
  {
    assert CallName(m)[0] == CallName(m')[0];
  }

  lemma NetworkNamesAreInjective(n: Network, n': Network)
    requires NetworkName(n) == NetworkName(n')
    ensures n == n'
  {
    assert NetworkName(n)[0] == NetworkName(n')[0] && NetworkName(n)[1] == NetworkName(n')[1];
  }

  // Splitting at the first separator c is unambiguous when neither head contains c.
  lemma SplitIsUnique(a: string, a': string, c: char, b: string, b': string)
    requires c !in a && c !in a'
    requires a + [c] + b == a' + [c] + b'
    ensures a == a' && b == b'
  {
    var s := a + [c] + b;
    var s' := a' + [c] + b';
    assert s[|a|] == c && s'[|a'|] == c;
    assert forall k :: 0 <= k < |a| ==> s[k] == a[k];
    assert forall k :: 0 <= k < |a'| ==> s'[k] == a'[k];
    assert s[..|a|] == a && s'[..|a'|] == a';
    assert s[|a|+1..] == b && s'[|a'|+1..] == b';
  }

  // The parts of a leg id after its provider, its call and its origin.
  function Tail3(leg: Leg): string { AssetName(leg.to) + "@" + NetworkName(leg.network) }
  function Tail2(leg: Leg): string { AssetName(leg.from) + "@" + (NetworkName(leg.fromNetwork) + ">" + Tail3(leg)) }
  function Tail1(leg: Leg): string { CallName(leg.call) + ":" + Tail2(leg) }

  lemma LegIdParts(leg: Leg)
    ensures LegId(leg) == ProviderName(leg.provider) + "." + Tail1(leg)
    ensures '+' !in LegId(leg) && LegId(leg) != ""
  {
    ProviderNameIsWord(leg.provider);
    CallNameIsWord(leg.call);
    AssetNameIsWord(leg.from);
    AssetNameIsWord(leg.to);
    NetworkNameIsWord(leg.fromNetwork);
    NetworkNameIsWord(leg.network);
  }

  predicate CustodialMatches(leg: Leg) { leg.custodial <==> leg.provider == SideShift }

  // A leg id determines the leg: the custodial flag it does not spell is the provider's.
  lemma LegIdIsInjective(leg: Leg, leg': Leg)
    requires CustodialMatches(leg) && CustodialMatches(leg')
    requires LegId(leg) == LegId(leg')
    ensures leg == leg'
  {
    LegIdParts(leg);
    LegIdParts(leg');
    ProviderNameIsWord(leg.provider);
    ProviderNameIsWord(leg'.provider);
    SplitIsUnique(ProviderName(leg.provider), ProviderName(leg'.provider), '.', Tail1(leg), Tail1(leg'));
    CallNameIsWord(leg.call);
    CallNameIsWord(leg'.call);
    SplitIsUnique(CallName(leg.call), CallName(leg'.call), ':', Tail2(leg), Tail2(leg'));
    AssetNameIsWord(leg.from);
    AssetNameIsWord(leg'.from);
    SplitIsUnique(AssetName(leg.from), AssetName(leg'.from), '@',
                  NetworkName(leg.fromNetwork) + ">" + Tail3(leg), NetworkName(leg'.fromNetwork) + ">" + Tail3(leg'));
    NetworkNameIsWord(leg.fromNetwork);
    NetworkNameIsWord(leg'.fromNetwork);
    SplitIsUnique(NetworkName(leg.fromNetwork), NetworkName(leg'.fromNetwork), '>', Tail3(leg), Tail3(leg'));
    AssetNameIsWord(leg.to);
    AssetNameIsWord(leg'.to);
    SplitIsUnique(AssetName(leg.to), AssetName(leg'.to), '@', NetworkName(leg.network), NetworkName(leg'.network));
    NamesAreInjective(leg, leg');
    CallNamesAreInjective(leg.call, leg'.call);
    NetworkNamesAreInjective(leg.fromNetwork, leg'.fromNetwork);
    NetworkNamesAreInjective(leg.network, leg'.network);
  }

  // A route id determines the whole chain of legs.
  lemma {:induction false} RouteIdIsInjective(legs: seq<Leg>, legs': seq<Leg>)
    requires forall i :: 0 <= i < |legs| ==> CustodialMatches(legs[i])
    requires forall i :: 0 <= i < |legs'| ==> CustodialMatches(legs'[i])
    requires RouteId(legs) == RouteId(legs')
    ensures legs == legs'
  {
    if legs != [] { LegIdParts(legs[0]); }
    if legs' != [] { LegIdParts(legs'[0]); }
    if |legs| >= 2 { assert RouteId(legs)[|LegId(legs[0])|] == '+'; }
    if |legs'| >= 2 { assert RouteId(legs')[|LegId(legs'[0])|] == '+'; }
    if |legs| == 1 && |legs'| == 1 {
      LegIdIsInjective(legs[0], legs'[0]);
    } else if |legs| >= 2 && |legs'| >= 2 {
      SplitIsUnique(LegId(legs[0]), LegId(legs'[0]), '+', RouteId(legs[1..]), RouteId(legs'[1..]));
      LegIdIsInjective(legs[0], legs'[0]);
      RouteIdIsInjective(legs[1..], legs'[1..]);
      assert legs == [legs[0]] + legs[1..];
      assert legs' == [legs'[0]] + legs'[1..];
    }
  }

  // ----- the sort order ---------------------------------------------------------------

  // Strings compared code unit by code unit, as `<` of TypeScript does.
  predicate StringLess(a: string, b: string) {
    if b == "" then false
    else if a == "" then true
    else a[0] < b[0] || (a[0] == b[0] && StringLess(a[1..], b[1..]))
  }

  lemma {:induction false} StringLessIsTotal(a: string, b: string)
    ensures a == b || StringLess(a, b) || StringLess(b, a)
    ensures !(StringLess(a, b) && StringLess(b, a))
    ensures a == b ==> !StringLess(a, b)
  {
    if a != "" && b != "" && a[0] == b[0] {
      StringLessIsTotal(a[1..], b[1..]);
      assert a == [a[0]] + a[1..] && b == [b[0]] + b[1..];
    }
  }

  lemma {:induction false} StringLessIsTransitive(a: string, b: string, c: string)
    requires StringLess(a, b) && StringLess(b, c)
    ensures StringLess(a, c)
  {
    if a != "" && a[0] == b[0] == c[0] {
      StringLessIsTransitive(a[1..], b[1..], c[1..]);
    }
  }

  // Where two strings differ first, a has the smaller character or has ended.
  ghost predicate Precedes(a: string, b: string) {
    exists k: nat :: DiffersAt(a, b, k) && (if k == |a| then k < |b| else k < |b| && a[k] < b[k])
  }

  predicate DiffersAt(a: string, b: string, k: nat) {
    && k <= |a| && k <= |b| && a[..k] == b[..k]
    && (k == |a| || k == |b| || a[k] != b[k])
  }

  lemma SameStart(a: string, b: string, k: nat)
    requires 0 < k <= |a| && k <= |b| && a[..k] == b[..k]
    ensures a[0] == b[0]
  {
    assert a[0] == a[..k][0];
  }

  lemma {:induction false} StringLessIsPrecedes(a: string, b: string)
    ensures StringLess(a, b) <==> Precedes(a, b)
  {
    if a != "" && b != "" && a[0] == b[0] {
      StringLessIsPrecedes(a[1..], b[1..]);
      if Precedes(a[1..], b[1..]) {
        var k: nat :| DiffersAt(a[1..], b[1..], k) && (if k == |a[1..]| then k < |b[1..]| else k < |b[1..]| && a[1..][k] < b[1..][k]);
        assert a[..k+1] == [a[0]] + a[1..][..k] && b[..k+1] == [b[0]] + b[1..][..k];
        assert DiffersAt(a, b, k + 1);
      }
      if Precedes(a, b) {
        var k: nat :| DiffersAt(a, b, k) && (if k == |a| then k < |b| else k < |b| && a[k] < b[k]);
        assert k > 0;
        assert a[1..][..k-1] == a[..k][1..] && b[1..][..k-1] == b[..k][1..];
        assert DiffersAt(a[1..], b[1..], k - 1);
      }
    } else {
      assert DiffersAt(a, b, 0);
      if Precedes(a, b) {
        var k: nat :| DiffersAt(a, b, k) && (if k == |a| then k < |b| else k < |b| && a[k] < b[k]);
        if k > 0 { SameStart(a, b, k); }
      }
    }
  }

  // The ids of the legs as callers know them: provider, method, and what goes in and out where.
  lemma SideSwapIdsAsPublished()
    ensures LegId(MarketLeg(DEPIX, LBTC)) == "sideswap" + "." + "swap" + ":" + "DEPIX" + "@" + "liquid" + ">" + "LBTC" + "@" + "liquid"
    ensures LegId(PegInLeg()) == "sideswap" + "." + "pegIn" + ":" + "BTC" + "@" + "bitcoin" + ">" + "LBTC" + "@" + "liquid"
    ensures LegId(PegOutLeg()) == "sideswap" + "." + "pegOut" + ":" + "LBTC" + "@" + "liquid" + ">" + "BTC" + "@" + "bitcoin"
  {
  }

  lemma BoltzIdsAsPublished()
    ensures LegId(PayLightningLeg()) == "boltz" + "." + "payLightningInvoice" + ":" + "LBTC" + "@" + "liquid" + ">" + "BTC" + "@" + "lightning"
    ensures LegId(ReceiveLightningLeg()) == "boltz" + "." + "receiveLightning" + ":" + "BTC" + "@" + "lightning" + ">" + "LBTC" + "@" + "liquid"
    ensures LegId(ToStablecoinLeg(USDT, Ethereum)) == "boltz" + "." + "toStablecoin" + ":" + "LBTC" + "@" + "liquid" + ">" + "USDT" + "@" + "ethereum"
  {
  }

  lemma SideShiftIdsAsPublished()
    ensures LegId(ShiftSendLeg(Tron)) == "sideshift" + "." + "send" + ":" + "USDT" + "@" + "liquid" + ">" + "USDT" + "@" + "tron"
    ensures LegId(ShiftReceiveLeg(Tron)) == "sideshift" + "." + "receive" + ":" + "USDT" + "@" + "tron" + ">" + "USDT" + "@" + "liquid"
  {
  }

  // A chain's id is its legs' ids with a plus sign between them.
  lemma {:induction false} RouteIdJoins(a: seq<Leg>, b: seq<Leg>)
    requires a != [] && b != []
    ensures RouteId(a + b) == RouteId(a) + "+" + RouteId(b)
  {
    assert (a + b)[1..] == a[1..] + b;
    if |a| > 1 {
      RouteIdJoins(a[1..], b);
    } else {
      assert a[1..] + b == b;
    }
  }

  // The comparator of enumerateRoutes: fewer hops, then non-custodial, then id.
  predicate RouteLess(a: Route, b: Route) {
    if a.hops != b.hops then a.hops < b.hops
    else if a.custodial != b.custodial then b.custodial
    else StringLess(a.id, b.id)
  }

  lemma RouteLessIsTotal(a: Route, b: Route)
    ensures a.id == b.id || RouteLess(a, b) || RouteLess(b, a)
    ensures !(RouteLess(a, b) && RouteLess(b, a)) && !RouteLess(a, a)
  {
    StringLessIsTotal(a.id, b.id);
    StringLessIsTotal(a.id, a.id);
  }

  lemma RouteLessIsTransitive(a: Route, b: Route, c: Route)
    requires RouteLess(a, b) && RouteLess(b, c)
    ensures RouteLess(a, c)
  {
    if a.hops == b.hops == c.hops && a.custodial == b.custodial == c.custodial {
      StringLessIsTransitive(a.id, b.id, c.id);
    }
  }

  predicate Sorted(routes: seq<Route>) {
    forall i, j :: 0 <= i < j < |routes| ==> RouteLess(routes[i], routes[j])
  }

  lemma EmptyTogether(xs: seq<Route>, ys: seq<Route>)
    requires forall r :: r in xs <==> r in ys
    ensures xs == [] <==> ys == []
  {
    if xs != [] { assert xs[0] in ys; }
    if ys != [] { assert ys[0] in xs; }
  }

  // A set of routes has one strictly sorted listing.
  lemma {:induction false} SortedListingIsUnique(xs: seq<Route>, ys: seq<Route>)
    requires Sorted(xs) && Sorted(ys)
    requires forall r :: r in xs <==> r in ys
    ensures xs == ys
  {
    EmptyTogether(xs, ys);
    if xs != [] {
      assert xs[0] in ys;
      var k :| 0 <= k < |ys| && ys[k] == xs[0];
      assert ys[0] in xs;
      var l :| 0 <= l < |xs| && xs[l] == ys[0];
      RouteLessIsTotal(xs[0], ys[0]);
      assert xs[0] == ys[0];
      forall r ensures r in xs[1..] <==> r in ys[1..] {
        RouteLessIsTotal(xs[0], xs[0]);
        assert r in xs <==> r == xs[0] || r in xs[1..];
        assert r in ys <==> r == ys[0] || r in ys[1..];
        assert xs[0] !in xs[1..] && ys[0] !in ys[1..];
      }
      SortedListingIsUnique(xs[1..], ys[1..]);
      assert xs == [xs[0]] + xs[1..] && ys == [ys[0]] + ys[1..];
    }
  }
}
