// Intent routing table (src/wallet-engine/convert/routes.ts): the legs, the route ids and
// the enumeration of every candidate route for an intent.
module Routes {
  import opened Options

  datatype Asset = DEPIX | USDT | LBTC | BTC | USDC

  datatype Network =
    | Liquid | Bitcoin | Lightning | Ethereum | Polygon | Arbitrum | Optimism | Base | Tron | Bsc | Solana

  datatype Provider = SideSwap | Boltz | SideShift

  datatype Method = Swap | PegIn | PegOut | PayLightningInvoice | ReceiveLightning | ToStablecoin | Send | Receive

  datatype Leg = Leg(
    provider: Provider, call: Method,
    from: Asset, fromNetwork: Network, to: Asset, network: Network, custodial: bool)

  datatype Route = Route(id: string, legs: seq<Leg>, hops: nat, custodial: bool)

  // The intent trio, with the optional narrowing of its origin network.
  datatype Selector = Selector(from: Asset, to: Asset, network: Option<Network>, fromNetwork: Option<Network>)

  // The two provider tables the enumeration consults: the networks SideShift shifts
  // USDT to and from, and the (asset, network) pairs Boltz has a stablecoin variant for.
  datatype Rails = Rails(shift: seq<Network>, variants: set<(Asset, Network)>)

  predicate ValidRails(rails: Rails) {
    && (forall i, j :: 0 <= i < j < |rails.shift| ==> rails.shift[i] != rails.shift[j])
    && Liquid !in rails.shift
    && (forall a: Asset :: (a, Liquid) !in rails.variants)
  }

  // The tables as sideshift.ts and stablecoin.ts hold them.
  const SHIPPED_RAILS: Rails := Rails(
    [Ethereum, Tron, Bsc, Polygon, Solana],
    {(USDC, Arbitrum), (USDC, Polygon), (USDC, Ethereum), (USDC, Optimism), (USDC, Base),
     (USDT, Arbitrum), (USDT, Polygon), (USDT, Ethereum), (USDT, Optimism), (USDT, Tron)})

  lemma ShippedRailsAreValid()
    ensures ValidRails(SHIPPED_RAILS)
  {
  }

  predicate IsLiquidAsset(a: Asset) { a == DEPIX || a == USDT || a == LBTC }

  // ----- legs ------------------------------------------------------------------

  function MarketLeg(from: Asset, to: Asset): Leg { Leg(SideSwap, Swap, from, Liquid, to, Liquid, false) }
  function PegInLeg(): Leg { Leg(SideSwap, PegIn, BTC, Bitcoin, LBTC, Liquid, false) }
  function ReceiveLightningLeg(): Leg { Leg(Boltz, ReceiveLightning, BTC, Lightning, LBTC, Liquid, false) }
  function ShiftReceiveLeg(source: Network): Leg { Leg(SideShift, Receive, USDT, source, USDT, Liquid, true) }
  function PegOutLeg(): Leg { Leg(SideSwap, PegOut, LBTC, Liquid, BTC, Bitcoin, false) }
  function PayLightningLeg(): Leg { Leg(Boltz, PayLightningInvoice, LBTC, Liquid, BTC, Lightning, false) }
  function ToStablecoinLeg(to: Asset, network: Network): Leg { Leg(Boltz, ToStablecoin, LBTC, Liquid, to, network, false) }
  function ShiftSendLeg(network: Network): Leg { Leg(SideShift, Send, USDT, Liquid, USDT, network, true) }

  predicate IsInflow(m: Method) { m == PegIn || m == ReceiveLightning || m == Receive }
  predicate IsExit(m: Method) { m == PegOut || m == PayLightningInvoice || m == ToStablecoin || m == Send }

  // The legs the rails offer, kind by kind.
  predicate IsEntryLeg(rails: Rails, leg: Leg) {
    leg == PegInLeg() || leg == ReceiveLightningLeg() || (leg.fromNetwork in rails.shift && leg == ShiftReceiveLeg(leg.fromNetwork))
  }

  predicate IsMarketLeg(leg: Leg) {
    IsLiquidAsset(leg.from) && IsLiquidAsset(leg.to) && leg.from != leg.to && leg == MarketLeg(leg.from, leg.to)
  }

  predicate IsExitLeg(rails: Rails, leg: Leg) {
    || leg == PegOutLeg()
    || leg == PayLightningLeg()
    || ((leg.to == USDC || leg.to == USDT) && (leg.to, leg.network) in rails.variants && leg == ToStablecoinLeg(leg.to, leg.network))
    || (leg.network in rails.shift && leg == ShiftSendLeg(leg.network))
  }

  predicate IsOffered(rails: Rails, leg: Leg) { IsEntryLeg(rails, leg) || IsMarketLeg(leg) || IsExitLeg(rails, leg) }

  // Position of a leg's kind in a chain: entry before market before exit.
  function Rank(leg: Leg): nat { if IsInflow(leg.call) then 0 else if IsExit(leg.call) then 2 else 1 }

  // ----- the declarative set of routes --------------------------------------------

  function Destination(sel: Selector): Network { if sel.network.Some? then sel.network.value else Liquid }

  // USDT to USDT on Liquid with no origin network: the one intent between equal Liquid
  // assets that has a rail, the inbound shift.
  predicate IsInboundUsdt(sel: Selector) {
    sel.from == USDT && sel.to == USDT && sel.fromNetwork.None? && Destination(sel) == Liquid
  }

  // Whether a chain of `sel` may start on network n. An unset origin means this wallet's
  // Liquid holdings for a Liquid asset (except the inbound USDT intent) and any external
  // network otherwise.
  predicate MayStartOn(sel: Selector, n: Network) {
    match sel.fromNetwork
    case Some(origin) => n == origin
    case None => if IsLiquidAsset(sel.from) && !IsInboundUsdt(sel) then n == Liquid else n != Liquid
  }

  predicate Connected(legs: seq<Leg>) {
    forall i :: 0 < i < |legs| ==> legs[i-1].to == legs[i].from && legs[i-1].network == legs[i].fromNetwork
  }

  // At most one entry, one market and one exit leg, in that order.
  predicate InOrder(legs: seq<Leg>) {
    forall i, j :: 0 <= i < j < |legs| ==> Rank(legs[i]) < Rank(legs[j])
  }

  predicate IsCandidate(rails: Rails, sel: Selector, legs: seq<Leg>) {
    && legs != []
    && (forall i :: 0 <= i < |legs| ==> IsOffered(rails, legs[i]))
    && Connected(legs)
    && InOrder(legs)
    && legs[0].from == sel.from && MayStartOn(sel, legs[0].fromNetwork)
    && legs[|legs|-1].to == sel.to && legs[|legs|-1].network == Destination(sel)
    && !(legs[0].from == sel.to && legs[0].fromNetwork == Destination(sel))
  }

  // ----- shape theorem -----------------------------------------------------------------

  // What the plan executor relies on: between one and three legs, inflow legs only first,
  // exit legs only last, every joint a Liquid holding of this wallet.
  predicate HasRouteShape(legs: seq<Leg>) {
    && 1 <= |legs| <= 3
    && (forall i :: 0 <= i < |legs| && IsInflow(legs[i].call) ==> i == 0)
    && (forall i :: 0 <= i < |legs| && IsExit(legs[i].call) ==> i == |legs| - 1)
    && (forall i :: 0 < i < |legs| ==> legs[i].fromNetwork == Liquid && IsLiquidAsset(legs[i].from))
    && (forall i :: 0 <= i < |legs| - 1 ==> legs[i].network == Liquid && legs[i].to == legs[i+1].from)
  }

  lemma RanksClimb(legs: seq<Leg>, i: nat)
    requires InOrder(legs) && i < |legs|
    ensures i <= Rank(legs[i])
  {
    if i > 0 {
      RanksClimb(legs, i - 1);
      assert Rank(legs[i-1]) < Rank(legs[i]);
    }
  }

  lemma CandidatesHaveRouteShape(rails: Rails, sel: Selector, legs: seq<Leg>)
    requires ValidRails(rails) && IsCandidate(rails, sel, legs)
    ensures HasRouteShape(legs)
  {
    RanksClimb(legs, |legs| - 1);
    forall i | 0 <= i < |legs|
      ensures IsInflow(legs[i].call) ==> i == 0
      ensures IsExit(legs[i].call) ==> i == |legs| - 1
      ensures 0 < i ==> legs[i].fromNetwork == Liquid && IsLiquidAsset(legs[i].from)
    {
      assert IsOffered(rails, legs[i]);
      if 0 < i { assert Rank(legs[0]) < Rank(legs[i]); }
      if i < |legs| - 1 { assert Rank(legs[i]) < Rank(legs[|legs|-1]); }
    }
  }
}
