// Greedy coin selection (src/wallet-engine/wallet.ts, selectCoinsGreedy).
module Coins {
  datatype Coin = Coin(outpoint: string, confirmed: bool, amount: nat)

  function Sum(coins: seq<Coin>): nat {
    if coins == [] then 0 else coins[0].amount + Sum(coins[1..])
  }

  // The order coins are tried in: confirmed first, larger first within each group.
  predicate Before(a: Coin, b: Coin) {
    if a.confirmed != b.confirmed then a.confirmed else a.amount >= b.amount
  }

  predicate IsOrdered(coins: seq<Coin>) { forall i, j :: 0 <= i < j < |coins| ==> Before(coins[i], coins[j]) }

  // ----- sums ------------------------------------------------------------------------------------

  lemma {:induction false} SumOfConcat(a: seq<Coin>, b: seq<Coin>)
    ensures Sum(a + b) == Sum(a) + Sum(b)
  {
    if a == [] {
      assert a + b == b;
    } else {
      SumOfConcat(a[1..], b);
      assert (a + b)[1..] == a[1..] + b;
    }
  }

  function Without(coins: seq<Coin>, i: nat): seq<Coin>
    requires i < |coins|
  {
    coins[..i] + coins[i+1..]
  }

  lemma {:induction false} SumWithout(coins: seq<Coin>, i: nat)
    requires i < |coins|
    ensures Sum(coins) == coins[i].amount + Sum(Without(coins, i))
  {
    if i == 0 {
      assert Without(coins, 0) == coins[1..];
    } else {
      SumWithout(coins[1..], i - 1);
      assert Without(coins, i)[1..] == Without(coins[1..], i - 1);
    }
  }

  lemma CountWithout(coins: seq<Coin>, i: nat)
    requires i < |coins|
    ensures multiset(coins) == multiset(Without(coins, i)) + multiset{coins[i]}
  {
    assert coins == coins[..i] + [coins[i]] + coins[i+1..];
  }

  // ----- sorting ----------------------------------------------------------------------------------

  lemma InsertedAt(coins: seq<Coin>, coin: Coin, i: nat)
    requires IsOrdered(coins) && i <= |coins|
    requires forall j :: 0 <= j < i ==> Before(coins[j], coin)
    requires forall j :: i <= j < |coins| ==> Before(coin, coins[j])
    ensures IsOrdered(coins[..i] + [coin] + coins[i..])
    ensures multiset(coins[..i] + [coin] + coins[i..]) == multiset(coins) + multiset{coin}
  {
    var r := coins[..i] + [coin] + coins[i..];
    forall j, k | 0 <= j < k < |r| ensures Before(r[j], r[k]) {
      assert j < i ==> r[j] == coins[j];
      assert k > i ==> r[k] == coins[k-1];
    }
    assert coins == coins[..i] + coins[i..];
  }

  method InsertCoin(coins: seq<Coin>, coin: Coin) returns (r: seq<Coin>)
    requires IsOrdered(coins)
    ensures IsOrdered(r) && multiset(r) == multiset(coins) + multiset{coin}
  {
    var i := |coins|;
    while i > 0 && !Before(coins[i-1], coin)
      invariant 0 <= i <= |coins|
      invariant forall j :: i <= j < |coins| ==> Before(coin, coins[j])
    {
      i := i - 1;
      assert Before(coin, coins[i]);
    }
    forall j | 0 <= j < i ensures Before(coins[j], coin) {
      assert j < i - 1 ==> Before(coins[j], coins[i-1]);
    }
    r := coins[..i] + [coin] + coins[i..];
    InsertedAt(coins, coin, i);
  }

  method OrderCoins(coins: seq<Coin>) returns (r: seq<Coin>)
    ensures IsOrdered(r) && multiset(r) == multiset(coins)
    ensures forall i, j :: 0 <= i < j < |r| ==>
      && (r[j].confirmed ==> r[i].confirmed)
      && (r[i].confirmed == r[j].confirmed ==> r[i].amount >= r[j].amount)
  {
    r := [];
    for k := 0 to |coins|
      invariant IsOrdered(r) && multiset(r) == multiset(coins[..k])
    {
      assert coins[..k+1] == coins[..k] + [coins[k]];
      r := InsertCoin(r, coins[k]);
    }
    assert coins[..|coins|] == coins;
  }

  // ----- the selection --------------------------------------------------------------------------------

  // What a greedy selection over these coins is: a shortest covering prefix of some ordering,
  // or everything.
  ghost predicate IsGreedy(coins: seq<Coin>, target: int, selected: seq<Coin>) {
    exists ordered :: IsGreedyOver(coins, target, selected, ordered)
  }

  ghost predicate IsGreedyOver(coins: seq<Coin>, target: int, selected: seq<Coin>, ordered: seq<Coin>) {
    && IsOrdered(ordered) && multiset(ordered) == multiset(coins)
    && |selected| <= |ordered| && selected == ordered[..|selected|]
    && (forall k :: 0 <= k < |selected| ==> Sum(selected[..k]) < target)
    && (Sum(selected) >= target || selected == ordered)
  }

  method SelectCoinsGreedy(coins: seq<Coin>, target: int) returns (selected: seq<Coin>, total: nat)
    ensures IsGreedy(coins, target, selected) && total == Sum(selected)
    ensures multiset(selected) <= multiset(coins)
    ensures total >= target <==> Sum(coins) >= target
    ensures forall k :: 0 <= k < |selected| ==> Sum(selected[..k]) < target
  {
    var ordered := OrderCoins(coins);
    selected, total := [], 0;
    var k := 0;
    while k < |ordered| && total < target
      invariant 0 <= k <= |ordered| && selected == ordered[..k] && total == Sum(selected)
      invariant forall j :: 0 <= j < k ==> Sum(selected[..j]) < target
    {
      SumOfConcat(selected, [ordered[k]]);
      assert forall j :: 0 <= j < k ==> (selected + [ordered[k]])[..j] == selected[..j];
      assert (selected + [ordered[k]])[..k] == selected;
      selected := selected + [ordered[k]];
      total := total + ordered[k].amount;
      k := k + 1;
    }
    assert IsGreedyOver(coins, target, selected, ordered);
    GreedyCovers(coins, target, selected, ordered);
  }

  lemma GreedyCovers(coins: seq<Coin>, target: int, selected: seq<Coin>, ordered: seq<Coin>)
    requires IsGreedyOver(coins, target, selected, ordered)
    ensures multiset(selected) <= multiset(coins)
    ensures Sum(selected) >= target <==> Sum(coins) >= target
  {
    var rest := ordered[|selected|..];
    assert ordered == selected + rest;
    SumOfConcat(selected, rest);
    SumOfPermutation(ordered, coins);
  }

  lemma SameWithout(a: seq<Coin>, b: seq<Coin>, i: nat)
    requires a != [] && i < |b| && b[i] == a[0] && multiset(a) == multiset(b)
    ensures multiset(a[1..]) == multiset(Without(b, i))
  {
    CountWithout(b, i);
    assert a == [a[0]] + a[1..];
    assert multiset(a[1..]) == multiset(a) - multiset{a[0]};
    assert multiset(Without(b, i)) == multiset(b) - multiset{a[0]};
  }

  lemma {:induction false} SumOfPermutation(a: seq<Coin>, b: seq<Coin>)
    requires multiset(a) == multiset(b)
    ensures Sum(a) == Sum(b)
  {
    if a == [] {
      assert |multiset(b)| == 0;
    } else {
      assert a[0] in multiset(b);
      var i :| 0 <= i < |b| && b[i] == a[0];
      SumWithout(b, i);
      SameWithout(a, b, i);
      SumOfPermutation(a[1..], Without(b, i));
    }
  }

  // ----- the fewest confirmed coins ------------------------------------------------------------------

  // What is left of `other` without its copy of the first coin (or, lacking one, without its
  // own first coin) is found among the remaining coins.
  lemma TakeOut(coins: seq<Coin>, other: seq<Coin>) returns (i: nat)
    requires coins != [] && other != [] && multiset(other) <= multiset(coins)
    ensures i < |other| && other[i] in coins
    ensures multiset(Without(other, i)) <= multiset(coins[1..])
  {
    i := 0;
    if coins[0] in other { i :| 0 <= i < |other| && other[i] == coins[0]; }
    CountWithout(other, i);
    CountWithout(coins, 0);
    assert Without(coins, 0) == coins[1..];
    assert other[i] in multiset(other);
    assert coins[0] !in other ==> coins[0] !in multiset(other);
    OneLess(multiset(coins), multiset(other), multiset(coins[1..]), multiset(Without(other, i)), coins[0], other[i]);
  }

  lemma OneLess(a: multiset<Coin>, b: multiset<Coin>, a': multiset<Coin>, b': multiset<Coin>, x: Coin, y: Coin)
    requires a == a' + multiset{x} && b == b' + multiset{y} && b <= a && (x == y || x !in b)
    ensures b' <= a'
  {
    forall c ensures b'[c] <= a'[c] {
      assert b[c] <= a[c];
    }
  }

  lemma PrefixSum(coins: seq<Coin>, n: nat)
    requires 1 <= n <= |coins|
    ensures Sum(coins[..n]) == coins[0].amount + Sum(coins[1..][..n-1])
  {
    assert coins[..n][1..] == coins[1..][..n-1];
  }

  // Of all ways to take some of these coins, the largest ones sum highest.
  lemma {:induction false} LargestDominate(coins: seq<Coin>, other: seq<Coin>)
    requires forall i, j :: 0 <= i < j < |coins| ==> coins[i].amount >= coins[j].amount
    requires multiset(other) <= multiset(coins)
    ensures |other| <= |coins| && Sum(other) <= Sum(coins[..|other|])
    decreases |coins|
  {
    SizesOrdered(multiset(other), multiset(coins));
    if other != [] {
      var i := TakeOut(coins, other);
      SumWithout(other, i);
      LargestDominate(coins[1..], Without(other, i));
      PrefixSum(coins, |other|);
    }
  }

  lemma SizesOrdered(a: multiset<Coin>, b: multiset<Coin>)
    requires a <= b
    ensures |a| <= |b|
  {
    assert b == a + (b - a);
  }

  // If some choice of confirmed coins covers the target, the greedy selection holds confirmed
  // coins only, and no more of them than that choice.
  lemma GreedyIsFewestConfirmed(coins: seq<Coin>, target: int, selected: seq<Coin>, other: seq<Coin>)
    requires IsGreedy(coins, target, selected)
    requires multiset(other) <= multiset(coins) && (forall i :: 0 <= i < |other| ==> other[i].confirmed) && Sum(other) >= target
    ensures forall i :: 0 <= i < |selected| ==> selected[i].confirmed
    ensures |selected| <= |other|
  {
    var ordered :| IsGreedyOver(coins, target, selected, ordered);
    FewestOver(ordered, target, selected, other);
  }

  lemma FewestOver(ordered: seq<Coin>, target: int, selected: seq<Coin>, other: seq<Coin>)
    requires IsOrdered(ordered) && |selected| <= |ordered| && selected == ordered[..|selected|]
    requires forall k :: 0 <= k < |selected| ==> Sum(selected[..k]) < target
    requires multiset(other) <= multiset(ordered) && (forall i :: 0 <= i < |other| ==> other[i].confirmed) && Sum(other) >= target
    ensures forall i :: 0 <= i < |selected| ==> selected[i].confirmed
    ensures |selected| <= |other|
  {
    var m := EnoughConfirmed(ordered, other);
    assert forall k :: 0 <= k < |selected| ==> selected[..k] == ordered[..k];
  }

  lemma EnoughConfirmed(ordered: seq<Coin>, other: seq<Coin>) returns (m: nat)
    requires IsOrdered(ordered)
    requires multiset(other) <= multiset(ordered) && forall i :: 0 <= i < |other| ==> other[i].confirmed
    ensures |other| <= m <= |ordered| && Sum(other) <= Sum(ordered[..|other|])
    ensures forall i :: 0 <= i < |ordered| ==> (ordered[i].confirmed <==> i < m)
  {
    m := ConfirmedPrefix(ordered);
    ConfirmedAreInPrefix(ordered, m, other);
    LargestDominate(ordered[..m], other);
    assert ordered[..m][..|other|] == ordered[..|other|];
  }

  lemma ConfirmedAreInPrefix(ordered: seq<Coin>, m: nat, other: seq<Coin>)
    requires m <= |ordered| && forall i :: 0 <= i < |ordered| ==> (ordered[i].confirmed <==> i < m)
    requires multiset(other) <= multiset(ordered) && forall i :: 0 <= i < |other| ==> other[i].confirmed
    ensures multiset(other) <= multiset(ordered[..m])
  {
    assert ordered == ordered[..m] + ordered[m..];
    forall c ensures multiset(other)[c] <= multiset(ordered[..m])[c] {
      if c in multiset(other) {
        assert c.confirmed && c !in ordered[m..];
        assert multiset(ordered[m..])[c] == 0;
      }
      assert multiset(other)[c] <= multiset(ordered)[c];
    }
  }

  lemma ConfirmedPrefix(ordered: seq<Coin>) returns (m: nat)
    requires IsOrdered(ordered)
    ensures m <= |ordered|
    ensures forall i :: 0 <= i < |ordered| ==> (ordered[i].confirmed <==> i < m)
  {
    m := 0;
    while m < |ordered| && ordered[m].confirmed
      invariant m <= |ordered| && forall i :: 0 <= i < m ==> ordered[i].confirmed
    {
      m := m + 1;
    }
    if m < |ordered| {
      assert forall i :: m < i < |ordered| ==> Before(ordered[m], ordered[i]);
    }
  }
}
