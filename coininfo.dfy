/** The information view (components/CoinInfoView.tsx): the five fastest
    risers among the non-excluded coins, and the tooltip position over the
    trend chart's bars. */
module CoinInfo {
  import opened Types

  /** Ids left out of the risers list (components/CoinInfoView.tsx:13). */
  const Excluded: seq<string> := ["FLUID", "MMT", "TRUST", "OG", "SSV2"]

  /** How many risers are shown (components/CoinInfoView.tsx:15). */
  const TopCount: nat := 5

  /** The trend chart's bars (components/CoinInfoView.tsx:17-23). */
  const TrendData: seq<(string, real)> :=
    [("10월 3주", 0.35), ("10월 4주", 0.32), ("11월 1주", 0.1), ("11월 2주", 0.39), ("11월 3주", 0.27)]

  predicate Eligible(c: Coin) { c.id !in Excluded }

  /** `.filter(c => !excluded.includes(c.id))` on a copy of the list. */
  function EligibleCoins(coins: seq<Coin>): (r: seq<Coin>)
    ensures |r| <= |coins|
    ensures forall i :: 0 <= i < |r| ==> Eligible(r[i])
    ensures forall c :: c in r <==> c in coins && Eligible(c)
    ensures multiset(r) <= multiset(coins)
    ensures forall c :: multiset(r)[c] == if Eligible(c) then multiset(coins)[c] else 0
  {
    if |coins| == 0 then []
    else
      var rest := EligibleCoins(coins[1..]);
      assert coins == [coins[0]] + coins[1..];
      assert multiset(coins) == multiset{coins[0]} + multiset(coins[1..]);
      if Eligible(coins[0]) then
        assert multiset([coins[0]] + rest) == multiset{coins[0]} + multiset(rest);
        [coins[0]] + rest
      else rest
  }

  /** Non-increasing change rates. */
  predicate SortedDesc(s: seq<Coin>)
  {
    forall i, j :: 0 <= i < j < |s| ==> s[i].changeRate >= s[j].changeRate
  }

  /** Inserts x before the first coin whose rate is not above x's: the place
      a stable sort on `b.changeRate - a.changeRate` gives a coin that came
      before all the others. */
  function Insert(x: Coin, s: seq<Coin>): (r: seq<Coin>)
    ensures |r| == |s| + 1
    ensures multiset(r) == multiset(s) + multiset{x}
    ensures forall y :: y in r <==> y == x || y in s
  {
    if |s| == 0 then [x]
    else if s[0].changeRate <= x.changeRate then [x] + s
    else
      assert s == [s[0]] + s[1..];
      [s[0]] + Insert(x, s[1..])
  }

  /** Every coin of a sorted list after its head has a rate no higher than it. */
  lemma HeadIsHighest(s: seq<Coin>, y: Coin)
    requires SortedDesc(s) && |s| > 0 && y in s[1..]
    ensures y.changeRate <= s[0].changeRate
  {
    var j :| 0 <= j < |s[1..]| && s[1..][j] == y;
    assert s[j + 1] == y;
  }

  /** Insertion keeps a list sorted. */
  lemma {:induction false} InsertSorted(x: Coin, s: seq<Coin>)
    requires SortedDesc(s)
    ensures SortedDesc(Insert(x, s))
    decreases |s|
  {
    if |s| == 0 {
    } else if s[0].changeRate <= x.changeRate {
      var r := [x] + s;
      forall i, j | 0 <= i < j < |r| ensures r[i].changeRate >= r[j].changeRate {
        if i == 0 {
          assert r[j] == s[j - 1];
          assert s[0].changeRate >= s[j - 1].changeRate;
        } else {
          assert r[i] == s[i - 1] && r[j] == s[j - 1];
        }
      }
    } else {
      var rest := Insert(x, s[1..]);
      InsertSorted(x, s[1..]);
      forall y | y in rest ensures y.changeRate <= s[0].changeRate {
        if y != x {
          HeadIsHighest(s, y);
        }
      }
      var r := [s[0]] + rest;
      assert r == Insert(x, s);
      forall i, j | 0 <= i < j < |r| ensures r[i].changeRate >= r[j].changeRate {
        if i == 0 {
          assert r[j] == rest[j - 1] && r[j] in rest;
        } else {
          assert r[i] == rest[i - 1] && r[j] == rest[j - 1];
        }
      }
    }
  }

  /** `.sort((a, b) => b.changeRate - a.changeRate)`: the coins by change
      rate, highest first, as a permutation of the input. */
  function SortByChangeDesc(s: seq<Coin>): (r: seq<Coin>)
    ensures |r| == |s|
    ensures multiset(r) == multiset(s)
  {
    if |s| == 0 then []
    else
      assert s == [s[0]] + s[1..];
      Insert(s[0], SortByChangeDesc(s[1..]))
  }

  /** The sort's result is in non-increasing rate order. */
  lemma {:induction false} SortSorted(s: seq<Coin>)
    ensures SortedDesc(SortByChangeDesc(s))
  {
    if |s| > 0 {
      SortSorted(s[1..]);
      InsertSorted(s[0], SortByChangeDesc(s[1..]));
    }
  }

  function MinNat(a: nat, b: nat): nat { if a <= b then a else b }

  /** `topRising` (components/CoinInfoView.tsx:12-15). */
  function TopRising(coins: seq<Coin>): seq<Coin>
  {
    var sorted := SortByChangeDesc(EligibleCoins(coins));
    sorted[..MinNat(TopCount, |sorted|)]
  }

  /** The risers list holds no excluded coin, has min(5, eligible) entries in
      non-increasing rate order, is a sub-multiset of the eligible coins, and
      every eligible coin left out has a rate no higher than every coin shown. */
  lemma TopRisingSpec(coins: seq<Coin>)
    ensures var eligible := EligibleCoins(coins);
      var top := TopRising(coins);
      |top| == MinNat(TopCount, |eligible|) &&
      (forall i :: 0 <= i < |top| ==> Eligible(top[i])) &&
      SortedDesc(top) &&
      multiset(top) <= multiset(eligible) &&
      (forall c :: c in multiset(eligible) - multiset(top) ==>
         forall i :: 0 <= i < |top| ==> c.changeRate <= top[i].changeRate)
  {
    var eligible := EligibleCoins(coins);
    var sorted := SortByChangeDesc(eligible);
    SortSorted(eligible);
    var k := MinNat(TopCount, |sorted|);
    PrefixFacts(sorted, k);
    var top := sorted[..k];
    forall i | 0 <= i < |top| ensures Eligible(top[i]) {
      assert top[i] in multiset(eligible);
    }
  }

  /** A prefix of a sorted list is sorted, is a sub-multiset of it, and
      outranks what it leaves out. */
  lemma PrefixFacts(sorted: seq<Coin>, k: nat)
    requires SortedDesc(sorted) && k <= |sorted|
    ensures SortedDesc(sorted[..k])
    ensures multiset(sorted[..k]) <= multiset(sorted)
    ensures forall c :: c in multiset(sorted) - multiset(sorted[..k]) ==>
      forall i :: 0 <= i < k ==> c.changeRate <= sorted[..k][i].changeRate
  {
    var top, rest := sorted[..k], sorted[k..];
    assert sorted == top + rest;
    assert multiset(sorted) == multiset(top) + multiset(rest);
    forall c | c in multiset(sorted) - multiset(top)
      ensures forall i :: 0 <= i < k ==> c.changeRate <= top[i].changeRate
    {
      assert c in multiset(rest);
      var j :| 0 <= j < |rest| && rest[j] == c;
      assert sorted[k + j] == c;
    }
  }

  /** `(index + 0.5) / barCount`, the bar centre as a fraction of the plot
      width (components/CoinInfoView.tsx:35-38). */
  function TooltipCentre(index: int): real
  {
    (index as real + 0.5) / |TrendData| as real
  }

  /** Over the five bars the centre lies strictly inside the plot and moves
      right with the index. */
  lemma TooltipCentreInside(i: int, j: int)
    requires 0 <= i < j < |TrendData|
    ensures 0.0 < TooltipCentre(i) < TooltipCentre(j) < 1.0
  {
  }
}
