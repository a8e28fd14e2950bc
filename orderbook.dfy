/** The order-book synthesiser of components/TradingView.tsx:87-138: seven ask
    and seven bid levels derived from the detail view's ticker price, the
    coin's baseline and its traded volume, and the bar widths of the rows.
    `getGammaVolume` (a power times an exponential) is abstracted to a
    sequence of positive weights; every Math.random() draw is a parameter. */
module OrderBook {
  import opened Types

  /** Levels generated per side (components/TradingView.tsx:106). */
  const Depth: nat := 15
  /** Levels kept per side (components/TradingView.tsx:127). */
  const Kept: nat := 7

  /** The inputs `orderBookData` reads: `tickerPrice`, `coin.prevPrice` and
      `coin.volume24h`. */
  datatype Quote = Quote(price: real, prevPrice: real, volume24h: real)

  /** The two draws one level consumes: the wall coin flip (only drawn for an
      eligible index) and the random factor. */
  datatype LevelDraws = LevelDraws(flip: real, factor: real)

  /** `getGammaVolume(i)` for every generated index, and the draws of each side,
      indexed by the generation index i (0 is nearest the market). */
  datatype BookDraws = BookDraws(gamma: seq<real>, asks: seq<LevelDraws>, bids: seq<LevelDraws>)

  predicate IsDraw(x: real) { 0.0 <= x < 1.0 }

  predicate Shaped(d: BookDraws)
  {
    |d.gamma| == Depth && |d.asks| == Depth && |d.bids| == Depth
  }

  /** What is known of the abstracted weight function and of Math.random(). */
  predicate Admissible(d: BookDraws)
  {
    Shaped(d) &&
    forall i :: 0 <= i < Depth ==>
      d.gamma[i] > 0.0 &&
      IsDraw(d.asks[i].flip) && IsDraw(d.asks[i].factor) &&
      IsDraw(d.bids[i].flip) && IsDraw(d.bids[i].factor)
  }

  /** Tick size by price magnitude (components/TradingView.tsx:102-104). */
  function TickSize(price: real): (t: real)
    ensures t == 1000.0 || t == 100.0 || t == 1.0 || t == 0.01
  {
    var small := if price >= 1000.0 then 1.0 else 0.01;
    if price >= 1000000.0 then 1000.0
    else if price >= 100000.0 then 100.0
    else small
  }

  /** A higher price never gets a finer tick, and from 1,000 up a tick is at
      most a thousandth of the price. */
  lemma TickSizeMonotone(p: real, q: real)
    requires p <= q
    ensures TickSize(p) <= TickSize(q)
    ensures p >= 1000.0 ==> TickSize(p) <= p / 1000.0
  {
  }

  /** `Math.max(-5, Math.min(5, x))`. */
  function Clamp(x: real): (c: real)
    ensures -5.0 <= c <= 5.0
    ensures -5.0 <= x <= 5.0 ==> c == x
    ensures x >= 5.0 ==> c == 5.0
    ensures x <= -5.0 ==> c == -5.0
    ensures SignOf(c) == SignOf(x)
  {
    Max(-5.0, Min(5.0, x))
  }

  /** `1 + clamp(changeRate) * 0.1` (components/TradingView.tsx:93-94):
      in [0.5, 1.5], above 1 exactly for a rising price. */
  function Imbalance(changeRate: real): (m: real)
    ensures 0.5 <= m <= 1.5
    ensures SignOf(m - 1.0) == SignOf(changeRate)
  {
    1.0 + Clamp(changeRate) * 0.1
  }

  /** `Math.max(volume24h / 50, 500)` (components/TradingView.tsx:95). */
  function BaseVolume(volume: real): (b: real)
    ensures b >= 500.0 && b >= volume / 50.0
    ensures b == 500.0 || b == volume / 50.0
    ensures volume <= 25000.0 ==> b == 500.0
  {
    Max(volume / 50.0, 500.0)
  }

  /** `0.8 + Math.random() * 0.4`. */
  function RandomFactor(draw: real): (f: real)
    ensures IsDraw(draw) ==> 0.8 <= f < 1.2
  {
    0.8 + draw * 0.4
  }

  /** `isWall ? 2.5 : 1`, where a level is a wall when its index is eligible
      and the coin flip `Math.random() > 0.5` succeeds. */
  function WallFactor(eligible: bool, flip: real): (w: real)
    ensures w == 1.0 || w == 2.5
    ensures w == 2.5 <==> eligible && flip > 0.5
  {
    if eligible && flip > 0.5 then 2.5 else 1.0
  }

  function AskWallEligible(i: nat): bool { i % 7 == 3 }

  function BidWallEligible(i: nat): bool { i % 8 == 2 }

  /** The unfloored quantity of one level:
      `baseVolume * getGammaVolume(i) * side * randomFactor * wall`. */
  function SideVolume(base: real, weight: real, side: real, factor: real, wall: real): real
  {
    base * weight * side * factor * wall
  }

  /** The ask side's weight `2 - imbalance` and the bid side's `imbalance`. */
  function AskSide(q: Quote): real
    requires q.prevPrice != 0.0
  {
    2.0 - Imbalance(ChangeRate(q.price, q.prevPrice))
  }

  function BidSide(q: Quote): real
    requires q.prevPrice != 0.0
  {
    Imbalance(ChangeRate(q.price, q.prevPrice))
  }

  /** `currentPrice + (i + 1) * tickSize` and `currentPrice - i * tickSize`. */
  function AskPrice(price: real, tick: real, i: int): real { price + (i + 1) as real * tick }

  function BidPrice(price: real, tick: real, i: int): real { price - i as real * tick }

  function AskAmount(q: Quote, d: BookDraws, i: nat): int
    requires q.prevPrice != 0.0 && Shaped(d) && i < Depth
  {
    SideVolume(BaseVolume(q.volume24h), d.gamma[i], AskSide(q),
               RandomFactor(d.asks[i].factor), WallFactor(AskWallEligible(i), d.asks[i].flip)).Floor
  }

  function BidAmount(q: Quote, d: BookDraws, i: nat): int
    requires q.prevPrice != 0.0 && Shaped(d) && i < Depth
  {
    SideVolume(BaseVolume(q.volume24h), d.gamma[i], BidSide(q),
               RandomFactor(d.bids[i].factor), WallFactor(BidWallEligible(i), d.bids[i].flip)).Floor
  }

  /** The ask pushed for generation index i (components/TradingView.tsx:109-115). */
  function AskItem(q: Quote, d: BookDraws, i: nat): OrderBookItem
    requires q.prevPrice != 0.0 && Shaped(d) && i < Depth
  {
    var p := AskPrice(q.price, TickSize(q.price), i);
    OrderBookItem(p, AskAmount(q, d, i), ChangeRate(p, q.prevPrice))
  }

  /** The bid pushed for generation index i (components/TradingView.tsx:119-125). */
  function BidItem(q: Quote, d: BookDraws, i: nat): OrderBookItem
    requires q.prevPrice != 0.0 && Shaped(d) && i < Depth
  {
    var p := BidPrice(q.price, TickSize(q.price), i);
    OrderBookItem(p, BidAmount(q, d, i), ChangeRate(p, q.prevPrice))
  }

  /** The returned asks: the seven generated nearest the market, in push order,
      that is far to near (generation indices 6 down to 0). */
  function Asks(q: Quote, d: BookDraws): seq<OrderBookItem>
    requires q.prevPrice != 0.0 && Shaped(d)
  {
    seq(Kept, k requires 0 <= k < Kept => AskItem(q, d, Kept - 1 - k))
  }

  /** The returned bids: the first seven generated, near to far. */
  function Bids(q: Quote, d: BookDraws): seq<OrderBookItem>
    requires q.prevPrice != 0.0 && Shaped(d)
  {
    seq(Kept, k requires 0 <= k < Kept => BidItem(q, d, k))
  }

  /** One iteration of the ask loop (components/TradingView.tsx:109-115). */
  method AskLevel(q: Quote, d: BookDraws, tickSize: real, i: nat) returns (item: OrderBookItem)
    requires q.prevPrice != 0.0 && Shaped(d) && i < Depth && tickSize == TickSize(q.price)
    ensures item == AskItem(q, d, i)
  {
    var p := q.price + (i + 1) as real * tickSize;
    var change := ((p - q.prevPrice) / q.prevPrice) * 100.0;
    var vol := BaseVolume(q.volume24h) * d.gamma[i] * AskSide(q);
    var isWall := i % 7 == 3 && d.asks[i].flip > 0.5;
    vol := vol * (0.8 + d.asks[i].factor * 0.4) * (if isWall then 2.5 else 1.0);
    assert vol == SideVolume(BaseVolume(q.volume24h), d.gamma[i], AskSide(q),
                             RandomFactor(d.asks[i].factor), WallFactor(AskWallEligible(i), d.asks[i].flip));
    item := OrderBookItem(p, vol.Floor, change);
  }

  /** One iteration of the bid loop (components/TradingView.tsx:119-125). */
  method BidLevel(q: Quote, d: BookDraws, tickSize: real, i: nat) returns (item: OrderBookItem)
    requires q.prevPrice != 0.0 && Shaped(d) && i < Depth && tickSize == TickSize(q.price)
    ensures item == BidItem(q, d, i)
  {
    var p := q.price - i as real * tickSize;
    var change := ((p - q.prevPrice) / q.prevPrice) * 100.0;
    var vol := BaseVolume(q.volume24h) * d.gamma[i] * BidSide(q);
    var isWall := i % 8 == 2 && d.bids[i].flip > 0.5;
    vol := vol * (0.8 + d.bids[i].factor * 0.4) * (if isWall then 2.5 else 1.0);
    assert vol == SideVolume(BaseVolume(q.volume24h), d.gamma[i], BidSide(q),
                             RandomFactor(d.bids[i].factor), WallFactor(BidWallEligible(i), d.bids[i].flip));
    item := OrderBookItem(p, vol.Floor, change);
  }

  /** `orderBookData` (components/TradingView.tsx:87-128): a loop from index 14
      down to 0 pushing asks, a loop from 0 up to 14 pushing bids, then the
      last seven asks and the first seven bids. */
  method OrderBookData(q: Quote, d: BookDraws) returns (asks: seq<OrderBookItem>, bids: seq<OrderBookItem>)
    requires q.prevPrice != 0.0 && Shaped(d)
    ensures asks == Asks(q, d) && bids == Bids(q, d)
  {
    var pushedAsks: seq<OrderBookItem> := [];
    var pushedBids: seq<OrderBookItem> := [];
    var tickSize := TickSize(q.price);

    var i: int := Depth - 1;
    while i >= 0
      invariant -1 <= i < Depth
      invariant |pushedAsks| == Depth - 1 - i
      invariant forall j :: 0 <= j < |pushedAsks| ==> pushedAsks[j] == AskItem(q, d, Depth - 1 - j)
    {
      var item := AskLevel(q, d, tickSize, i);
      pushedAsks := pushedAsks + [item];
      i := i - 1;
    }

    i := 0;
    while i < Depth
      invariant 0 <= i <= Depth
      invariant |pushedBids| == i
      invariant forall j :: 0 <= j < i ==> pushedBids[j] == BidItem(q, d, j)
    {
      var item := BidLevel(q, d, tickSize, i);
      pushedBids := pushedBids + [item];
      i := i + 1;
    }

    asks := pushedAsks[|pushedAsks| - Kept..];
    bids := pushedBids[..Kept];
  }

  /** Consecutive levels of either side are one tick apart, and the nearest
      ask sits one tick above the nearest bid. */
  lemma PriceSteps(price: real, tick: real, i: int)
    ensures AskPrice(price, tick, i + 1) - AskPrice(price, tick, i) == tick
    ensures BidPrice(price, tick, i) - BidPrice(price, tick, i + 1) == tick
    ensures AskPrice(price, tick, 0) - BidPrice(price, tick, 0) == tick
  {
    assert (i + 2) as real * tick == (i + 1) as real * tick + tick;
    assert (i + 1) as real * tick == i as real * tick + tick;
  }

  /** The price ladder (components/TradingView.tsx:108-127): asks at
      price + 7t down to price + t, bids at price down to price - 6t, so asks
      followed by bids fall by exactly one tick at every step. */
  lemma LadderPrices(q: Quote, d: BookDraws)
    requires q.prevPrice != 0.0 && Shaped(d)
    ensures |Asks(q, d)| == Kept && |Bids(q, d)| == Kept
    ensures forall k :: 0 <= k < Kept ==>
      Asks(q, d)[k].price == q.price + (Kept - k) as real * TickSize(q.price)
    ensures forall k :: 0 <= k < Kept ==>
      Bids(q, d)[k].price == q.price - k as real * TickSize(q.price)
    ensures var ladder := Asks(q, d) + Bids(q, d);
      forall k :: 0 <= k < |ladder| - 1 ==> ladder[k].price - ladder[k + 1].price == TickSize(q.price)
  {
    var t := TickSize(q.price);
    var asks, bids := Asks(q, d), Bids(q, d);
    forall k | 0 <= k < Kept
      ensures asks[k].price == AskPrice(q.price, t, Kept - 1 - k) == q.price + (Kept - k) as real * t
      ensures bids[k].price == BidPrice(q.price, t, k)
    {
      assert asks[k] == AskItem(q, d, Kept - 1 - k);
      assert bids[k] == BidItem(q, d, k);
      assert Kept - 1 - k + 1 == Kept - k;
    }
    var ladder := asks + bids;
    forall k | 0 <= k < |ladder| - 1
      ensures ladder[k].price - ladder[k + 1].price == t
    {
      if k < Kept - 1 {
        assert ladder[k] == asks[k] && ladder[k + 1] == asks[k + 1];
        PriceSteps(q.price, t, Kept - 2 - k);
      } else if k == Kept - 1 {
        assert ladder[k] == asks[k] && ladder[k + 1] == bids[0];
        PriceSteps(q.price, t, 0);
      } else {
        assert ladder[k] == bids[k - Kept] && ladder[k + 1] == bids[k + 1 - Kept];
        PriceSteps(q.price, t, k - Kept);
      }
    }
  }

  /** Each level's change rate is the change-rate formula at that level's price
      (components/TradingView.tsx:111, 121); with a positive baseline the rates
      strictly fall along the ladder, asks then bids. */
  lemma LadderChangeRates(q: Quote, d: BookDraws)
    requires q.prevPrice != 0.0 && Shaped(d)
    ensures var ladder := Asks(q, d) + Bids(q, d);
      (forall k :: 0 <= k < |ladder| ==> ladder[k].changeRate == ChangeRate(ladder[k].price, q.prevPrice)) &&
      (q.prevPrice > 0.0 ==> forall k :: 0 <= k < |ladder| - 1 ==> ladder[k].changeRate > ladder[k + 1].changeRate)
  {
    LadderPrices(q, d);
    var asks, bids := Asks(q, d), Bids(q, d);
    var ladder := asks + bids;
    forall k | 0 <= k < |ladder| ensures ladder[k].changeRate == ChangeRate(ladder[k].price, q.prevPrice) {
      if k < Kept {
        assert ladder[k] == asks[k] == AskItem(q, d, Kept - 1 - k);
      } else {
        assert ladder[k] == bids[k - Kept] == BidItem(q, d, k - Kept);
      }
    }
    if q.prevPrice > 0.0 {
      forall k | 0 <= k < |ladder| - 1 ensures ladder[k].changeRate > ladder[k + 1].changeRate {
        ChangeRateStrictlyMonotone(ladder[k + 1].price, ladder[k].price, q.prevPrice);
      }
    }
  }

  /** A product of positive factors, as every level's volume is. */
  lemma SideVolumePositive(base: real, weight: real, side: real, factor: real, wall: real)
    requires base > 0.0 && weight > 0.0 && side > 0.0 && factor > 0.0 && wall > 0.0
    ensures SideVolume(base, weight, side, factor, wall) > 0.0
  {
    MulPositive(base, weight);
    MulPositive(base * weight, side);
    MulPositive(base * weight * side, factor);
    MulPositive(base * weight * side * factor, wall);
  }

  /** The amount at ask generation index i is a non-negative integer, and the
      level is boosted only at index 3. */
  lemma AskAmountFacts(q: Quote, d: BookDraws, i: nat)
    requires q.prevPrice != 0.0 && Admissible(d) && i < Depth
    ensures AskAmount(q, d, i) >= 0
    ensures WallFactor(AskWallEligible(i), d.asks[i].flip) == 2.5 && i < Kept ==> i == 3
  {
    SideVolumePositive(BaseVolume(q.volume24h), d.gamma[i], AskSide(q), RandomFactor(d.asks[i].factor),
                       WallFactor(AskWallEligible(i), d.asks[i].flip));
  }

  /** The amount at bid generation index i is a non-negative integer, and the
      level is boosted only at index 2. */
  lemma BidAmountFacts(q: Quote, d: BookDraws, i: nat)
    requires q.prevPrice != 0.0 && Admissible(d) && i < Depth
    ensures BidAmount(q, d, i) >= 0
    ensures WallFactor(BidWallEligible(i), d.bids[i].flip) == 2.5 && i < Kept ==> i == 2
  {
    SideVolumePositive(BaseVolume(q.volume24h), d.gamma[i], BidSide(q), RandomFactor(d.bids[i].factor),
                       WallFactor(BidWallEligible(i), d.bids[i].flip));
  }

  /** Every kept amount is a non-negative integer: the floor of
      `baseVolume * w(i) * side * rf * wall` with w(i) > 0, rf in [0.8, 1.2)
      and wall 1 or 2.5, where a kept ask can be a wall only at generation
      index 3 and a kept bid only at index 2 (components/TradingView.tsx:112-114,
      122-124, 127). */
  lemma KeptAmounts(q: Quote, d: BookDraws)
    requires q.prevPrice != 0.0 && Admissible(d)
    ensures forall k :: 0 <= k < Kept ==>
      Asks(q, d)[k].amount == AskAmount(q, d, Kept - 1 - k) >= 0 &&
      (WallFactor(AskWallEligible(Kept - 1 - k), d.asks[Kept - 1 - k].flip) == 2.5 ==> k == 3)
    ensures forall k :: 0 <= k < Kept ==>
      Bids(q, d)[k].amount == BidAmount(q, d, k) >= 0 &&
      (WallFactor(BidWallEligible(k), d.bids[k].flip) == 2.5 ==> k == 2)
  {
    forall k | 0 <= k < Kept
      ensures Asks(q, d)[k].amount == AskAmount(q, d, Kept - 1 - k) >= 0
      ensures Bids(q, d)[k].amount == BidAmount(q, d, k) >= 0
      ensures WallFactor(AskWallEligible(Kept - 1 - k), d.asks[Kept - 1 - k].flip) == 2.5 ==> k == 3
      ensures WallFactor(BidWallEligible(k), d.bids[k].flip) == 2.5 ==> k == 2
    {
      AskAmountFacts(q, d, Kept - 1 - k);
      BidAmountFacts(q, d, k);
      assert Asks(q, d)[k] == AskItem(q, d, Kept - 1 - k);
      assert Bids(q, d)[k] == BidItem(q, d, k);
    }
  }

  /** The side weight factors out of a level's volume. */
  lemma SideVolumeFactors(base: real, weight: real, side: real, factor: real, wall: real)
    ensures SideVolume(base, weight, side, factor, wall) == side * (base * weight * factor * wall)
  {
  }

  /** The imbalance bias (components/TradingView.tsx:94, 112, 122): with the
      weight, random factor and wall held equal, the bid volume exceeds the ask
      volume exactly when the clamped change rate is positive, falls short of
      it exactly when it is negative, and flooring keeps the order. */
  lemma BidAskBias(q: Quote, base: real, weight: real, factor: real, wall: real)
    requires q.prevPrice != 0.0
    requires base > 0.0 && weight > 0.0 && factor > 0.0 && wall > 0.0
    ensures var clamped := Clamp(ChangeRate(q.price, q.prevPrice));
      var ask := SideVolume(base, weight, AskSide(q), factor, wall);
      var bid := SideVolume(base, weight, BidSide(q), factor, wall);
      (bid > ask <==> clamped > 0.0) &&
      (bid < ask <==> clamped < 0.0) &&
      (clamped >= 0.0 ==> bid.Floor >= ask.Floor) &&
      (clamped <= 0.0 ==> bid.Floor <= ask.Floor)
  {
    var clamped := Clamp(ChangeRate(q.price, q.prevPrice));
    var g := base * weight * factor * wall;
    SideVolumePositive(base, weight, 1.0, factor, wall);
    SideVolumeFactors(base, weight, AskSide(q), factor, wall);
    SideVolumeFactors(base, weight, BidSide(q), factor, wall);
    SideVolumeFactors(base, weight, 1.0, factor, wall);
    assert g > 0.0;
    var gap := BidSide(q) - AskSide(q);
    assert gap == 0.2 * clamped;
    var ask := AskSide(q) * g;
    var bid := BidSide(q) * g;
    assert bid - ask == gap * g;
    if clamped > 0.0 {
      MulPositive(gap, g);
    } else if clamped < 0.0 {
      MulPositive(-gap, g);
    }
  }

  /** Worked example: price 1000 with a baseline of 1000 and volume 25,000
      gives tick 1, asks 1007 down to 1001, bids 1000 down to 994, and the
      volume floor of 500. */
  lemma ThousandLadder(d: BookDraws)
    requires Shaped(d)
    ensures var q := Quote(1000.0, 1000.0, 25000.0);
      TickSize(q.price) == 1.0 && BaseVolume(q.volume24h) == 500.0 &&
      (forall k :: 0 <= k < Kept ==> Asks(q, d)[k].price == (1007 - k) as real) &&
      (forall k :: 0 <= k < Kept ==> Bids(q, d)[k].price == (1000 - k) as real)
  {
    LadderPrices(Quote(1000.0, 1000.0, 25000.0), d);
  }

  /** `Math.max(...items.map(o => o.amount), 0)` (components/TradingView.tsx:131-132). */
  function MaxAmount(items: seq<OrderBookItem>): (m: int)
    ensures m >= 0
    ensures forall k :: 0 <= k < |items| ==> items[k].amount <= m
    ensures m == 0 || exists k :: 0 <= k < |items| && items[k].amount == m
  {
    if |items| == 0 then 0
    else
      var rest := MaxAmount(items[1..]);
      assert forall k :: 1 <= k < |items| ==> items[k] == items[1..][k - 1];
      if items[0].amount >= rest then (if items[0].amount > 0 then items[0].amount else 0)
      else rest
  }

  /** `maxQuantity` (components/TradingView.tsx:130-134): the largest amount on
      either side, or 0 when there is none above 0. */
  function MaxQuantity(asks: seq<OrderBookItem>, bids: seq<OrderBookItem>): (m: int)
    ensures m >= 0
    ensures forall k :: 0 <= k < |asks| ==> asks[k].amount <= m
    ensures forall k :: 0 <= k < |bids| ==> bids[k].amount <= m
    ensures m == 0 || (exists k :: 0 <= k < |asks| && asks[k].amount == m)
                   || (exists k :: 0 <= k < |bids| && bids[k].amount == m)
  {
    var a, b := MaxAmount(asks), MaxAmount(bids);
    if a >= b then a else b
  }

  /** `maxQuantity > 0 ? item.amount / maxQuantity : 0` (components/TradingView.tsx:137). */
  function QuantityRatio(amount: int, maxQuantity: int): real
  {
    if maxQuantity > 0 then amount as real / maxQuantity as real else 0.0
  }

  /** `quantityRatio * 50`, the bar width in percent (components/TradingView.tsx:138). */
  function BarWidth(amount: int, maxQuantity: int): real
  {
    QuantityRatio(amount, maxQuantity) * 50.0
  }

  /** An amount between 0 and the book's maximum has a ratio in [0, 1] and a
      bar width in [0, 50]; the maximum itself draws the full 50. */
  lemma BarBounded(amount: int, maxQuantity: int)
    requires 0 <= amount <= maxQuantity
    ensures 0.0 <= QuantityRatio(amount, maxQuantity) <= 1.0
    ensures 0.0 <= BarWidth(amount, maxQuantity) <= 50.0
    ensures maxQuantity > 0 && amount == maxQuantity ==> BarWidth(amount, maxQuantity) == 50.0
  {
    if maxQuantity > 0 {
      var r := amount as real / maxQuantity as real;
      assert r * maxQuantity as real == amount as real;
      if r > 1.0 {
        MulLess(1.0, r, maxQuantity as real);
      }
    }
  }

  /** Every row of a synthesised book draws a bar of width in [0, 50]. */
  lemma BookBarsBounded(q: Quote, d: BookDraws)
    requires q.prevPrice != 0.0 && Admissible(d)
    ensures var m := MaxQuantity(Asks(q, d), Bids(q, d));
      (forall k :: 0 <= k < Kept ==> 0.0 <= BarWidth(Asks(q, d)[k].amount, m) <= 50.0) &&
      (forall k :: 0 <= k < Kept ==> 0.0 <= BarWidth(Bids(q, d)[k].amount, m) <= 50.0)
  {
    KeptAmounts(q, d);
    var asks, bids := Asks(q, d), Bids(q, d);
    var m := MaxQuantity(asks, bids);
    forall k | 0 <= k < Kept
      ensures 0.0 <= BarWidth(asks[k].amount, m) <= 50.0 && 0.0 <= BarWidth(bids[k].amount, m) <= 50.0
    {
      BarBounded(asks[k].amount, m);
      BarBounded(bids[k].amount, m);
    }
  }

  /** From a price of 1,000 up every bid level is priced above zero. */
  lemma BidPricesPositive(q: Quote, d: BookDraws)
    requires q.prevPrice != 0.0 && Shaped(d) && q.price >= 1000.0
    ensures forall k :: 0 <= k < Kept ==> Bids(q, d)[k].price > 0.0
  {
    LadderPrices(q, d);
    TickSizeMonotone(q.price, q.price);
    var t := TickSize(q.price);
    forall k | 0 <= k < Kept ensures Bids(q, d)[k].price > 0.0 {
      MulAtMost(k as real, 6.0, t);
    }
  }
}
