/** The market tick engine of App.tsx: the `setCoins` updater that moves one
    randomly chosen coin, the five self-rescheduling timeout loops with their
    `isMounted` flag and `activeTimeouts` set, and the `selectedCoin` lookup.
    Every Math.random() draw is a parameter in [0, 1). */
module Market {
  import opened Types

  /** Number of concurrent update loops started on mount (App.tsx:70). */
  const Loops: nat := 5

  /** The four Math.random() draws one tick consumes, in source order:
      the coin index, the fluctuation, the trade coin flip and the trade size. */
  datatype TickDraws = TickDraws(index: real, fluctuation: real, trade: real, tradeSize: real)

  predicate IsDraw(x: real) { 0.0 <= x < 1.0 }

  predicate DrawsInRange(d: TickDraws)
  {
    IsDraw(d.index) && IsDraw(d.fluctuation) && IsDraw(d.trade) && IsDraw(d.tradeSize)
  }

  /** `Math.floor(Math.random() * prevCoins.length)` (App.tsx:26). An empty list
      would make the updater read a field of `undefined`, so n > 0. */
  function PickIndex(draw: real, n: nat): (i: nat)
    requires IsDraw(draw) && n > 0
    ensures i < n
    ensures draw * n as real - 1.0 < i as real <= draw * n as real
  {
    assert draw * n as real < n as real;
    (draw * n as real).Floor
  }

  /** `(Math.random() - 0.5) * (coin.price * 0.005)` (App.tsx:31):
      at most a quarter of a percent of the price either way. */
  function Fluctuation(price: real, draw: real): (f: real)
    requires IsDraw(draw)
    ensures price >= 0.0 ==> -0.0025 * price <= f <= 0.0025 * price
    ensures price > 0.0 ==> f < 0.0025 * price
  {
    if price >= 0.0 then FluctuationBound(price, draw); (draw - 0.5) * (price * 0.005)
    else (draw - 0.5) * (price * 0.005)
  }

  lemma FluctuationBound(price: real, draw: real)
    requires IsDraw(draw) && price >= 0.0
    ensures -0.0025 * price <= (draw - 0.5) * (price * 0.005) <= 0.0025 * price
    ensures price > 0.0 ==> (draw - 0.5) * (price * 0.005) < 0.0025 * price
  {
    var a, b := draw - 0.5, price * 0.005;
    MulAtMost(-0.5, a, b);
    MulAtMost(a, 0.5, b);
    if price > 0.0 {
      MulLess(a, 0.5, b);
    }
  }

  /** A price carries the precision of its own band (App.tsx:35-38): a
      multiple of 100 above 100,000, whole above 1,000, a multiple of 0.1
      above 100 and of 0.01 below. */
  predicate OnGrid(p: real)
  {
    (p > 100000.0 ==> IsIntegral(p / 100.0)) &&
    (1000.0 < p <= 100000.0 ==> IsIntegral(p)) &&
    (100.0 < p <= 1000.0 ==> IsIntegral(p * 10.0)) &&
    (p <= 100.0 ==> IsIntegral(p * 100.0))
  }

  /** The price-tick rounding of App.tsx:35-38, tier chosen on the unrounded
      value: a multiple of 100 above 100,000, an integer above 1,000, a multiple
      of 0.1 above 100 and of 0.01 otherwise, always within half a step. */
  function RoundToTick(raw: real): (p: real)
    ensures raw > 100000.0 ==> IsIntegral(p / 100.0) && raw - 50.0 < p <= raw + 50.0
    ensures 1000.0 < raw <= 100000.0 ==> IsIntegral(p) && raw - 0.5 < p <= raw + 0.5
    ensures 100.0 < raw <= 1000.0 ==> IsIntegral(p * 10.0) && raw - 0.05 < p <= raw + 0.05
    ensures raw <= 100.0 ==> IsIntegral(p * 100.0) && raw - 0.005 < p <= raw + 0.005
    ensures raw >= 0.0 ==> p >= 0.0
  {
    if raw > 100000.0 then Round(raw / 100.0) as real * 100.0
    else if raw > 1000.0 then Round(raw) as real
    else if raw > 100.0 then Round(raw * 10.0) as real / 10.0
    else Round(raw * 100.0) as real / 100.0
  }

  /** Whatever tier rounds it, the stored price lies on the grid of the band it
      lands in, even when rounding carries it across a band edge. */
  lemma TickOnGrid(raw: real)
    ensures OnGrid(RoundToTick(raw))
  {
    if raw > 100000.0 {
      HundredsOnGrid(Round(raw / 100.0));
    } else if raw > 1000.0 {
      WholeOnGrid(Round(raw));
    } else if raw > 100.0 {
      TenthsOnGrid(Round(raw * 10.0));
    } else {
      HundredthsOnGrid(Round(raw * 100.0));
    }
  }

  /** A multiple of 100 is on the grid of every band. */
  lemma HundredsOnGrid(n: int)
    ensures OnGrid(n as real * 100.0)
  {
    var p := n as real * 100.0;
    IntegralShift(0.0, n);
    IntegralShift(0.0, n * 100);
    IntegralShift(0.0, n * 1000);
    IntegralShift(0.0, n * 10000);
    assert p / 100.0 == 0.0 + n as real;
    assert p == 0.0 + (n * 100) as real;
    assert p * 10.0 == 0.0 + (n * 1000) as real;
    assert p * 100.0 == 0.0 + (n * 10000) as real;
  }

  /** A whole number up to 100,000 is on its band's grid. */
  lemma WholeOnGrid(n: int)
    requires n <= 100000
    ensures OnGrid(n as real)
  {
    var p := n as real;
    assert p <= 100000.0;
    IntegralShift(0.0, n);
    IntegralShift(0.0, n * 10);
    IntegralShift(0.0, n * 100);
    assert p * 10.0 == 0.0 + (n * 10) as real;
    assert p * 100.0 == 0.0 + (n * 100) as real;
  }

  /** A multiple of 0.1 up to 1,000 is on its band's grid. */
  lemma TenthsOnGrid(n: int)
    requires n <= 10000
    ensures OnGrid(n as real / 10.0)
  {
    var p := n as real / 10.0;
    assert p <= 1000.0;
    IntegralShift(0.0, n);
    IntegralShift(0.0, n * 10);
    assert p * 10.0 == 0.0 + n as real;
    assert p * 100.0 == 0.0 + (n * 10) as real;
  }

  /** A multiple of 0.01 up to 100 is on its band's grid. */
  lemma HundredthsOnGrid(n: int)
    requires n <= 10000
    ensures OnGrid(n as real / 100.0)
  {
    assert n as real / 100.0 * 100.0 == n as real;
  }

  /** Worked example of the top tier: 1,203,450 is rounded to 1,203,500. */
  lemma RoundingExample()
    ensures RoundToTick(1203450.0) == 1203500.0
  {
    assert 1203450.0 / 100.0 + 0.5 == 12035.0;
  }

  /** The stored price after one tick: clamp at 0, then round (App.tsx:31-38). */
  function NextPrice(price: real, draw: real): (p: real)
    requires IsDraw(draw)
    ensures p >= 0.0
    ensures price >= 0.0 ==> 0.9975 * price - 50.0 < p <= 1.0025 * price + 50.0
  {
    RoundToTick(Max(0.0, price + Fluctuation(price, draw)))
  }

  /** Volume added by one tick (App.tsx:41-45): nothing unless the trade flip is
      below 0.3, and then `tradeSize * newPrice / 1e6` with `tradeSize` in [0, 500). */
  function AddedVolume(tradeDraw: real, sizeDraw: real, newPrice: real): (v: real)
    requires IsDraw(tradeDraw) && IsDraw(sizeDraw)
    ensures tradeDraw >= 0.3 ==> v == 0.0
    ensures newPrice >= 0.0 ==> 0.0 <= v <= newPrice / 2000.0
    ensures newPrice > 0.0 && tradeDraw < 0.3 ==> v < newPrice / 2000.0
  {
    if tradeDraw < 0.3 then
      var tradeSize := sizeDraw * 500.0;
      if newPrice >= 0.0 then
        MulNonNegative(tradeSize, newPrice);
        MulAtMost(tradeSize, 500.0, newPrice);
        if newPrice > 0.0 then MulLess(tradeSize, 500.0, newPrice); (tradeSize * newPrice) / 1000000.0
        else (tradeSize * newPrice) / 1000000.0
      else (tradeSize * newPrice) / 1000000.0
    else 0.0
  }

  /** Proof step for `NextCoin`, not a property of its own: the traded branch
      of `AddedVolume` unfolded with the trade size named, which keeps the
      solver from re-deriving the product in the method. */
  lemma TradeVolume(tradeDraw: real, sizeDraw: real, tradeSize: real, newPrice: real)
    requires IsDraw(tradeDraw) && IsDraw(sizeDraw) && tradeDraw < 0.3
    requires tradeSize == sizeDraw * 500.0
    ensures AddedVolume(tradeDraw, sizeDraw, newPrice) == (tradeSize * newPrice) / 1000000.0
  {
  }

  /** The record written back for the chosen coin (App.tsx:50-55): the spread
      keeps every field except price, changeRate and volume24h. */
  function Retick(coin: Coin, d: TickDraws): (c: Coin)
    requires DrawsInRange(d) && coin.prevPrice != 0.0
    ensures c.(price := coin.price, changeRate := coin.changeRate, volume24h := coin.volume24h) == coin
    ensures c.price == NextPrice(coin.price, d.fluctuation) && c.price >= 0.0
    ensures c.volume24h >= coin.volume24h
    ensures c.changeRate == ChangeRate(c.price, coin.prevPrice)
  {
    var newPrice := NextPrice(coin.price, d.fluctuation);
    coin.(price := newPrice,
          changeRate := ChangeRate(newPrice, coin.prevPrice),
          volume24h := coin.volume24h + AddedVolume(d.trade, d.tradeSize, newPrice))
  }

  /** The coin list after one tick: only the chosen slot is replaced. */
  function Ticked(coins: seq<Coin>, d: TickDraws): (r: seq<Coin>)
    requires |coins| > 0 && DrawsInRange(d)
    requires coins[PickIndex(d.index, |coins|)].prevPrice != 0.0
  {
    var k := PickIndex(d.index, |coins|);
    coins[k := Retick(coins[k], d)]
  }

  /** The rounding statements of App.tsx:34-38, applied to `newPrice` in place. */
  method RoundPrice(raw: real) returns (newPrice: real)
    ensures newPrice == RoundToTick(raw)
  {
    newPrice := raw;
    if newPrice > 100000.0 {
      newPrice := Round(newPrice / 100.0) as real * 100.0;
    } else if newPrice > 1000.0 {
      newPrice := Round(newPrice) as real;
    } else if newPrice > 100.0 {
      newPrice := Round(newPrice * 10.0) as real / 10.0;
    } else {
      newPrice := Round(newPrice * 100.0) as real / 100.0;
    }
  }

  /** The body of the `setCoins` updater for the chosen coin (App.tsx:30-55),
      statement by statement: fluctuate, clamp, round, add volume, recompute
      the change rate, spread the rest. */
  method NextCoin(coin: Coin, d: TickDraws) returns (next: Coin)
    requires DrawsInRange(d) && coin.prevPrice != 0.0
    ensures next == Retick(coin, d)
  {
    var fluctuation := (d.fluctuation - 0.5) * (coin.price * 0.005);
    assert fluctuation == Fluctuation(coin.price, d.fluctuation);
    var newPrice := Max(0.0, coin.price + fluctuation);
    newPrice := RoundPrice(newPrice);
    assert newPrice == NextPrice(coin.price, d.fluctuation);

    var addedVolume := 0.0;
    if d.trade < 0.3 {
      var tradeSize := d.tradeSize * 500.0;
      addedVolume := (tradeSize * newPrice) / 1000000.0;
      TradeVolume(d.trade, d.tradeSize, tradeSize, newPrice);
      assert addedVolume == AddedVolume(d.trade, d.tradeSize, newPrice);
    } else {
      assert addedVolume == AddedVolume(d.trade, d.tradeSize, newPrice);
    }

    var changeRate := ((newPrice - coin.prevPrice) / coin.prevPrice) * 100.0;
    next := coin.(price := newPrice, changeRate := changeRate,
                  volume24h := coin.volume24h + addedVolume);
  }

  /** The `setCoins` updater of App.tsx:24-58: copy the list, overwrite the
      randomly chosen slot of the copy, return the copy. */
  method Updater(prevCoins: seq<Coin>, d: TickDraws) returns (newCoins: seq<Coin>)
    requires |prevCoins| > 0 && DrawsInRange(d)
    requires prevCoins[PickIndex(d.index, |prevCoins|)].prevPrice != 0.0
    ensures |newCoins| == |prevCoins|
    ensures var k := PickIndex(d.index, |prevCoins|);
      newCoins[k] == Retick(prevCoins[k], d) &&
      forall j :: 0 <= j < |prevCoins| && j != k ==> newCoins[j] == prevCoins[j]
  {
    var randomIndex := PickIndex(d.index, |prevCoins|);
    var copy := new Coin[|prevCoins|](j requires 0 <= j < |prevCoins| => prevCoins[j]);
    var coin := copy[randomIndex];
    var next := NextCoin(coin, d);
    copy[randomIndex] := next;
    newCoins := copy[..];
  }

  /** The tick engine's invariant on the coin list: at least one coin, and
      every coin has a non-negative price on the grid of its band and a
      positive baseline. */
  predicate CoinsReady(coins: seq<Coin>)
  {
    |coins| > 0 &&
    forall k :: 0 <= k < |coins| ==> coins[k].price >= 0.0 && OnGrid(coins[k].price) && coins[k].prevPrice > 0.0
  }

  /** Every stored change rate is the formula's value at the coin's price,
      to within the two-decimal rounding of the catalog (App.tsx:48). */
  predicate RatesCurrent(coins: seq<Coin>)
  {
    forall k :: 0 <= k < |coins| ==>
      coins[k].prevPrice != 0.0 &&
      -0.005 < coins[k].changeRate - ChangeRate(coins[k].price, coins[k].prevPrice) < 0.005
  }

  /** c is base with only its price, change rate and volume moved, and its
      volume not lower: every other field of the catalog record is kept. */
  predicate KeepsRecord(c: Coin, base: Coin)
  {
    c.(price := base.price, changeRate := base.changeRate, volume24h := base.volume24h) == base &&
    c.volume24h >= base.volume24h
  }

  /** Records kept across two steps are kept across both. */
  lemma KeepsRecordTrans(a: Coin, b: Coin, c: Coin)
    requires KeepsRecord(a, b) && KeepsRecord(b, c)
    ensures KeepsRecord(a, c)
  {
  }

  /** A tick keeps the engine's invariant, every id and every baseline, every
      other field of each record, and no coin's volume decreases; stored rates
      that were current stay current. */
  lemma {:induction false} TickedKeepsInvariant(coins: seq<Coin>, d: TickDraws)
    requires CoinsReady(coins) && DrawsInRange(d)
    ensures CoinsReady(Ticked(coins, d))
    ensures |Ticked(coins, d)| == |coins|
    ensures forall k :: 0 <= k < |coins| ==>
      Ticked(coins, d)[k].id == coins[k].id &&
      Ticked(coins, d)[k].prevPrice == coins[k].prevPrice &&
      Ticked(coins, d)[k].volume24h >= coins[k].volume24h
    ensures forall k :: 0 <= k < |coins| ==> KeepsRecord(Ticked(coins, d)[k], coins[k])
    ensures RatesCurrent(coins) ==> RatesCurrent(Ticked(coins, d))
  {
    var k := PickIndex(d.index, |coins|);
    var c := Retick(coins[k], d);
    TickOnGrid(Max(0.0, coins[k].price + Fluctuation(coins[k].price, d.fluctuation)));
    assert c.id == coins[k].id && c.prevPrice == coins[k].prevPrice;
  }

  /** `coins.find((c) => c.id === selectedCoinId)` (App.tsx:80): the first coin
      whose id is the selected one. */
  function Find(coins: seq<Coin>, id: string): (r: Option<Coin>)
    ensures r.None? <==> forall k :: 0 <= k < |coins| ==> coins[k].id != id
    ensures r.Some? ==> r.value in coins && r.value.id == id
    ensures forall k :: 0 <= k < |coins| && coins[k].id == id ==>
                          (forall j :: 0 <= j < k ==> coins[j].id != id) ==> r == Some(coins[k])
  {
    if |coins| == 0 then None
    else if coins[0].id == id then Some(coins[0])
    else
      var rest := coins[1..];
      assert forall k :: 0 < k < |coins| ==> coins[k] == rest[k - 1];
      var r := Find(rest, id);
      assert r.Some? ==> r.value in rest && r.value in coins;
      r
  }

  /** `coins.find(...) || null`, with `selectedCoinId` null as `None`: no coin
      is selected when nothing is, or when no coin has that id. */
  function SelectedCoin(coins: seq<Coin>, selectedCoinId: Option<string>): (r: Option<Coin>)
    ensures selectedCoinId.None? ==> r.None?
    ensures selectedCoinId.Some? ==> r == Find(coins, selectedCoinId.value)
  {
    match selectedCoinId
    case None => None
    case Some(id) => Find(coins, id)
  }

  predicate IdsDistinct(coins: seq<Coin>)
  {
    forall i, j :: 0 <= i < j < |coins| ==> coins[i].id != coins[j].id
  }

  /** With distinct ids, selecting a coin's id yields exactly that coin. */
  lemma SelectById(coins: seq<Coin>, k: nat)
    requires IdsDistinct(coins) && k < |coins|
    ensures SelectedCoin(coins, Some(coins[k].id)) == Some(coins[k])
  {
  }

  /** A tick never loses or changes the selected coin's identity: whatever id
      was found before is found after, and the coin found has that id. */
  lemma SelectionSurvivesTick(coins: seq<Coin>, d: TickDraws, sel: Option<string>)
    requires CoinsReady(coins) && DrawsInRange(d)
    ensures SelectedCoin(Ticked(coins, d), sel).Some? == SelectedCoin(coins, sel).Some?
    ensures SelectedCoin(Ticked(coins, d), sel).Some? ==>
      SelectedCoin(Ticked(coins, d), sel).value.id == sel.value
  {
    TickedKeepsInvariant(coins, d);
  }

  /** The App component's engine state: the coin list held by `useState`, the
      effect's `isMounted` flag and `activeTimeouts` set, and, standing for the
      host's timer table, `scheduled`: the timeouts set and neither fired nor
      cleared. setTimeout hands out fresh ids, modelled by `nextTimerId`. */
  class Engine {
    var coins: seq<Coin>
    var isMounted: bool
    var activeTimeouts: set<nat>
    var scheduled: set<nat>
    var nextTimerId: nat

    /** Holds between events, before and after startup. */
    ghost predicate WellFormed()
      reads this
    {
      CoinsReady(coins) && RatesCurrent(coins) &&
      (forall t :: t in activeTimeouts ==> t < nextTimerId) &&
      (forall t :: t in scheduled ==> t < nextTimerId) &&
      (isMounted ==> scheduled == activeTimeouts) &&
      (!isMounted ==> scheduled == {})
    }

    /** Holds after startup: while mounted exactly five loops are pending. */
    ghost predicate Valid()
      reads this
    {
      WellFormed() && (isMounted ==> |activeTimeouts| == Loops)
    }

    /** Mounting runs the effect: `isMounted` set, a fresh timeout set, and
      five calls of `scheduleUpdate` (App.tsx:16-22, 69-72). */
    constructor (catalog: seq<Coin>, startDraws: seq<TickDraws>)
      requires CoinsReady(catalog) && RatesCurrent(catalog)
      requires |startDraws| == Loops && forall i :: 0 <= i < Loops ==> DrawsInRange(startDraws[i])
      ensures Valid() && isMounted
      ensures |coins| == |catalog|
      ensures forall k :: 0 <= k < |coins| ==> coins[k].id == catalog[k].id
      ensures forall k :: 0 <= k < |coins| ==> KeepsRecord(coins[k], catalog[k])
    {
      coins := catalog;
      isMounted := true;
      activeTimeouts := {};
      scheduled := {};
      nextTimerId := 0;
      new;
      for i := 0 to Loops
        invariant WellFormed() && isMounted && |activeTimeouts| == i
        invariant |coins| == |catalog|
        invariant forall k :: 0 <= k < |coins| ==> coins[k].id == catalog[k].id
        invariant forall k :: 0 <= k < |coins| ==> KeepsRecord(coins[k], catalog[k])
      {
        ghost var before := coins;
        ScheduleUpdate(startDraws[i]);
        TickedKeepsInvariant(before, startDraws[i]);
        forall k | 0 <= k < |coins|
          ensures KeepsRecord(coins[k], catalog[k])
        {
          KeepsRecordTrans(coins[k], before[k], catalog[k]);
        }
      }
    }

    /** `scheduleUpdate` (App.tsx:21-67): nothing once unmounted; otherwise one
      tick of the coin list and one fresh timeout, recorded in `activeTimeouts`. */
    method ScheduleUpdate(d: TickDraws)
      requires WellFormed() && DrawsInRange(d)
      modifies this
      ensures WellFormed() && isMounted == old(isMounted)
      ensures !old(isMounted) ==> unchanged(this)
      ensures old(isMounted) ==>
        coins == Ticked(old(coins), d) &&
        old(nextTimerId) !in old(activeTimeouts) &&
        activeTimeouts == old(activeTimeouts) + {old(nextTimerId)} &&
        scheduled == old(scheduled) + {old(nextTimerId)}
    {
      if !isMounted {
        return;
      }
      var updated := Updater(coins, d);
      assert updated == Ticked(coins, d);
      TickedKeepsInvariant(coins, d);
      coins := updated;

      var timeoutId := nextTimerId;
      nextTimerId := nextTimerId + 1;
      scheduled := scheduled + {timeoutId};
      activeTimeouts := activeTimeouts + {timeoutId};
    }

    /** A pending timeout fires (App.tsx:62-65): it deletes its own id and calls
      `scheduleUpdate`, so while mounted five loops stay pending. Only a timeout
      that is still in the host's table can fire. */
    method Fire(id: nat, d: TickDraws)
      requires Valid() && id in scheduled && DrawsInRange(d)
      modifies this
      ensures Valid() && isMounted
      ensures coins == Ticked(old(coins), d)
      ensures |activeTimeouts| == Loops
      ensures id !in activeTimeouts && id !in scheduled
      ensures activeTimeouts == old(activeTimeouts) - {id} + {old(nextTimerId)}
    {
      assert isMounted;
      scheduled := scheduled - {id};
      activeTimeouts := activeTimeouts - {id};
      ScheduleUpdate(d);
    }

    /** The effect's cleanup on unmount (App.tsx:74-77): clear the flag and clear
      every recorded timeout. The set itself is not emptied, but nothing is left
      in the host's table, so no timeout can fire any more. */
    method Unmount()
      requires WellFormed()
      modifies this
      ensures WellFormed() && !isMounted
      ensures scheduled == {}
      ensures coins == old(coins) && activeTimeouts == old(activeTimeouts)
      ensures nextTimerId == old(nextTimerId)
    {
      isMounted := false;
      var rest := activeTimeouts;
      while rest != {}
        invariant !isMounted && rest <= activeTimeouts
        invariant scheduled == old(scheduled) - (activeTimeouts - rest)
        invariant coins == old(coins) && activeTimeouts == old(activeTimeouts)
        invariant nextTimerId == old(nextTimerId)
        decreases rest
      {
        var t :| t in rest;
        scheduled := scheduled - {t};
        rest := rest - {t};
      }
    }
  }
}
