/** The state cells of the detail view (components/TradingView.tsx): the
    ticker price that an interval moves by a random step, the order form's
    price stepper, amount and reset, and the headline derived from them. */
module TradingPanel {
  import opened Types

  /** `volatility` (components/TradingView.tsx:32). */
  const Volatility: real := 2000000.0

  predicate IsDraw(x: real) { 0.0 <= x < 1.0 }

  /** `Math.floor(prev + (Math.random() - 0.5) * volatility)`
      (components/TradingView.tsx:33-34): the floor of a move of at most one
      million either way. Nothing keeps it above zero. */
  function TickerStep(prev: real, draw: real): (p: int)
    ensures IsDraw(draw) ==> prev - 1000001.0 < p as real < prev + 1000000.0
  {
    (prev + (draw - 0.5) * Volatility).Floor
  }

  /** From an integer price a step moves by a whole amount in
      [-1,000,000, 1,000,000). */
  lemma TickerStepFromInteger(prev: real, draw: real)
    requires IsIntegral(prev) && IsDraw(draw)
    ensures -1000000 <= TickerStep(prev, draw) - prev.Floor < 1000000
  {
    var n := prev.Floor;
    var p := TickerStep(prev, draw);
    assert (p - n) as real > -1000001.0;
  }

  /** The walk can leave the positive prices: from 0 the lowest draw gives
      minus one million. */
  lemma TickerCanGoNegative()
    ensures IsDraw(0.0) && TickerStep(0.0, 0.0) == -1000000
  {
  }

  /** `calculateTotal` (components/TradingView.tsx:81-85), over the parsed
      amount: `None` stands for a NaN from `parseFloat`; a missing or zero
      amount gives 0, any other the floor of price times amount. */
  function CalculateTotal(orderPrice: real, parsed: Option<real>): (total: int)
    ensures parsed.None? || parsed == Some(0.0) ==> total == 0
    ensures parsed.Some? && parsed.value != 0.0 ==>
      total as real <= orderPrice * parsed.value < total as real + 1.0
  {
    match parsed
    case None => 0
    case Some(amt) => if amt == 0.0 then 0 else (orderPrice * amt).Floor
  }

  /** `Math.abs(Math.round(tickerPrice - coin.prevPrice))`, the headline move
      (components/TradingView.tsx:599). */
  function MoveSize(price: real, prevPrice: real): nat
  {
    var r := Round(price - prevPrice);
    if r >= 0 then r else -r
  }

  /** The headline arrow: '▲' when the change rate is positive, '-' when it is
      zero, '▼' otherwise (components/TradingView.tsx:42-44, 599). */
  function Arrow(rate: real): (s: string)
    ensures s == "▲" <==> SignOf(rate) == Up
    ensures s == "-" <==> SignOf(rate) == Neutral
    ensures s == "▼" <==> SignOf(rate) == Down
  {
    if rate > 0.0 then "▲" else if rate == 0.0 then "-" else "▼"
  }

  /** With a positive baseline and integer prices the headline's arrow
      agrees with the actual move of the ticker and its figure is exactly the
      distance from the baseline. */
  lemma HeadlineAgrees(price: real, prevPrice: real)
    requires prevPrice > 0.0 && IsIntegral(price) && IsIntegral(prevPrice)
    ensures var rate := ChangeRate(price, prevPrice);
      (Arrow(rate) == "▲" <==> price > prevPrice) &&
      (Arrow(rate) == "-" <==> price == prevPrice) &&
      (Arrow(rate) == "▼" <==> price < prevPrice) &&
      MoveSize(price, prevPrice) as real == (if price >= prevPrice then price - prevPrice else prevPrice - price)
  {
    IntegralDifference(price, prevPrice);
  }

  /** One detail view, from the coin it was opened with. */
  class Detail {
    /** The `coin` prop, refreshed on every render of the parent. */
    var coin: Coin
    var tickerPrice: real
    var orderPrice: real
    var amount: string
    /** Whether the ticker interval is still registered. */
    var ticking: bool
    /** The price the view opened at. */
    ghost var openPrice: real

    /** The ticker stays an integer once it starts at one (it is floored at
        every step). */
    ghost predicate Valid()
      reads this
    {
      IsIntegral(openPrice) ==> IsIntegral(tickerPrice)
    }

    /** Initial state (components/TradingView.tsx:27, 48-49) and the interval
        started on mount (components/TradingView.tsx:30-38). */
    constructor(c: Coin)
      ensures coin == c && tickerPrice == c.price && orderPrice == c.price
      ensures amount == "" && ticking
      ensures openPrice == c.price && Valid()
    {
      coin := c;
      tickerPrice := c.price;
      orderPrice := c.price;
      amount := "";
      ticking := true;
      openPrice := c.price;
    }

    /** A re-render with a newer `coin` prop: state cells keep their values. */
    method Rerender(c: Coin)
      requires Valid()
      modifies this
      ensures coin == c
      ensures tickerPrice == old(tickerPrice) && orderPrice == old(orderPrice)
      ensures amount == old(amount) && ticking == old(ticking)
      ensures Valid()
    {
      coin := c;
    }

    /** One interval tick (components/TradingView.tsx:31-35); after cleanup
        the interval no longer fires. */
    method Tick(draw: real)
      requires Valid()
      modifies this
      ensures tickerPrice == (if old(ticking) then TickerStep(old(tickerPrice), draw) as real else old(tickerPrice))
      ensures old(ticking) ==> IsIntegral(tickerPrice)
      ensures coin == old(coin) && orderPrice == old(orderPrice)
      ensures amount == old(amount) && ticking == old(ticking)
      ensures Valid()
    {
      if ticking {
        tickerPrice := (tickerPrice + (draw - 0.5) * Volatility).Floor as real;
      }
    }

    /** The minus button (components/TradingView.tsx:497). */
    method StepDown()
      requires Valid()
      modifies this
      ensures orderPrice == old(orderPrice) - 1.0
      ensures IsIntegral(old(orderPrice)) ==> IsIntegral(orderPrice)
      ensures coin == old(coin) && tickerPrice == old(tickerPrice)
      ensures amount == old(amount) && ticking == old(ticking)
      ensures Valid()
    {
      if IsIntegral(orderPrice) {
        IntegralShift(orderPrice, -1);
      }
      orderPrice := orderPrice - 1.0;
    }

    /** The plus button (components/TradingView.tsx:500). */
    method StepUp()
      requires Valid()
      modifies this
      ensures orderPrice == old(orderPrice) + 1.0
      ensures IsIntegral(old(orderPrice)) ==> IsIntegral(orderPrice)
      ensures coin == old(coin) && tickerPrice == old(tickerPrice)
      ensures amount == old(amount) && ticking == old(ticking)
      ensures Valid()
    {
      if IsIntegral(orderPrice) {
        IntegralShift(orderPrice, 1);
      }
      orderPrice := orderPrice + 1.0;
    }

    /** Typing into the amount field (components/TradingView.tsx:478). */
    method SetAmount(text: string)
      requires Valid()
      modifies this
      ensures amount == text
      ensures coin == old(coin) && tickerPrice == old(tickerPrice)
      ensures orderPrice == old(orderPrice) && ticking == old(ticking)
      ensures Valid()
    {
      amount := text;
    }

    /** The reset button (components/TradingView.tsx:524): clears the amount
        and puts the order price back to the coin's current price. */
    method Reset()
      requires Valid()
      modifies this
      ensures amount == "" && orderPrice == coin.price
      ensures coin == old(coin) && tickerPrice == old(tickerPrice) && ticking == old(ticking)
      ensures Valid()
    {
      amount := "";
      orderPrice := coin.price;
    }

    /** Leaving the view: the effect cleanup clears the interval
        (components/TradingView.tsx:37). */
    method Close()
      requires Valid()
      modifies this
      ensures !ticking
      ensures coin == old(coin) && tickerPrice == old(tickerPrice)
      ensures orderPrice == old(orderPrice) && amount == old(amount)
      ensures Valid()
    {
      ticking := false;
    }

    /** `currentChangeRate`, against the coin's fixed baseline
        (components/TradingView.tsx:41). */
    function CurrentChangeRate(): (r: real)
      reads this
      requires coin.prevPrice != 0.0
      ensures coin.prevPrice > 0.0 ==> SignOf(r) == DirectionOf(tickerPrice, coin.prevPrice)
    {
      ChangeRate(tickerPrice, coin.prevPrice)
    }
  }
}
