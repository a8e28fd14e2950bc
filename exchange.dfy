/** The exchange list (components/ExchangeView.tsx): the region filter over
    the coin list, and one row's tick-direction state with its flash timer,
    its price rendering and its change column. */
module Exchange {
  import opened Types

  /** The filter tab that shows every coin, and the watch-list tab, which
      shows none (components/ExchangeView.tsx:125-126). */
  const AllRegions: string := "전국"
  const Watchlist: string := "관심"

  /** sub occurs in s starting at position i. */
  predicate OccursAt(s: string, sub: string, i: nat)
  {
    i + |sub| <= |s| && s[i..i + |sub|] == sub
  }

  /** `s.includes(sub)`: sub occurs in s at some position. */
  function Includes(s: string, sub: string): (b: bool)
    ensures b <==> exists i: nat :: OccursAt(s, sub, i)
    decreases |s|
  {
    if |sub| > |s| then false
    else if s[..|sub|] == sub then assert OccursAt(s, sub, 0); true
    else
      var r := Includes(s[1..], sub);
      assert forall i: nat :: OccursAt(s[1..], sub, i) <==> OccursAt(s, sub, i + 1) by {
        forall i: nat ensures OccursAt(s[1..], sub, i) <==> OccursAt(s, sub, i + 1) {
          if i + 1 + |sub| <= |s| {
            assert s[1..][i..i + |sub|] == s[i + 1..i + 1 + |sub|];
          }
        }
      }
      assert !OccursAt(s, sub, 0);
      assert (exists i: nat :: OccursAt(s, sub, i)) ==> exists i: nat :: OccursAt(s[1..], sub, i) by {
        if i: nat :| OccursAt(s, sub, i) {
          assert i > 0 && OccursAt(s[1..], sub, i - 1);
        }
      }
      r
  }

  /** The filter's predicate (components/ExchangeView.tsx:124-128). */
  predicate Keep(filter: string, c: Coin)
  {
    if filter == AllRegions then true
    else if filter == Watchlist then false
    else Includes(c.location, filter)
  }

  /** `filteredCoins` (components/ExchangeView.tsx:124-128): the coins the
      filter keeps, in list order. */
  function FilteredCoins(coins: seq<Coin>, filter: string): (r: seq<Coin>)
    ensures |r| <= |coins|
    ensures forall c :: c in r <==> c in coins && Keep(filter, c)
  {
    if |coins| == 0 then []
    else
      var rest := FilteredCoins(coins[1..], filter);
      assert forall c :: c in coins <==> c == coins[0] || c in coins[1..];
      if Keep(filter, coins[0]) then [coins[0]] + rest else rest
  }

  /** Filtering a concatenation filters each part, and a single coin is kept
      exactly when the predicate holds: the result is the order-preserving
      subsequence of the kept coins. */
  lemma {:induction false} FilterDistributes(a: seq<Coin>, b: seq<Coin>, filter: string)
    ensures FilteredCoins(a + b, filter) == FilteredCoins(a, filter) + FilteredCoins(b, filter)
    ensures forall c :: FilteredCoins([c], filter) == if Keep(filter, c) then [c] else []
    decreases |a|
  {
    if |a| > 0 {
      assert (a + b)[1..] == a[1..] + b;
      FilterDistributes(a[1..], b, filter);
    } else {
      assert a + b == b;
    }
  }

  /** The all-regions tab shows every coin in list order. */
  lemma {:induction false} AllRegionsKeepsAll(coins: seq<Coin>)
    ensures FilteredCoins(coins, AllRegions) == coins
  {
    if |coins| > 0 {
      AllRegionsKeepsAll(coins[1..]);
    }
  }

  /** The watch-list tab shows nothing. */
  lemma WatchlistEmpty(coins: seq<Coin>)
    ensures FilteredCoins(coins, Watchlist) == []
  {
    if FilteredCoins(coins, Watchlist) != [] {
      assert FilteredCoins(coins, Watchlist)[0] in FilteredCoins(coins, Watchlist);
    }
  }

  /** A row's colour. */
  datatype Tone = Red | Blue | Grey

  /** The tick colour: red up, blue down, grey neutral (components/ExchangeView.tsx:48),
      which is also the change column's colour of a rate's sign
      (components/ExchangeView.tsx:51-53). */
  function ToneOf(d: Direction): Tone
  {
    match d
    case Up => Red
    case Down => Blue
    case Neutral => Grey
  }

  /** The initial `lastTickDirection` (components/ExchangeView.tsx:17-19). */
  function InitialDirection(changeRate: real): (d: Direction)
    ensures d == Up <==> changeRate > 0.0
    ensures d == Down <==> changeRate < 0.0
    ensures d == Neutral <==> changeRate == 0.0
  {
    SignOf(changeRate)
  }

  /** `renderPrice` (components/ExchangeView.tsx:59-81), over the already
      formatted price: the whole string in the flash colour while flashing;
      when idle a short string in the tick colour, otherwise a dark base and
      its last two characters in the tick colour. */
  datatype PriceView =
    | Flashing(flashTone: Tone, text: string)
    | Whole(tickTone: Tone, text: string)
    | Split(base: string, highlight: string, tickTone: Tone)

  function RenderPrice(flash: Option<Direction>, lastTick: Direction, priceText: string): (v: PriceView)
    ensures flash.Some? <==> v.Flashing?
    ensures v.Flashing? ==> v.text == priceText && (v.flashTone == Red <==> flash.value == Up)
    ensures v.Whole? ==> v.text == priceText && |priceText| <= 2 && v.tickTone == ToneOf(lastTick)
    ensures v.Split? ==> v.base + v.highlight == priceText && |v.highlight| == 2 &&
                         v.tickTone == ToneOf(lastTick)
    ensures flash.None? ==> (v.Whole? <==> |priceText| <= 2)
  {
    if flash.Some? then Flashing(if flash.value == Up then Red else Blue, priceText)
    else if |priceText| <= 2 then Whole(ToneOf(lastTick), priceText)
    else Split(priceText[..|priceText| - 2], priceText[|priceText| - 2..], ToneOf(lastTick))
  }

  /** The change column (components/ExchangeView.tsx:113-115): a '+' before a
      positive rate, the colour of the rate's sign, and the rounded move from
      the baseline. */
  datatype ChangeView = ChangeView(plus: bool, tone: Tone, move: int)

  function ChangeColumn(c: Coin): (v: ChangeView)
    ensures v.plus <==> c.changeRate > 0.0
    ensures v.tone == ToneOf(SignOf(c.changeRate))
    ensures c.price - c.prevPrice - 0.5 < v.move as real <= c.price - c.prevPrice + 0.5
  {
    ChangeView(c.changeRate > 0.0, ToneOf(SignOf(c.changeRate)), Round(c.price - c.prevPrice))
  }

  /** For a coin whose rate is the change-rate formula with a positive baseline
      (as a ticked coin's is) and whole prices (as the rounding tiers from
      1,000 up give), the colour, the '+' and the sign of the move all agree. */
  lemma ChangeColumnAgrees(c: Coin)
    requires c.prevPrice > 0.0 && c.changeRate == ChangeRate(c.price, c.prevPrice)
    requires IsIntegral(c.price) && IsIntegral(c.prevPrice)
    ensures var v := ChangeColumn(c);
      v.move as real == c.price - c.prevPrice &&
      (v.plus <==> v.move > 0) &&
      (v.tone == Red <==> v.move > 0) && (v.tone == Blue <==> v.move < 0) && (v.tone == Grey <==> v.move == 0)
  {
    IntegralDifference(c.price, c.prevPrice);
  }

  /** The state one `CoinRow` keeps (components/ExchangeView.tsx:13-22). */
  class Row {
    var flashState: Option<Direction>
    var lastTickDirection: Direction
    var prevPriceRef: real
    /** Whether a 500 ms flash timer is pending (`timeoutRef.current`). */
    var timerPending: bool
    var mounted: bool

    /** A flash shows the direction of the last tick, which is up or down,
        and is pending in a timer exactly while the row is mounted. */
    ghost predicate Valid()
      reads this
    {
      (flashState.Some? ==> flashState.value == lastTickDirection && lastTickDirection != Neutral) &&
      (mounted ==> (timerPending <==> flashState.Some?)) &&
      (!mounted ==> !timerPending)
    }

    /** Mount: no flash, the direction of the 24-hour rate, the current price
        remembered (components/ExchangeView.tsx:13-21). */
    constructor(c: Coin)
      ensures flashState == None && lastTickDirection == InitialDirection(c.changeRate)
      ensures prevPriceRef == c.price && !timerPending && mounted
      ensures Valid()
    {
      flashState := None;
      lastTickDirection := InitialDirection(c.changeRate);
      prevPriceRef := c.price;
      timerPending := false;
      mounted := true;
    }

    /** The price effect (components/ExchangeView.tsx:25-41): a changed price
        sets both the flash and the last direction to up or down, remembers
        the price and restarts the timer; an unchanged price leaves all alone. */
    method Observe(price: real)
      requires Valid() && mounted
      modifies this
      ensures old(prevPriceRef) != price ==>
        var d := if price > old(prevPriceRef) then Up else Down;
        flashState == Some(d) && lastTickDirection == d && prevPriceRef == price && timerPending
      ensures old(prevPriceRef) == price ==>
        flashState == old(flashState) && lastTickDirection == old(lastTickDirection) &&
        prevPriceRef == old(prevPriceRef) && timerPending == old(timerPending)
      ensures mounted
      ensures Valid()
    {
      if price != prevPriceRef {
        var direction := if price > prevPriceRef then Up else Down;
        flashState := Some(direction);
        lastTickDirection := direction;
        prevPriceRef := price;
        timerPending := true;
      }
    }

    /** The flash timer fires (components/ExchangeView.tsx:34-36): the flash
        ends, the last direction and remembered price stay. */
    method FlashExpired()
      requires Valid() && timerPending
      modifies this
      ensures flashState == None && !timerPending
      ensures lastTickDirection == old(lastTickDirection) && prevPriceRef == old(prevPriceRef)
      ensures mounted == old(mounted)
      ensures Valid()
    {
      flashState := None;
      timerPending := false;
    }

    /** Unmount: the effect cleanup clears a pending timer
        (components/ExchangeView.tsx:38-40). */
    method Unmount()
      requires Valid()
      modifies this
      ensures !mounted && !timerPending
      ensures flashState == old(flashState) && lastTickDirection == old(lastTickDirection)
      ensures prevPriceRef == old(prevPriceRef)
      ensures Valid()
    {
      mounted := false;
      timerPending := false;
    }

    /** The price cell of this row for a formatted price. */
    function View(priceText: string): (v: PriceView)
      reads this
      requires Valid()
      ensures v.Flashing? ==> v.flashTone == ToneOf(lastTickDirection)
    {
      RenderPrice(flashState, lastTickDirection, priceText)
    }
  }
}
