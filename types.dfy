/** Record shapes shared by every view (types.ts) and the numeric helpers
    the views all use: JavaScript's Math.round and the change-rate formula. */
module Types {

  datatype Option<+T> = None | Some(value: T)

  /** One listed apartment complex ("coin"), types.ts:1-11.
      `volume24h` is in million KRW. */
  datatype Coin = Coin(
    id: string,
    symbol: string,
    name: string,
    nameKr: string,
    location: string,
    price: real,
    prevPrice: real,
    changeRate: real,
    volume24h: real)

  /** One order-book level, types.ts:21-26. */
  datatype OrderBookItem = OrderBookItem(price: real, amount: int, changeRate: real)

  /** Three-way movement, used for tick colours and the change column. */
  datatype Direction = Up | Down | Neutral

  function Max(a: real, b: real): real { if a >= b then a else b }

  function Min(a: real, b: real): real { if a <= b then a else b }

  /** JavaScript's Math.round: the nearest integer, halves rounded up. */
  function Round(x: real): (n: int)
    ensures x - 0.5 < n as real <= x + 0.5
  {
    (x + 0.5).Floor
  }

  /** Sign rules for products, which the solver does not find unaided. */
  lemma MulNonNegative(x: real, y: real)
    requires x >= 0.0 && y >= 0.0
    ensures x * y >= 0.0
  {
  }

  lemma MulPositive(x: real, y: real)
    requires x > 0.0 && y > 0.0
    ensures x * y > 0.0
  {
  }

  lemma MulLess(x: real, y: real, z: real)
    requires x < y && z > 0.0
    ensures x * z < y * z
  {
    MulPositive(y - x, z);
  }

  lemma MulAtMost(x: real, y: real, z: real)
    requires x <= y && z >= 0.0
    ensures x * z <= y * z
  {
    MulNonNegative(y - x, z);
  }

  predicate IsIntegral(x: real) { x.Floor as real == x }

  /** Whole numbers are closed under adding a whole number. */
  lemma IntegralShift(x: real, k: int)
    requires IsIntegral(x)
    ensures IsIntegral(x + k as real)
  {
    assert (x + k as real).Floor == x.Floor + k;
  }

  /** The difference of whole numbers is whole, and rounding leaves it alone. */
  lemma IntegralDifference(x: real, y: real)
    requires IsIntegral(x) && IsIntegral(y)
    ensures IsIntegral(x - y) && Round(x - y) as real == x - y
  {
    var n, m := x.Floor, y.Floor;
    assert (x - y).Floor == n - m;
    assert (x - y + 0.5).Floor == n - m;
  }

  /** Movement of `price` against `base`. */
  function DirectionOf(price: real, base: real): (d: Direction)
  {
    if price > base then Up else if price < base then Down else Neutral
  }

  /** The sign of a change rate, as the views colour it. */
  function SignOf(rate: real): (d: Direction)
  {
    if rate > 0.0 then Up else if rate < 0.0 then Down else Neutral
  }

  /** `((price - prevPrice) / prevPrice) * 100`: the percentage change against
      the fixed baseline (App.tsx:48, components/TradingView.tsx:41, 111, 121).
      The code has no guard, so a zero baseline is excluded. */
  function ChangeRate(price: real, prevPrice: real): (r: real)
    requires prevPrice != 0.0
    ensures prevPrice > 0.0 ==> SignOf(r) == DirectionOf(price, prevPrice)
  {
    ((price - prevPrice) / prevPrice) * 100.0
  }

  /** With a positive baseline the change rate strictly increases with the price. */
  lemma ChangeRateStrictlyMonotone(p: real, q: real, prevPrice: real)
    requires prevPrice > 0.0 && p < q
    ensures ChangeRate(p, prevPrice) < ChangeRate(q, prevPrice)
  {
    assert (q - prevPrice) / prevPrice - (p - prevPrice) / prevPrice == (q - p) / prevPrice;
  }
}
