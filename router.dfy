/**
 * The order router: the buy/sell/hold rule of `check_and_trade`, from the
 * latest price, the moving average, the quantity owned and the buying power.
 */
module Router {

  import opened Gateway

  /** Notional cap of a new position (the default `max_position`). */
  const MaxPosition: real := 1000.0

  /** What the rule asks the broker to do. */
  datatype Action = Buy(quantity: real) | Sell(quantity: real) | Hold

  /** The first test of the rule: which branch the comparisons select. */
  datatype Signal = Enter | Exit | Stay

  function Abs(x: real): real
  {
    if x < 0.0 then -x else x
  }

  /**
   * Rounding to the nearest integer, ties to the even one (Python's `round`).
   */
  function RoundHalfEven(y: real): (n: int)
    ensures n as real - 0.5 <= y <= n as real + 0.5
    ensures (y == n as real - 0.5 || y == n as real + 0.5) ==> n % 2 == 0
  {
    var k := y.Floor;
    var f := y - k as real;
    if f < 0.5 then k
    else if f > 0.5 then k + 1
    else if k % 2 == 0 then k
    else k + 1
  }

  /** No integer lies closer to `y` than the rounded value. */
  lemma {:induction false} RoundIsNearest(y: real, k: int)
    ensures Abs(RoundHalfEven(y) as real - y) <= Abs(k as real - y)
  {
    var n := RoundHalfEven(y);
    if k < n {
      assert k as real <= n as real - 1.0;
    } else if k > n {
      assert k as real >= n as real + 1.0;
    }
  }

  /** The two postconditions of RoundHalfEven determine its result. */
  lemma {:induction false} RoundHalfEvenUnique(y: real, m: int)
    requires m as real - 0.5 <= y <= m as real + 0.5
    requires (y == m as real - 0.5 || y == m as real + 0.5) ==> m % 2 == 0
    ensures RoundHalfEven(y) == m
  {
  }

  /**
   * `round(x, 2)`: `x` rounded to hundredths, ties to the even hundredth.
   */
  function Round2(x: real): (r: real)
    ensures x - 0.005 <= r <= x + 0.005
    ensures (r * 100.0).Floor as real == r * 100.0
    ensures (x * 100.0 == r * 100.0 - 0.5 || x * 100.0 == r * 100.0 + 0.5) ==> (r * 100.0).Floor % 2 == 0
  {
    var n := RoundHalfEven(x * 100.0);
    assert n as real / 100.0 * 100.0 == n as real;
    n as real / 100.0
  }

  /**
   * The branch the comparisons at the head of the rule select: enter on a
   * price above the average with nothing owned, exit on a price below the
   * average with something owned.
   */
  function SignalOf(price: real, sma: real, owned: real): (s: Signal)
    ensures s == Enter <==> price > sma && owned == 0.0
    ensures s == Exit <==> price < sma && owned > 0.0
  {
    if price > sma && owned == 0.0 then Enter
    else if price < sma && owned > 0.0 then Exit
    else Stay
  }

  /**
   * Sizing of a new position: `round(max_position / price, 2)` shares when the
   * buying power exceeds `max_position`, nothing otherwise; a zero price makes
   * the division raise.
   */
  function Size(price: real, buyingPower: real, maxPosition: real): (a: Outcome<Action>)
    ensures a.Fail? <==> buyingPower > maxPosition && price == 0.0
    ensures a.Ok? ==> a.value.Buy? || a.value.Hold?
    ensures a == Ok(Hold) <==> buyingPower <= maxPosition
    ensures a.Ok? && a.value.Buy? ==>
      price != 0.0 && a.value.quantity == Round2(maxPosition / price)
  {
    if buyingPower > maxPosition then
      if price == 0.0 then Fail else Ok(Buy(Round2(maxPosition / price)))
    else Ok(Hold)
  }

  /**
   * The whole rule with every input at hand: first match of
   * buy-when-flat-and-rising, sell-everything-when-held-and-falling, hold.
   * A buy is sized by `Size`; dividing by a zero price is the only way the
   * rule raises.
   */
  function Decide(price: real, sma: real, owned: real, buyingPower: real, maxPosition: real): (a: Outcome<Action>)
    ensures a.Ok? && a.value.Buy? <==>
      owned == 0.0 && price > sma && buyingPower > maxPosition && price != 0.0
    ensures a.Ok? && a.value.Buy? ==> a.value.quantity == Round2(maxPosition / price)
    ensures a.Ok? && a.value.Sell? <==> owned > 0.0 && price < sma
    ensures a.Ok? && a.value.Sell? ==> a.value.quantity == owned
    ensures a == Ok(Hold) <==>
      !(owned == 0.0 && price > sma && buyingPower > maxPosition) && !(owned > 0.0 && price < sma)
    ensures a.Fail? <==> owned == 0.0 && price > sma && buyingPower > maxPosition && price == 0.0
  {
    match SignalOf(price, sma, owned)
    case Enter => Size(price, buyingPower, maxPosition)
    case Exit => Ok(Sell(owned))
    case Stay => Ok(Hold)
  }

  /** Off the buy path the buying power is not looked at. */
  lemma BuyingPowerOnlyOnBuyPath(price: real, sma: real, owned: real, b1: real, b2: real, maxPosition: real)
    requires !(price > sma && owned == 0.0)
    ensures Decide(price, sma, owned, b1, maxPosition) == Decide(price, sma, owned, b2, maxPosition)
  {
  }

  /**
   * The notional of a buy is within half a cent per share of the cap: rounding
   * to hundredths can take it slightly above `max_position`.
   */
  lemma {:induction false} BuyNotionalNearCap(price: real, quantity: real, maxPosition: real)
    requires price > 0.0
    requires quantity == Round2(maxPosition / price)
    ensures maxPosition - price * 0.005 <= quantity * price <= maxPosition + price * 0.005
  {
    var x := maxPosition / price;
    var d := quantity - x;
    assert x * price == maxPosition;
    assert -0.005 <= d <= 0.005;
    assert quantity * price == maxPosition + d * price;
    var below, above := 0.005 - d, d + 0.005;
    assert below >= 0.0 && above >= 0.0;
    assert below * price >= 0.0;
    assert above * price >= 0.0;
  }

  /**
   * The gate compares buying power with the cap, not with the rounded
   * notional: with a cap of 1000, a price of 600 and a buying power of 1000.5
   * the rule buys 1.67 shares, 1002 of notional, more than the buying power.
   */
  lemma BuyCanExceedBuyingPower()
    ensures Decide(600.0, 500.0, 0.0, 1000.5, 1000.0) == Ok(Buy(1.67))
    ensures 1.67 * 600.0 > 1000.5
  {
    RoundHalfEvenUnique(1000.0 / 600.0 * 100.0, 167);
  }

  /** The worked examples of the rule. */
  lemma Examples()
    ensures Decide(105.0, 100.0, 0.0, 2000.0, 1000.0) == Ok(Buy(9.52))
    ensures Decide(95.0, 100.0, 9.52, 2000.0, 1000.0) == Ok(Sell(9.52))
    ensures Decide(105.0, 100.0, 0.0, 500.0, 1000.0) == Ok(Hold)
    ensures Decide(110.0, 100.0, 5.0, 2000.0, 1000.0) == Ok(Hold)
    ensures Decide(100.0, 100.0, 0.0, 2000.0, 1000.0) == Ok(Hold)
    ensures Decide(100.0, 100.0, 5.0, 2000.0, 1000.0) == Ok(Hold)
  {
    RoundHalfEvenUnique(1000.0 / 105.0 * 100.0, 952);
  }
}
