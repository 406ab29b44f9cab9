/**
 * The brokerage client as the trading bot sees it: the values its calls
 * return (or the exception they raise), the orders it submits, and a record
 * of every call the bot makes, in order.
 */
module Gateway {

  /** A ticker symbol such as "AAPL". */
  type Symbol = string

  /** The answer of one call into the brokerage client: a value, or an exception. */
  datatype Outcome<T> = Ok(value: T) | Fail

  /** A value or Python's `None`. */
  datatype Option<T> = None | Some(value: T)

  /** What the brokerage returns for an accepted order submission. */
  type OrderId = string

  /**
   * The holdings dictionary built by the client: symbol to a dictionary of
   * numeric fields ("quantity", "average_buy_price", ...).
   */
  type Holdings = map<Symbol, map<string, real>>

  /**
   * What the brokerage answers, during one evaluation of one symbol, to each
   * call the bot may make: the latest price, the daily closing prices
   * (oldest first), the holdings, the buying power, and the order submission.
   */
  datatype Replies = Replies(
    latestPrice: Outcome<real>,
    historicals: Outcome<seq<real>>,
    holdings: Outcome<Holdings>,
    buyingPower: Outcome<real>,
    submission: Outcome<OrderId>)

  datatype Side = BuySide | SellSide

  /** A market order request. */
  datatype Order = Order(side: Side, symbol: Symbol, quantity: real)

  /** One call into the brokerage client, as the bot issues it. */
  datatype Call =
    | LatestPrice(symbol: Symbol)
    | Historicals(symbol: Symbol)
    | BuildHoldings
    | AccountProfile
    | Submit(order: Order)

  /**
   * The order helpers `place_buy_order` and `place_sell_order`: the order is
   * submitted (one `Submit` call joins the trace), the submission's answer is
   * returned, and a failed submission becomes `None` instead of an exception.
   */
  function PlaceOrder(calls: seq<Call>, order: Order, submission: Outcome<OrderId>): (result: (seq<Call>, Option<OrderId>))
    ensures result.0 == calls + [Submit(order)]
    ensures Submitted(result.0) == Submitted(calls) + [order]
    ensures Evaluated(result.0) == Evaluated(calls)
    ensures result.1.None? <==> submission.Fail?
    ensures result.1.Some? ==> result.1.value == submission.value
  {
    SingleCall(Submit(order));
    EvaluatedAppend(calls, [Submit(order)]);
    SubmittedAppend(calls, [Submit(order)]);
    var placed := match submission
      case Ok(id) => Some(id)
      case Fail => None;
    (calls + [Submit(order)], placed)
  }

  /** The symbols whose latest price was asked for, in order: the symbols evaluated. */
  function Evaluated(calls: seq<Call>): (symbols: seq<Symbol>)
    ensures |symbols| <= |calls|
  {
    if calls == [] then []
    else (if calls[0].LatestPrice? then [calls[0].symbol] else []) + Evaluated(calls[1..])
  }

  /** The orders submitted, in order. */
  function Submitted(calls: seq<Call>): (orders: seq<Order>)
    ensures |orders| <= |calls|
  {
    if calls == [] then []
    else (if calls[0].Submit? then [calls[0].order] else []) + Submitted(calls[1..])
  }

  /** What a single call contributes to the two projections of a trace. */
  lemma SingleCall(c: Call)
    ensures Evaluated([c]) == if c.LatestPrice? then [c.symbol] else []
    ensures Submitted([c]) == if c.Submit? then [c.order] else []
  {
    assert [c][1..] == [];
  }

  lemma {:induction false} EvaluatedAppend(a: seq<Call>, b: seq<Call>)
    ensures Evaluated(a + b) == Evaluated(a) + Evaluated(b)
  {
    if a == [] {
      assert a + b == b;
    } else {
      assert (a + b)[0] == a[0] && (a + b)[1..] == a[1..] + b;
      EvaluatedAppend(a[1..], b);
    }
  }

  lemma {:induction false} SubmittedAppend(a: seq<Call>, b: seq<Call>)
    ensures Submitted(a + b) == Submitted(a) + Submitted(b)
  {
    if a == [] {
      assert a + b == b;
    } else {
      assert (a + b)[0] == a[0] && (a + b)[1..] == a[1..] + b;
      SubmittedAppend(a[1..], b);
    }
  }

  /** The symbols of the orders, in order. */
  function OrderSymbols(orders: seq<Order>): (symbols: seq<Symbol>)
    ensures |symbols| == |orders|
    ensures forall i :: 0 <= i < |orders| ==> symbols[i] == orders[i].symbol
  {
    seq(|orders|, i requires 0 <= i < |orders| => orders[i].symbol)
  }

  lemma OrderSymbolsAppend(a: seq<Order>, b: seq<Order>)
    ensures OrderSymbols(a + b) == OrderSymbols(a) + OrderSymbols(b)
  {
  }
}
