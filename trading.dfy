/**
 * The per-symbol step of the trading bot, `check_and_trade`: its fetches, its
 * decision, its order submission and its catch-all exception handler.
 */
module Trading {

  import opened Gateway
  import opened MovingAverage
  import opened Position
  import opened Router

  /**
   * What one `check_and_trade` did: the calls it made into the brokerage
   * client, in order; what the order helper returned (`None` when no order
   * was placed or the submission failed); and whether an exception reached
   * its handler and was logged.
   */
  datatype Check = Check(calls: seq<Call>, placed: Option<OrderId>, raised: bool)

  /** The calls made before any decision: latest price, historicals, holdings. */
  function Fetches(symbol: Symbol): seq<Call>
  {
    [LatestPrice(symbol), Historicals(symbol), BuildHoldings]
  }

  /** The fetches evaluate the symbol and submit nothing, with or without the buying power. */
  lemma FetchesTrace(symbol: Symbol)
    ensures Evaluated([LatestPrice(symbol)]) == [symbol] && Submitted([LatestPrice(symbol)]) == []
    ensures Evaluated([LatestPrice(symbol), Historicals(symbol)]) == [symbol]
    ensures Submitted([LatestPrice(symbol), Historicals(symbol)]) == []
    ensures Evaluated(Fetches(symbol)) == [symbol] && Submitted(Fetches(symbol)) == []
    ensures Evaluated(Fetches(symbol) + [AccountProfile]) == [symbol]
    ensures Submitted(Fetches(symbol) + [AccountProfile]) == []
  {
    var p, h, b, a := LatestPrice(symbol), Historicals(symbol), BuildHoldings, AccountProfile;
    SingleCall(p); SingleCall(h); SingleCall(b); SingleCall(a);
    assert [p] + [h] == [p, h] && [p, h] + [b] == Fetches(symbol);
    EvaluatedAppend([p], [h]); SubmittedAppend([p], [h]);
    EvaluatedAppend([p, h], [b]); SubmittedAppend([p, h], [b]);
    EvaluatedAppend(Fetches(symbol), [a]); SubmittedAppend(Fetches(symbol), [a]);
  }

  /** The order a decision submits, if any. */
  function Ordered(symbol: Symbol, action: Outcome<Action>): (orders: seq<Order>)
    ensures |orders| <= 1
    ensures forall o :: o in orders ==> o.symbol == symbol
  {
    match action
    case Ok(Buy(q)) => [Order(BuySide, symbol, q)]
    case Ok(Sell(q)) => [Order(SellSide, symbol, q)]
    case _ => []
  }

  /**
   * Carries out a decision: submits the order of a buy or a sell through the
   * order helper, submits nothing on a hold, and ends in the handler when the
   * decision raised.
   */
  function Execute(calls: seq<Call>, symbol: Symbol, action: Outcome<Action>, submission: Outcome<OrderId>): (c: Check)
    ensures c.raised <==> action.Fail?
    ensures Evaluated(c.calls) == Evaluated(calls)
    ensures Submitted(c.calls) == Submitted(calls) + Ordered(symbol, action)
    ensures AccountProfile in c.calls <==> AccountProfile in calls
    ensures c.placed.Some? <==> Ordered(symbol, action) != [] && submission.Ok?
    ensures c.placed.Some? ==> submission == Ok(c.placed.value)
  {
    match action
    case Ok(Buy(q)) =>
      var (calls', placed) := PlaceOrder(calls, Order(BuySide, symbol, q), submission);
      Check(calls', placed, false)
    case Ok(Sell(q)) =>
      var (calls', placed) := PlaceOrder(calls, Order(SellSide, symbol, q), submission);
      Check(calls', placed, false)
    case Ok(Hold) => Check(calls, None, false)
    case Fail => Check(calls, None, true)
  }

  /**
   * True when the bot reaches the buy branch: every fetch succeeded, the
   * average is a number, and the price is above it with nothing owned.
   */
  predicate OnBuyPath(symbol: Symbol, r: Replies, span: nat)
    requires span >= 1
  {
    && r.latestPrice.Ok? && r.historicals.Ok? && r.holdings.Ok?
    && r.historicals.value != []
    && SignalOf(r.latestPrice.value, SimpleMovingAverage(r.historicals.value, span).value,
                QuantityOwned(r.holdings.value, symbol)) == Enter
  }

  /**
   * The decision part of `check_and_trade` once the price, the moving average
   * and the quantity owned are known: on the buy branch fetch the buying power
   * and size the order, on the sell branch sell everything owned, otherwise do
   * nothing. A NaN average (`None`) fails both comparisons.
   */
  function Decision(symbol: Symbol, price: real, sma: Option<real>, owned: real, r: Replies, maxPosition: real): (c: Check)
    ensures c.calls != [] && c.calls[0] == LatestPrice(symbol)
    ensures Evaluated(c.calls) == [symbol]
    ensures |Submitted(c.calls)| <= 1
    ensures forall o :: o in Submitted(c.calls) ==> o.symbol == symbol
    ensures c.raised ==> Submitted(c.calls) == [] && c.placed.None?
    ensures c.placed.Some? ==> Submitted(c.calls) != [] && r.submission == Ok(c.placed.value)
    ensures AccountProfile in c.calls <==> sma.Some? && SignalOf(price, sma.value, owned) == Enter
  {
    FetchesTrace(symbol);
    assert AccountProfile !in Fetches(symbol);
    assert AccountProfile in Fetches(symbol) + [AccountProfile];
    if sma.None? then Check(Fetches(symbol), None, false)
    else
      match SignalOf(price, sma.value, owned)
      case Enter =>
        var calls := Fetches(symbol) + [AccountProfile];
        (match r.buyingPower
         case Fail => Check(calls, None, true)
         case Ok(buyingPower) => Execute(calls, symbol, Size(price, buyingPower, maxPosition), r.submission))
      case Exit => Execute(Fetches(symbol), symbol, Ok(Sell(owned)), r.submission)
      case Stay => Check(Fetches(symbol), None, false)
  }

  /**
   * `check_and_trade`: fetch the latest price, the price history and the
   * holdings, then decide. Any exception on the way is caught and logged, and
   * nothing is submitted after it.
   */
  function CheckAndTrade(symbol: Symbol, r: Replies, maxPosition: real, span: nat): (c: Check)
    requires span >= 1
    ensures c.calls != [] && c.calls[0] == LatestPrice(symbol)
    ensures Evaluated(c.calls) == [symbol]
    ensures |Submitted(c.calls)| <= 1
    ensures forall o :: o in Submitted(c.calls) ==> o.symbol == symbol
    ensures c.raised ==> Submitted(c.calls) == [] && c.placed.None?
    ensures c.placed.Some? ==> Submitted(c.calls) != [] && r.submission == Ok(c.placed.value)
  {
    FetchesTrace(symbol);
    match r.latestPrice
    case Fail => Check([LatestPrice(symbol)], None, true)
    case Ok(price) =>
      match r.historicals
      case Fail => Check([LatestPrice(symbol), Historicals(symbol)], None, true)
      case Ok(closes) =>
        match r.holdings
        case Fail => Check(Fetches(symbol), None, true)
        case Ok(holdings) =>
          Decision(symbol, price, SimpleMovingAverage(closes, span), QuantityOwned(holdings, symbol), r, maxPosition)
  }

  /** The buying power is fetched exactly when the bot is on the buy branch. */
  lemma BuyingPowerFetchedOnlyOnBuyPath(symbol: Symbol, r: Replies, maxPosition: real, span: nat)
    requires span >= 1
    ensures AccountProfile in CheckAndTrade(symbol, r, maxPosition, span).calls
        <==> OnBuyPath(symbol, r, span)
  {
    assert AccountProfile !in [LatestPrice(symbol)];
    assert AccountProfile !in [LatestPrice(symbol), Historicals(symbol)];
    assert AccountProfile !in Fetches(symbol);
  }

  /** The buying power the rule is given: the reply's value, or 0 when it was never read. */
  function BuyingPowerRead(r: Replies): real
  {
    if r.buyingPower.Ok? then r.buyingPower.value else 0.0
  }

  /**
   * When every fetch that is made succeeds, `check_and_trade` submits exactly
   * the order of the rule, and ends in its handler exactly when the rule
   * raises. The buying power reply matters only on the buy branch.
   */
  lemma CheckFollowsRule(symbol: Symbol, r: Replies, maxPosition: real, span: nat)
    requires span >= 1
    requires r.latestPrice.Ok? && r.historicals.Ok? && r.holdings.Ok?
    requires r.historicals.value != []
    requires OnBuyPath(symbol, r, span) ==> r.buyingPower.Ok?
    ensures
      var c := CheckAndTrade(symbol, r, maxPosition, span);
      var a := Decide(r.latestPrice.value, SimpleMovingAverage(r.historicals.value, span).value,
                      QuantityOwned(r.holdings.value, symbol), BuyingPowerRead(r), maxPosition);
      Submitted(c.calls) == Ordered(symbol, a) && (c.raised <==> a.Fail?)
  {
    var price, closes, holdings := r.latestPrice.value, r.historicals.value, r.holdings.value;
    var sma, owned := SimpleMovingAverage(closes, span), QuantityOwned(holdings, symbol);
    assert CheckAndTrade(symbol, r, maxPosition, span) == Decision(symbol, price, sma, owned, r, maxPosition);
    DecisionFollowsRule(symbol, price, sma.value, owned, r, maxPosition);
  }

  lemma DecisionFollowsRule(symbol: Symbol, price: real, sma: real, owned: real, r: Replies, maxPosition: real)
    requires SignalOf(price, sma, owned) == Enter ==> r.buyingPower.Ok?
    ensures
      var c := Decision(symbol, price, Some(sma), owned, r, maxPosition);
      var a := Decide(price, sma, owned, BuyingPowerRead(r), maxPosition);
      Submitted(c.calls) == Ordered(symbol, a) && (c.raised <==> a.Fail?)
  {
    FetchesTrace(symbol);
  }

  /**
   * A failed fetch of the price, the history, the holdings or (on the buy
   * branch) the buying power ends in the handler with nothing submitted; an
   * empty history submits nothing and raises nothing.
   */
  lemma FailedFetchSubmitsNothing(symbol: Symbol, r: Replies, maxPosition: real, span: nat)
    requires span >= 1
    ensures r.latestPrice.Fail? || r.historicals.Fail? || r.holdings.Fail? ==>
      CheckAndTrade(symbol, r, maxPosition, span).raised
    ensures OnBuyPath(symbol, r, span) && r.buyingPower.Fail? ==>
      CheckAndTrade(symbol, r, maxPosition, span).raised
    ensures r.latestPrice.Ok? && r.historicals == Ok([]) && r.holdings.Ok? ==>
      CheckAndTrade(symbol, r, maxPosition, span) == Check(Fetches(symbol), None, false)
  {
  }

  /**
   * A failed order submission is swallowed by the order helper: the calls
   * made and the handler's verdict are those of a successful submission, and
   * only the helper's result becomes `None`.
   */
  lemma SubmissionFailureSwallowed(symbol: Symbol, r: Replies, maxPosition: real, span: nat)
    requires span >= 1
    ensures
      var c := CheckAndTrade(symbol, r, maxPosition, span);
      var failed := CheckAndTrade(symbol, r.(submission := Fail), maxPosition, span);
      failed.calls == c.calls && failed.raised == c.raised && failed.placed.None?
  {
    var failing := r.(submission := Fail);
    if r.latestPrice.Ok? && r.historicals.Ok? && r.holdings.Ok? {
      var price, closes, holdings := r.latestPrice.value, r.historicals.value, r.holdings.value;
      var sma, owned := SimpleMovingAverage(closes, span), QuantityOwned(holdings, symbol);
      assert CheckAndTrade(symbol, r, maxPosition, span) == Decision(symbol, price, sma, owned, r, maxPosition);
      assert CheckAndTrade(symbol, failing, maxPosition, span) == Decision(symbol, price, sma, owned, failing, maxPosition);
      DecisionSwallowsSubmissionFailure(symbol, price, sma, owned, r, maxPosition);
    }
  }

  lemma DecisionSwallowsSubmissionFailure(symbol: Symbol, price: real, sma: Option<real>, owned: real, r: Replies, maxPosition: real)
    ensures
      var c := Decision(symbol, price, sma, owned, r, maxPosition);
      var failed := Decision(symbol, price, sma, owned, r.(submission := Fail), maxPosition);
      failed.calls == c.calls && failed.raised == c.raised && failed.placed.None?
  {
  }
}
