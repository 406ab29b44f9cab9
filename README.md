# Robinhood trend-following bot, modelled in Dafny

This project models the decision-and-execution core of an automated trading bot
(`RobinhoodBot` in `Robinhood_DragonTrading_bot.py`). For each symbol of a
watch-list the bot does four things:

1. It fetches the latest price, the daily closing prices and the account holdings.
2. It computes a simple moving average of the last 20 closes.
3. It reads the quantity owned.
4. It applies a first-match rule:
   - BUY `round(1000 / price, 2)` shares when nothing is owned, the price is above the average and the buying power exceeds 1000;
   - SELL the whole position when something is owned and the price is below the average;
   - otherwise do nothing.

Every exception on the way is caught and logged, so one symbol's failure never
stops the next. The `run` loop repeats this over the watch-list forever.

The brokerage client is not modelled. Every answer it gives (a price, a
history, holdings, buying power, an order submission) is an input. It is either
`Ok(value)` or `Fail`, and `Fail` stands for the exception the client raises. One
`Replies` value holds the answers for one evaluation of one symbol. The model
records what the bot does as a trace of `Call`s into the client: the fetches it
makes and the orders it submits, in order. Properties are stated on that trace.

Modules (one file each):

- `Gateway` (gateway.dfy): the client's interface, the call trace and the order helper.
- `MovingAverage` (moving_average.dfy): `simple_moving_average`.
- `Position` (position.dfy): the quantity-owned lookup.
- `Router` (router.dfy): Python's `round(x, 2)` and the buy/sell/hold rule.
- `Trading` (trading.dfy): `check_and_trade`.
- `Bot` (bot.dfy): the bot class, one cycle of `run`, and a bounded number of cycles.

Prices and quantities are exact `real`s. `round(x, 2)` is rounding to the
nearest hundredth, with ties going to the even hundredth, as Python rounds.

Consequences of the code that the model keeps as written:

- **Empty price history.** `np.mean([])` is NaN, and both comparisons against NaN are false. So no order is placed and no exception is raised. The model returns `None` as the average and places no order (`Trading.FailedFetchSubmitsNothing`).
- **Failures are caught per symbol.** `check_and_trade`'s handler catches each failure, so a cycle in which nothing can be fetched logs one error per symbol (`Bot.TotalOutage`). The outer handler of `run` is never reached.
- **Zero price on the buy branch.** `max_position / current_price` raises `ZeroDivisionError`, which the handler catches. The model represents this as `Fail` from the rule.
- **Sizing.** The buy gate compares buying power with `max_position`, not with the rounded notional. Rounding up to the hundredth can therefore buy more than the buying power (`Router.BuyCanExceedBuyingPower`). The notional always stays within half a cent per share of the cap (`Router.BuyNotionalNearCap`).

## Model

| member | source | states |
|---|---|---|
| `Gateway.PlaceOrder` | Robinhood_DragonTrading_bot.py:46-64 | the order helpers submit exactly the given order (one more order in the trace, nothing else evaluated), return the submission's answer, and return `None` exactly when the submission failed, instead of raising |
| `MovingAverage.Window` | Robinhood_DragonTrading_bot.py:70 | `prices[-span:]` for `span >= 1` is the suffix of length `min(span, len)` |
| `MovingAverage.SimpleMovingAverage` | Robinhood_DragonTrading_bot.py:66-70 | the average is NaN (`None`) exactly for an empty series, and otherwise is the arithmetic mean of the window (the last `span` closes), which lies between the smallest and largest close of the window |
| `MovingAverage.SumBounds` | Robinhood_DragonTrading_bot.py:70 | a sum of terms in `[lo, hi]` lies in `[n*lo, n*hi]` (the induction behind the mean's bounds) |
| `MovingAverage.QuotientBounds` | Robinhood_DragonTrading_bot.py:70 | dividing bounds `n*lo <= s <= n*hi` by a positive `n` gives `lo <= s/n <= hi` |
| `MovingAverage.MeanBounds` | Robinhood_DragonTrading_bot.py:70 | the mean of terms in `[lo, hi]` lies in `[lo, hi]` |
| `MovingAverage.MeanBetweenExtremes` | Robinhood_DragonTrading_bot.py:70 | the mean of a non-empty window lies between its minimum and maximum |
| `MovingAverage.OlderClosesIgnored` | Robinhood_DragonTrading_bot.py:70 | closes older than the last `span` never change the average |
| `MovingAverage.FlatSeriesAverage` | Robinhood_DragonTrading_bot.py:66-70 | a constant series averages to that constant |
| `Position.QuantityOwned` | Robinhood_DragonTrading_bot.py:80-81 | a symbol whose entry has a `quantity` field gets that quantity; an absent symbol, or an entry without the field, gets 0 |
| `Position.QuantityOwnedIsLocal` | Robinhood_DragonTrading_bot.py:80-81 | the lookup reads only the symbol's own entry |
| `Router.RoundHalfEven` | Robinhood_DragonTrading_bot.py:87 | the result is within 1/2 of the input, and even on a tie |
| `Router.RoundIsNearest` | Robinhood_DragonTrading_bot.py:87 | no integer is closer to the input than the rounded value |
| `Router.RoundHalfEvenUnique` | Robinhood_DragonTrading_bot.py:87 | the two properties of `RoundHalfEven` determine its result |
| `Router.Round2` | Robinhood_DragonTrading_bot.py:87 | `round(x, 2)` is within 0.005 of `x`, has at most two decimals, and on a tie is the even hundredth |
| `Router.SignalOf` | Robinhood_DragonTrading_bot.py:83-91 | the buy branch is taken iff price > average and nothing is owned; the sell branch iff price < average and something is owned |
| `Router.Size` | Robinhood_DragonTrading_bot.py:85-88 | the buy happens iff buying power > `max_position` and the price is non-zero, and its quantity is `round(max_position / price, 2)`; a zero price raises |
| `Router.Decide` | Robinhood_DragonTrading_bot.py:83-94 | the rule buys iff owned == 0, price > average, buying power > `max_position` and price != 0, with quantity `round(max_position / price, 2)`; sells iff owned > 0 and price < average, for the whole owned quantity; holds exactly when neither gate holds; raises exactly on a zero price on the buy branch |
| `Router.BuyingPowerOnlyOnBuyPath` | Robinhood_DragonTrading_bot.py:83-86 | off the buy branch the decision does not depend on buying power |
| `Router.BuyNotionalNearCap` | Robinhood_DragonTrading_bot.py:86-88 | a buy's notional is within `price * 0.005` of `max_position` |
| `Router.BuyCanExceedBuyingPower` | Robinhood_DragonTrading_bot.py:86-88 | with cap 1000, price 600 and buying power 1000.5 the rule buys 1.67 shares, worth more than the buying power |
| `Router.Examples` | Robinhood_DragonTrading_bot.py:83-94 | worked cases: buy 9.52 at 105 over 100; sell all 9.52 at 95; hold when buying power is short, when held and rising, and when price equals the average |
| `Trading.Execute` | Robinhood_DragonTrading_bot.py:86-93 | a buy or sell decision submits exactly its one order through the order helper, a hold submits nothing, and a raising decision ends in the handler |
| `Trading.Decision` | Robinhood_DragonTrading_bot.py:83-94 | after the fetches, at most one order is submitted and it is for the symbol; the buying power is fetched iff the average is a number and the buy branch is taken |
| `Trading.CheckAndTrade` | Robinhood_DragonTrading_bot.py:72-97 | each check starts by asking the symbol's price, evaluates only that symbol, and submits at most one order, for that symbol; an exception leaves nothing submitted |
| `Trading.BuyingPowerFetchedOnlyOnBuyPath` | Robinhood_DragonTrading_bot.py:75-86 | the buying power is fetched exactly when every fetch succeeded, the history is non-empty and the buy branch is taken |
| `Trading.DecisionFollowsRule` | Robinhood_DragonTrading_bot.py:83-94 | the decision step submits exactly the order the rule `Decide` prescribes, and raises exactly when the rule raises; the buying power reply matters only on the buy branch |
| `Trading.CheckFollowsRule` | Robinhood_DragonTrading_bot.py:74-94 | when the price, history and holdings fetches succeed (and, on the buy branch only, the buying power fetch), `check_and_trade` submits exactly the rule's order and raises exactly when the rule raises |
| `Trading.FailedFetchSubmitsNothing` | Robinhood_DragonTrading_bot.py:74-97 | a failed fetch of the price, history, holdings or (on the buy branch) buying power is caught with nothing submitted; an empty history gives no order and no exception |
| `Trading.DecisionSwallowsSubmissionFailure` | Robinhood_DragonTrading_bot.py:46-64 | in the decision step a failed submission changes only the helper's result to `None` |
| `Trading.SubmissionFailureSwallowed` | Robinhood_DragonTrading_bot.py:46-64 | a failed order submission changes neither the calls made nor whether the handler fires, and only the helper's result becomes `None` |
| `Bot.Cycle` | Robinhood_DragonTrading_bot.py:104-105 | one cycle makes one check per symbol, in order, and each check sees only its own symbol's replies |
| `Bot.CycleEvaluatesEverySymbol` | Robinhood_DragonTrading_bot.py:104-106 | the symbols evaluated in a cycle are exactly the watch-list, in order, whatever fails |
| `Bot.CycleOrdersBounded` | Robinhood_DragonTrading_bot.py:104-105 | a cycle submits orders only for watch-list symbols, at most one per occurrence of a symbol in the watch-list (a multiset bound), so at most `|symbols|` in all |
| `Bot.CycleSplits` | Robinhood_DragonTrading_bot.py:104-105 | a cycle over two parts of a watch-list is the cycle over the first part followed by the cycle over the second |
| `Bot.TotalOutage` | Robinhood_DragonTrading_bot.py:96-105 | when no price can be fetched, a cycle submits nothing and catches one exception per symbol |
| `Bot.RobinhoodBot.constructor` | Robinhood_DragonTrading_bot.py:18-23 | the bot keeps the given credentials |
| `Bot.RobinhoodBot.RunCycle` | Robinhood_DragonTrading_bot.py:104-106 | the loop's calls and error count are those of the cycle; every symbol is evaluated in order; orders are only for watch-list symbols, at most one per occurrence of a symbol |
| `Bot.RobinhoodBot.Run` | Robinhood_DragonTrading_bot.py:99-110 | over `n` cycles the loop's calls are those of the `n` cycles in turn; it evaluates the watch-list `n` times in order, and each symbol gets at most `n` times as many orders as it occurs in the watch-list |

## Left out

- Logging in (`rh.login`), loading credentials from the environment, the log configuration and every log line: these are I/O. The constructor takes the credentials as parameters.
- `print_dashboard` and the `__main__` block: they only print to the console.
- The brokerage client (`robin_stocks`): every answer it gives is an input (`Replies`), and its order lifecycle is not modelled.
- `time.sleep(interval)` and the unbounded `while True`: `Run` models a finite number of cycles with no clock.
- The outer `except` of `run`: nothing in the model can raise past `check_and_trade`'s handler, so it never fires.
- Binary floating point: prices, averages and quantities are exact reals. Python's `round` on the binary value, the `float()` parsing of the client's strings, and NaN beyond the empty-history case are not modelled.
- `span <= 0`: `prices[-0:]` is the whole list. Every call in the source uses the default span of 20, so the average requires `span >= 1`.
- The `interval='day'` argument of the history request is part of the client call and is not modelled.
- Exceptions from holdings entries that are not dictionaries are not modelled: entries are maps from field names to numbers.
