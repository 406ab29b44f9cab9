/**
 * The trading bot and its `run` loop: every cycle evaluates the whole
 * watch-list, one symbol after another.
 */
module Bot {

  import opened Gateway
  import opened MovingAverage
  import opened Router
  import opened Trading

  /** Consecutive traces, one after another. */
  function Concat(traces: seq<seq<Call>>): seq<Call>
  {
    if traces == [] then [] else Concat(traces[..|traces| - 1]) + traces[|traces| - 1]
  }

  lemma ConcatStep(traces: seq<seq<Call>>, k: nat)
    requires k < |traces|
    ensures Concat(traces[..k + 1]) == Concat(traces[..k]) + traces[k]
  {
    var t := traces[..k + 1];
    assert t[..k] == traces[..k] && t[k] == traces[k];
  }

  lemma {:induction false} ConcatSplits(a: seq<seq<Call>>, b: seq<seq<Call>>)
    ensures Concat(a + b) == Concat(a) + Concat(b)
    decreases |b|
  {
    if b == [] {
      assert a + b == a;
    } else {
      var n, ab := |b| - 1, a + b;
      ConcatSplits(a, b[..n]);
      ConcatStep(ab, |a| + n);
      ConcatStep(b, n);
      assert ab[..|a| + n + 1] == ab && b[..n + 1] == b;
      assert ab[..|a| + n] == a + b[..n] && ab[|a| + n] == b[n];
    }
  }

  /** The calls of consecutive checks, in order. */
  function Trace(checks: seq<Check>): seq<Call>
  {
    Concat(seq(|checks|, i requires 0 <= i < |checks| => checks[i].calls))
  }

  /** How many of the checks ended in the handler of `check_and_trade`. */
  function Errors(checks: seq<Check>): (n: nat)
    ensures n <= |checks|
  {
    if checks == [] then 0
    else Errors(checks[..|checks| - 1]) + if checks[|checks| - 1].raised then 1 else 0
  }

  /**
   * One cycle: `check_and_trade` on each symbol of the watch-list, the `i`-th
   * answered by `replies[i]`, with the default cap and span. Each check sees
   * its own replies only.
   */
  function Cycle(symbols: seq<Symbol>, replies: seq<Replies>): (checks: seq<Check>)
    requires |replies| == |symbols|
    ensures |checks| == |symbols|
    ensures forall i :: 0 <= i < |symbols| ==> checks[i] == CheckAndTrade(symbols[i], replies[i], MaxPosition, Span)
  {
    seq(|symbols|, i requires 0 <= i < |symbols| => CheckAndTrade(symbols[i], replies[i], MaxPosition, Span))
  }

  lemma TraceStep(checks: seq<Check>, i: nat)
    requires i < |checks|
    ensures Trace(checks[..i + 1]) == Trace(checks[..i]) + checks[i].calls
    ensures Errors(checks[..i + 1]) == Errors(checks[..i]) + if checks[i].raised then 1 else 0
  {
    var c, p := checks[..i + 1], checks[..i];
    assert c[..i] == p && c[i] == checks[i];
    var traces := seq(|c|, j requires 0 <= j < |c| => c[j].calls);
    assert traces[..i] == seq(|p|, j requires 0 <= j < |p| => p[j].calls);
    assert Trace(c) == Concat(traces[..i]) + traces[i];
  }

  lemma {:induction false} TraceSplits(a: seq<Check>, b: seq<Check>)
    ensures Trace(a + b) == Trace(a) + Trace(b)
    ensures Errors(a + b) == Errors(a) + Errors(b)
    decreases |b|
  {
    var ta := seq(|a|, i requires 0 <= i < |a| => a[i].calls);
    var tb := seq(|b|, i requires 0 <= i < |b| => b[i].calls);
    assert seq(|a + b|, i requires 0 <= i < |a + b| => (a + b)[i].calls) == ta + tb;
    ConcatSplits(ta, tb);
    if b == [] {
      assert a + b == a;
    } else {
      var n := |b| - 1;
      TraceSplits(a, b[..n]);
      assert (a + b)[..|a| + n] == a + b[..n];
      assert (a + b)[|a| + n] == b[n];
    }
  }

  /** Checks that each evaluate their own symbol evaluate the symbols in order. */
  lemma {:induction false} TraceEvaluates(checks: seq<Check>, symbols: seq<Symbol>)
    requires |checks| == |symbols|
    requires forall i :: 0 <= i < |checks| ==> Evaluated(checks[i].calls) == [symbols[i]]
    ensures Evaluated(Trace(checks)) == symbols
  {
    if checks != [] {
      var n := |checks| - 1;
      TraceEvaluates(checks[..n], symbols[..n]);
      TraceStep(checks, n);
      assert checks[..n + 1] == checks;
      EvaluatedAppend(Trace(checks[..n]), checks[n].calls);
      assert symbols[..n] + [symbols[n]] == symbols;
    }
  }

  /**
   * Checks that each submit at most one order, for their own symbol, submit
   * at most one order per occurrence of a symbol.
   */
  lemma {:induction false} TraceOrders(checks: seq<Check>, symbols: seq<Symbol>)
    requires |checks| == |symbols|
    requires forall i :: 0 <= i < |checks| ==> |Submitted(checks[i].calls)| <= 1
    requires forall i, o :: 0 <= i < |checks| && o in Submitted(checks[i].calls) ==> o.symbol == symbols[i]
    ensures |Submitted(Trace(checks))| <= |checks|
    ensures multiset(OrderSymbols(Submitted(Trace(checks)))) <= multiset(symbols)
  {
    if checks != [] {
      var n := |checks| - 1;
      var prev, last := Trace(checks[..n]), checks[n].calls;
      TraceOrders(checks[..n], symbols[..n]);
      TraceStep(checks, n);
      assert checks[..n + 1] == checks;
      SubmittedAppend(prev, last);
      OrderSymbolsAppend(Submitted(prev), Submitted(last));
      if Submitted(last) != [] {
        assert Submitted(last)[0] in Submitted(last);
        assert OrderSymbols(Submitted(last)) == [symbols[n]];
      }
      assert multiset(OrderSymbols(Submitted(last))) <= multiset([symbols[n]]);
      assert symbols[..n] + [symbols[n]] == symbols;
    }
  }

  /** An order whose symbol is counted in a multiset of symbols is for one of them. */
  lemma OrdersForSymbols(orders: seq<Order>, symbols: seq<Symbol>)
    requires multiset(OrderSymbols(orders)) <= multiset(symbols)
    ensures forall o :: o in orders ==> o.symbol in symbols
  {
    forall o | o in orders
      ensures o.symbol in symbols
    {
      var i :| 0 <= i < |orders| && orders[i] == o;
      assert OrderSymbols(orders)[i] == o.symbol;
      assert o.symbol in multiset(OrderSymbols(orders));
    }
  }

  /** Every symbol of the watch-list is evaluated, once and in order, whatever fails. */
  lemma CycleEvaluatesEverySymbol(symbols: seq<Symbol>, replies: seq<Replies>)
    requires |replies| == |symbols|
    ensures Evaluated(Trace(Cycle(symbols, replies))) == symbols
  {
    TraceEvaluates(Cycle(symbols, replies), symbols);
  }

  /**
   * A cycle submits only orders for watch-list symbols, and at most one per
   * occurrence of a symbol in the watch-list.
   */
  lemma CycleOrdersBounded(symbols: seq<Symbol>, replies: seq<Replies>)
    requires |replies| == |symbols|
    ensures |Submitted(Trace(Cycle(symbols, replies)))| <= |symbols|
    ensures multiset(OrderSymbols(Submitted(Trace(Cycle(symbols, replies))))) <= multiset(symbols)
    ensures forall o :: o in Submitted(Trace(Cycle(symbols, replies))) ==> o.symbol in symbols
  {
    TraceOrders(Cycle(symbols, replies), symbols);
    OrdersForSymbols(Submitted(Trace(Cycle(symbols, replies))), symbols);
  }

  /**
   * The cycle over a watch-list is the cycle over its first part followed by
   * the cycle over the rest: what one symbol's replies are never changes what
   * is done for another.
   */
  lemma CycleSplits(s1: seq<Symbol>, r1: seq<Replies>, s2: seq<Symbol>, r2: seq<Replies>)
    requires |r1| == |s1| && |r2| == |s2|
    ensures Trace(Cycle(s1 + s2, r1 + r2)) == Trace(Cycle(s1, r1)) + Trace(Cycle(s2, r2))
    ensures Errors(Cycle(s1 + s2, r1 + r2)) == Errors(Cycle(s1, r1)) + Errors(Cycle(s2, r2))
  {
    assert Cycle(s1 + s2, r1 + r2) == Cycle(s1, r1) + Cycle(s2, r2);
    TraceSplits(Cycle(s1, r1), Cycle(s2, r2));
  }

  /**
   * When no latest price can be fetched for any symbol, the cycle submits
   * nothing, and catches one exception per symbol.
   */
  lemma {:induction false} TotalOutage(symbols: seq<Symbol>, replies: seq<Replies>)
    requires |replies| == |symbols|
    requires forall i :: 0 <= i < |replies| ==> replies[i].latestPrice.Fail?
    ensures Submitted(Trace(Cycle(symbols, replies))) == []
    ensures Errors(Cycle(symbols, replies)) == |symbols|
  {
    if symbols != [] {
      var n := |symbols| - 1;
      TotalOutage(symbols[..n], replies[..n]);
      var checks := Cycle(symbols, replies);
      assert checks[..n] == Cycle(symbols[..n], replies[..n]);
      TraceStep(checks, n);
      assert checks[..n + 1] == checks;
      SubmittedAppend(Trace(checks[..n]), checks[n].calls);
    }
  }

  /** `symbols` repeated `n` times. */
  function Repeat(symbols: seq<Symbol>, n: nat): (r: seq<Symbol>)
    ensures |r| == n * |symbols|
  {
    if n == 0 then [] else Repeat(symbols, n - 1) + symbols
  }

  /** Each symbol occurs `n` times as often in `symbols` repeated `n` times. */
  lemma {:induction false} RepeatCount(symbols: seq<Symbol>, n: nat, s: Symbol)
    ensures multiset(Repeat(symbols, n))[s] == n * multiset(symbols)[s]
  {
    if n > 0 {
      RepeatCount(symbols, n - 1, s);
      assert multiset(Repeat(symbols, n)) == multiset(Repeat(symbols, n - 1)) + multiset(symbols);
      assert (n - 1) * multiset(symbols)[s] + multiset(symbols)[s] == n * multiset(symbols)[s];
    }
  }

  /** The calls of consecutive cycles, the `k`-th cycle answered by `cycles[k]`. */
  function RunTrace(symbols: seq<Symbol>, cycles: seq<seq<Replies>>): seq<Call>
    requires forall k :: 0 <= k < |cycles| ==> |cycles[k]| == |symbols|
  {
    Concat(seq(|cycles|, k requires 0 <= k < |cycles| => Trace(Cycle(symbols, cycles[k]))))
  }

  /**
   * The bot. Logging in, the sleep between cycles and the log lines are not
   * part of this model; the credentials are kept as the bot keeps them.
   */
  class RobinhoodBot {
    var username: string
    var password: string

    constructor (username: string, password: string)
      ensures this.username == username && this.password == password
    {
      this.username := username;
      this.password := password;
    }

    /**
     * One pass of the `run` loop: `check_and_trade` on every symbol of the
     * watch-list in turn. The handler in `check_and_trade` catches every
     * exception, so every symbol is reached.
     */
    method RunCycle(symbols: seq<Symbol>, replies: seq<Replies>) returns (calls: seq<Call>, errors: nat)
      requires |replies| == |symbols|
      ensures calls == Trace(Cycle(symbols, replies))
      ensures errors == Errors(Cycle(symbols, replies))
      ensures Evaluated(calls) == symbols
      ensures |Submitted(calls)| <= |symbols|
      ensures multiset(OrderSymbols(Submitted(calls))) <= multiset(symbols)
      ensures forall o :: o in Submitted(calls) ==> o.symbol in symbols
    {
      ghost var checks := Cycle(symbols, replies);
      calls, errors := [], 0;
      var i := 0;
      while i < |symbols|
        invariant 0 <= i <= |symbols|
        invariant calls == Trace(checks[..i])
        invariant errors == Errors(checks[..i])
      {
        var check := CheckAndTrade(symbols[i], replies[i], MaxPosition, Span);
        TraceStep(checks, i);
        calls := calls + check.calls;
        errors := errors + if check.raised then 1 else 0;
        i := i + 1;
      }
      assert checks[..i] == checks;
      CycleEvaluatesEverySymbol(symbols, replies);
      CycleOrdersBounded(symbols, replies);
    }

    /**
     * The `run` loop over `|cycles|` cycles. Its outer handler never fires,
     * since `check_and_trade` catches everything: each cycle evaluates the
     * whole watch-list again.
     */
    method Run(symbols: seq<Symbol>, cycles: seq<seq<Replies>>) returns (calls: seq<Call>)
      requires forall k :: 0 <= k < |cycles| ==> |cycles[k]| == |symbols|
      ensures calls == RunTrace(symbols, cycles)
      ensures Evaluated(calls) == Repeat(symbols, |cycles|)
      ensures |Submitted(calls)| <= |cycles| * |symbols|
      ensures forall s :: multiset(OrderSymbols(Submitted(calls)))[s] <= |cycles| * multiset(symbols)[s]
    {
      ghost var traces := seq(|cycles|, k requires 0 <= k < |cycles| => Trace(Cycle(symbols, cycles[k])));
      calls := [];
      var k := 0;
      while k < |cycles|
        invariant 0 <= k <= |cycles|
        invariant calls == Concat(traces[..k])
        invariant Evaluated(calls) == Repeat(symbols, k)
        invariant |Submitted(calls)| <= k * |symbols|
        invariant multiset(OrderSymbols(Submitted(calls))) <= multiset(Repeat(symbols, k))
      {
        var cycle, _ := RunCycle(symbols, cycles[k]);
        EvaluatedAppend(calls, cycle);
        SubmittedAppend(calls, cycle);
        OrderSymbolsAppend(Submitted(calls), Submitted(cycle));
        ConcatStep(traces, k);
        assert (k + 1) * |symbols| == k * |symbols| + |symbols|;
        calls := calls + cycle;
        k := k + 1;
      }
      assert traces[..k] == traces;
      forall s {
        RepeatCount(symbols, k, s);
      }
    }
  }
}
