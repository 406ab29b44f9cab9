/**
 * The trend signal: the arithmetic mean of the trailing closing prices.
 */
module MovingAverage {

  import opened Gateway

  /** Lookback length the bot uses (the default of `simple_moving_average`). */
  const Span: nat := 20

  function Sum(s: seq<real>): real
  {
    if s == [] then 0.0 else s[0] + Sum(s[1..])
  }

  function Smallest(s: seq<real>): (m: real)
    requires s != []
    ensures m in s
    ensures forall i :: 0 <= i < |s| ==> m <= s[i]
  {
    if |s| == 1 then s[0]
    else
      var rest := Smallest(s[1..]);
      assert forall i :: 1 <= i < |s| ==> s[i] == s[1..][i - 1];
      if s[0] <= rest then s[0] else rest
  }

  function Largest(s: seq<real>): (m: real)
    requires s != []
    ensures m in s
    ensures forall i :: 0 <= i < |s| ==> s[i] <= m
  {
    if |s| == 1 then s[0]
    else
      var rest := Largest(s[1..]);
      assert forall i :: 1 <= i < |s| ==> s[i] == s[1..][i - 1];
      if s[0] >= rest then s[0] else rest
  }

  /**
   * The closes the average is taken over: Python's `prices[-span:]`, which for
   * a positive span is the last `span` closes, or all of them when fewer exist.
   */
  function Window(closes: seq<real>, span: nat): (w: seq<real>)
    requires span >= 1
    ensures |w| == if |closes| < span then |closes| else span
    ensures w == closes[|closes| - |w|..]
  {
    if |closes| <= span then closes else closes[|closes| - span..]
  }

  /**
   * `simple_moving_average`: the mean of the window. `None` stands for the NaN
   * that the mean of an empty series gives.
   */
  function SimpleMovingAverage(closes: seq<real>, span: nat): (avg: Option<real>)
    requires span >= 1
    ensures avg.None? <==> closes == []
    ensures avg.Some? ==> avg.value == Sum(Window(closes, span)) / |Window(closes, span)| as real
    ensures avg.Some? ==>
      Smallest(Window(closes, span)) <= avg.value <= Largest(Window(closes, span))
  {
    if closes == [] then None
    else
      var w := Window(closes, span);
      MeanBetweenExtremes(w);
      Some(Sum(w) / |w| as real)
  }

  /** A sum of terms bounded by `lo` and `hi` is bounded by `|s|` times each. */
  lemma {:induction false} SumBounds(s: seq<real>, lo: real, hi: real)
    requires forall i :: 0 <= i < |s| ==> lo <= s[i] <= hi
    ensures |s| as real * lo <= Sum(s) <= |s| as real * hi
  {
    if s != [] {
      var t := s[1..];
      assert forall i :: 0 <= i < |t| ==> t[i] == s[i + 1];
      SumBounds(t, lo, hi);
      var n := |t| as real;
      assert Sum(s) == s[0] + Sum(t);
      assert |s| as real == n + 1.0;
      assert (n + 1.0) * lo == n * lo + lo;
      assert (n + 1.0) * hi == n * hi + hi;
    }
  }

  lemma QuotientBounds(sum: real, n: real, lo: real, hi: real)
    requires n > 0.0 && n * lo <= sum <= n * hi
    ensures lo <= sum / n <= hi
  {
    assert sum / n - lo == (sum - n * lo) / n;
    assert hi - sum / n == (n * hi - sum) / n;
  }

  /** The mean of terms bounded by `lo` and `hi` is bounded by them too. */
  lemma {:induction false} MeanBounds(s: seq<real>, lo: real, hi: real)
    requires s != []
    requires forall i :: 0 <= i < |s| ==> lo <= s[i] <= hi
    ensures lo <= Sum(s) / |s| as real <= hi
  {
    SumBounds(s, lo, hi);
    QuotientBounds(Sum(s), |s| as real, lo, hi);
  }

  /** The mean of a non-empty series lies between its smallest and largest element. */
  lemma {:induction false} MeanBetweenExtremes(s: seq<real>)
    requires s != []
    ensures Smallest(s) <= Sum(s) / |s| as real <= Largest(s)
  {
    MeanBounds(s, Smallest(s), Largest(s));
  }

  /**
   * Only the trailing `span` closes matter: closes older than the window never
   * change the average.
   */
  lemma OlderClosesIgnored(older: seq<real>, closes: seq<real>, span: nat)
    requires span >= 1 && |closes| >= span
    ensures SimpleMovingAverage(older + closes, span) == SimpleMovingAverage(closes, span)
  {
    var all := older + closes;
    assert all[|all| - span..] == closes[|closes| - span..];
    assert Window(all, span) == Window(closes, span);
  }

  /** A flat series averages to its constant value. */
  lemma {:induction false} SumOfConstant(s: seq<real>, c: real)
    requires forall i :: 0 <= i < |s| ==> s[i] == c
    ensures Sum(s) == |s| as real * c
  {
    if s != [] {
      SumOfConstant(s[1..], c);
    }
  }

  lemma FlatSeriesAverage(closes: seq<real>, span: nat, c: real)
    requires span >= 1 && closes != []
    requires forall i :: 0 <= i < |closes| ==> closes[i] == c
    ensures SimpleMovingAverage(closes, span) == Some(c)
  {
    var w := Window(closes, span);
    SumOfConstant(w, c);
  }
}
