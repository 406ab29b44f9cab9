/**
 * The position tracker: how many shares of a symbol the account holds.
 */
module Position {

  import opened Gateway

  /**
   * The quantity owned, read from the holdings: an absent symbol reads as an
   * entry `{"quantity": 0}`, and an entry without a "quantity" field reads as 0.
   */
  function QuantityOwned(holdings: Holdings, symbol: Symbol): (q: real)
    ensures symbol in holdings && "quantity" in holdings[symbol] ==> q == holdings[symbol]["quantity"]
    ensures symbol !in holdings ==> q == 0.0
    ensures symbol in holdings && "quantity" !in holdings[symbol] ==> q == 0.0
  {
    var entry := if symbol in holdings then holdings[symbol] else map["quantity" := 0.0];
    if "quantity" in entry then entry["quantity"] else 0.0
  }

  /** The lookup reads only the symbol's own entry: other symbols' entries never matter. */
  lemma QuantityOwnedIsLocal(holdings: Holdings, symbol: Symbol, other: Symbol, entry: map<string, real>)
    requires other != symbol
    ensures QuantityOwned(holdings[other := entry], symbol) == QuantityOwned(holdings, symbol)
  {
  }
}
