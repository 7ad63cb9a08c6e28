/** The exchange calculator. */
module Tokens {
  import opened Types
  import Constants

  /** `calculateExchangeAmount`: the amount of `toToken` worth `fromAmount`
      of `fromToken`, or 0 when the amount is not positive or a price is
      zero. A negative price is not guarded against. */
  function CalculateExchangeAmount(fromAmount: real, fromToken: Token, toToken: Token): (r: real)
    ensures fromAmount <= Constants.MIN_AMOUNT ==> r == 0.0
    ensures fromToken.price == 0.0 || toToken.price == 0.0 ==> r == 0.0
    ensures fromAmount > Constants.MIN_AMOUNT && fromToken.price != 0.0 && toToken.price != 0.0 ==>
      r * toToken.price == fromAmount * fromToken.price
    ensures fromAmount > Constants.MIN_AMOUNT && fromToken.price > 0.0 && toToken.price > 0.0 ==> r > 0.0
  {
    if fromAmount == 0.0 || fromAmount <= Constants.MIN_AMOUNT then 0.0
    else if fromToken.price == 0.0 || toToken.price == 0.0 then 0.0
    else if toToken.price == 0.0 then 0.0
    else
      var usdValue := fromAmount * fromToken.price;
      usdValue / toToken.price
  }

  /** A negative price passes the guards: with a positive amount and a
      positive destination price, a negative source price gives a negative
      amount rather than 0. */
  lemma NegativePriceNotGuarded(fromAmount: real, fromToken: Token, toToken: Token)
    requires fromAmount > 0.0 && fromToken.price < 0.0 && toToken.price > 0.0
    ensures CalculateExchangeAmount(fromAmount, fromToken, toToken) < 0.0
  {
    var r := CalculateExchangeAmount(fromAmount, fromToken, toToken);
    assert r * toToken.price == fromAmount * fromToken.price;
    assert fromAmount * fromToken.price < 0.0;
  }

  /** Converting there and back returns the original amount when the amount
      and both prices are positive. */
  lemma ExchangeRoundTrip(amount: real, a: Token, b: Token)
    requires amount > 0.0 && a.price > 0.0 && b.price > 0.0
    ensures CalculateExchangeAmount(CalculateExchangeAmount(amount, a, b), b, a) == amount
  {
    var x := CalculateExchangeAmount(amount, a, b);
    var y := CalculateExchangeAmount(x, b, a);
    assert x * b.price == amount * a.price;
    assert y * a.price == x * b.price;
    assert (y - amount) * a.price == 0.0;
  }
}
