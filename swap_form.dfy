/** The swap form controller: the form's state and the handlers that change it. */
module Swap {
  import opened Wrappers
  import opened Types
  import Tokens
  import Api

  const SELECT_TOKEN: string := "Please select a token"
  const ENTER_AMOUNT: string := "Please enter an amount"
  const VALID_AMOUNT: string := "Please enter a valid amount"

  /** The per-field validation messages; `None` is an absent key. */
  datatype FormErrors = FormErrors(fromToken: Option<string>, toToken: Option<string>, fromAmount: Option<string>)

  const NO_ERRORS: FormErrors := FormErrors(None, None, None)

  /** `Object.keys(newErrors).length > 0`. */
  predicate HasErrors(e: FormErrors)
  {
    e.fromToken.Some? || e.toToken.Some? || e.fromAmount.Some?
  }

  /** `parseFloat` gave a number (not NaN) greater than zero. */
  predicate IsPositive(parsed: Option<real>)
  {
    parsed.Some? && parsed.value > 0.0
  }

  /** The submission precondition: both tokens chosen and a positive amount entered. */
  predicate ReadyToSubmit(from: Option<Token>, to: Option<Token>, amount: string, parse: string -> Option<real>)
  {
    from.Some? && to.Some? && amount != "" && IsPositive(parse(amount))
  }

  /** `recalculateToAmount`: the formatted converted amount, or "" when the
      amount string is empty, a token is missing, or the amount does not
      parse to a positive number. `parse` stands for `parseFloat` (None for
      NaN) and `fmt6` for `toFixed(6)`. */
  function RecalculateToAmount(amount: string, from: Option<Token>, to: Option<Token>,
                               parse: string -> Option<real>, fmt6: real -> string): (r: string)
    ensures !ReadyToSubmit(from, to, amount, parse) ==> r == ""
    ensures ReadyToSubmit(from, to, amount, parse) ==>
      exists v :: r == fmt6(v)
        && (from.value.price != 0.0 && to.value.price != 0.0 ==> v * to.value.price == parse(amount).value * from.value.price)
        && (from.value.price == 0.0 || to.value.price == 0.0 ==> v == 0.0)
  {
    if amount != "" && from.Some? && to.Some? then
      var numAmount := parse(amount);
      if numAmount.Some? && numAmount.value > 0.0 then
        var v := Tokens.CalculateExchangeAmount(numAmount.value, from.value, to.value);
        fmt6(v)
      else ""
    else ""
  }

  /** The recalculated amount is `fmt6` of the exchange calculator's result. */
  lemma RecalculateUsesCalculator(amount: string, from: Token, to: Token,
                                  parse: string -> Option<real>, fmt6: real -> string)
    requires ReadyToSubmit(Some(from), Some(to), amount, parse)
    ensures RecalculateToAmount(amount, Some(from), Some(to), parse, fmt6) ==
      fmt6(Tokens.CalculateExchangeAmount(parse(amount).value, from, to))
  {
  }

  /** The errors `handleSubmit` collects: every rule is checked, none stops the others. */
  function Validate(from: Option<Token>, to: Option<Token>, amount: string, parse: string -> Option<real>)
    : (e: FormErrors)
    ensures e.fromToken == (if from.None? then Some(SELECT_TOKEN) else None)
    ensures e.toToken == (if to.None? then Some(SELECT_TOKEN) else None)
    ensures amount == "" ==> e.fromAmount == Some(ENTER_AMOUNT)
    ensures amount != "" && !IsPositive(parse(amount)) ==> e.fromAmount == Some(VALID_AMOUNT)
    ensures amount != "" && IsPositive(parse(amount)) ==> e.fromAmount == None
    ensures !HasErrors(e) <==> ReadyToSubmit(from, to, amount, parse)
  {
    FormErrors(
      if from.None? then Some(SELECT_TOKEN) else None,
      if to.None? then Some(SELECT_TOKEN) else None,
      if amount == "" then Some(ENTER_AMOUNT)
      else if !IsPositive(parse(amount)) then Some(VALID_AMOUNT)
      else None)
  }

  /** The component's state. `parse` and `fmt6` are the number parser and
      formatter it uses; `submitted` records every request handed to the
      swap mutation. */
  class SwapForm {
    const parse: string -> Option<real>
    const fmt6: real -> string

    var fromToken: Option<Token>
    var toToken: Option<Token>
    var fromAmount: string
    var toAmount: string
    var errors: FormErrors
    ghost var submitted: seq<Api.SwapRequest>

    /** `toAmount` is always derived from the amount and the two tokens. */
    ghost predicate Valid()
      reads this
    {
      toAmount == RecalculateToAmount(fromAmount, fromToken, toToken, parse, fmt6)
    }

    constructor (parse: string -> Option<real>, fmt6: real -> string)
      ensures Valid()
      ensures this.parse == parse && this.fmt6 == fmt6
      ensures fromToken == None && toToken == None && fromAmount == "" && toAmount == ""
      ensures errors == NO_ERRORS && submitted == []
    {
      this.parse := parse;
      this.fmt6 := fmt6;
      fromToken, toToken := None, None;
      fromAmount, toAmount := "", "";
      errors := NO_ERRORS;
      submitted := [];
    }

    /** `handleFromAmountChange`. */
    method HandleFromAmountChange(value: string)
      modifies this`fromAmount, this`toAmount, this`errors
      ensures Valid()
      ensures fromAmount == value
      ensures errors == old(errors).(fromAmount := None)
      ensures toAmount == RecalculateToAmount(value, fromToken, toToken, parse, fmt6)
    {
      fromAmount := value;
      errors := errors.(fromAmount := None);
      toAmount := RecalculateToAmount(value, fromToken, toToken, parse, fmt6);
    }

    /** `handleFromTokenChange`. */
    method HandleFromTokenChange(token: Option<Token>)
      modifies this`fromToken, this`toAmount, this`errors
      ensures Valid()
      ensures fromToken == token
      ensures errors == old(errors).(fromToken := None)
      ensures toAmount == RecalculateToAmount(fromAmount, token, toToken, parse, fmt6)
    {
      fromToken := token;
      errors := errors.(fromToken := None);
      toAmount := RecalculateToAmount(fromAmount, token, toToken, parse, fmt6);
    }

    /** `handleToTokenChange`. */
    method HandleToTokenChange(token: Option<Token>)
      modifies this`toToken, this`toAmount, this`errors
      ensures Valid()
      ensures toToken == token
      ensures errors == old(errors).(toToken := None)
      ensures toAmount == RecalculateToAmount(fromAmount, fromToken, token, parse, fmt6)
    {
      toToken := token;
      errors := errors.(toToken := None);
      toAmount := RecalculateToAmount(fromAmount, fromToken, token, parse, fmt6);
    }

    /** `handleSwapTokens`: every right-hand side reads the state before the flip. */
    method HandleSwapTokens()
      modifies this`fromToken, this`toToken, this`fromAmount, this`toAmount, this`errors
      ensures Valid()
      ensures fromToken == old(toToken) && toToken == old(fromToken)
      ensures fromAmount == old(toAmount)
      ensures toAmount == RecalculateToAmount(old(toAmount), old(toToken), old(fromToken), parse, fmt6)
      ensures errors == NO_ERRORS
    {
      fromToken, toToken, fromAmount, toAmount, errors :=
        toToken, fromToken, toAmount, RecalculateToAmount(toAmount, toToken, fromToken, parse, fmt6), NO_ERRORS;
    }

    /** `handleSubmit`: the errors are collected field by field; the request
        is handed to the swap mutation only when none was found. */
    method HandleSubmit()
      requires Valid()
      modifies this`errors, this`submitted
      ensures Valid()
      ensures HasErrors(Validate(fromToken, toToken, fromAmount, parse)) ==>
        errors == Validate(fromToken, toToken, fromAmount, parse) && submitted == old(submitted)
      ensures !HasErrors(Validate(fromToken, toToken, fromAmount, parse)) ==>
        && errors == old(errors)
        && ReadyToSubmit(fromToken, toToken, fromAmount, parse)
        && submitted == old(submitted) + [Api.SwapRequest(fromToken.value, toToken.value, fromAmount, toAmount)]
    {
      var newErrors := NO_ERRORS;
      if fromToken.None? {
        newErrors := newErrors.(fromToken := Some(SELECT_TOKEN));
      }
      if toToken.None? {
        newErrors := newErrors.(toToken := Some(SELECT_TOKEN));
      }
      var amount := parse(fromAmount);
      if fromAmount == "" {
        newErrors := newErrors.(fromAmount := Some(ENTER_AMOUNT));
      } else if amount.None? || amount.value <= 0.0 {
        newErrors := newErrors.(fromAmount := Some(VALID_AMOUNT));
      }
      if HasErrors(newErrors) {
        errors := newErrors;
        return;
      }
      submitted := submitted + [Api.SwapRequest(fromToken.value, toToken.value, fromAmount, toAmount)];
    }

    /** The mutation's `onSuccess`: the form is cleared. */
    method OnSuccess()
      modifies this`fromToken, this`toToken, this`fromAmount, this`toAmount, this`errors
      ensures Valid()
      ensures fromToken == None && toToken == None && fromAmount == "" && toAmount == ""
      ensures errors == NO_ERRORS
    {
      fromToken, toToken := None, None;
      fromAmount, toAmount := "", "";
      errors := NO_ERRORS;
    }

    /** The mutation's `onError`: only a notice is shown; the form keeps its state. */
    method OnError()
      requires Valid()
      ensures Valid()
      ensures unchanged(this)
    {
    }

    /** The derived `exchangeRate` before formatting: how many `toToken` one
        `fromToken` buys. A zero `toToken` price, where JavaScript would
        produce Infinity or NaN, gives None. */
    function ExchangeRate(): (r: Option<real>)
      reads this
      ensures r.Some? <==> fromToken.Some? && toToken.Some? && toToken.value.price != 0.0
      ensures r.Some? ==> r.value * toToken.value.price == fromToken.value.price
    {
      if fromToken.Some? && toToken.Some? && toToken.value.price != 0.0 then
        Some(fromToken.value.price / toToken.value.price)
      else None
    }
  }

  /** The shown rate agrees with the calculator: a positive amount converts
      to that amount times the rate. */
  lemma ExchangeRateAgreesWithCalculator(form: SwapForm, amount: real)
    requires amount > 0.0 && form.ExchangeRate().Some?
    ensures Tokens.CalculateExchangeAmount(amount, form.fromToken.value, form.toToken.value)
      == amount * form.ExchangeRate().value
  {
    var f, t := form.fromToken.value, form.toToken.value;
    var rate := form.ExchangeRate().value;
    var v := Tokens.CalculateExchangeAmount(amount, f, t);
    assert rate * t.price == f.price;
    if f.price == 0.0 {
      assert rate == 0.0;
    } else {
      assert v * t.price == amount * f.price;
      assert (v - amount * rate) * t.price == 0.0;
    }
  }

  /** Flipping twice: the tokens come back, the amount comes back up to its
      formatting, and the derived amount is exactly the original one, provided
      the formatter round-trips the two amounts involved. With
      `(F, T, A)` the tokens and amount before, the first flip leaves the
      amount `R(A, F, T)`, the second `R(R(A, F, T), T, F)`. */
  lemma FlipTwiceRestoresAmount(amount: string, from: Token, to: Token,
                                parse: string -> Option<real>, fmt6: real -> string)
    requires from.price > 0.0 && to.price > 0.0
    requires amount != "" && IsPositive(parse(amount))
    requires var x := Tokens.CalculateExchangeAmount(parse(amount).value, from, to);
      fmt6(x) != "" && parse(fmt6(x)) == Some(x)
    requires fmt6(parse(amount).value) != "" && parse(fmt6(parse(amount).value)) == parse(amount)
    ensures var once := RecalculateToAmount(amount, Some(from), Some(to), parse, fmt6);
      var twice := RecalculateToAmount(once, Some(to), Some(from), parse, fmt6);
      && parse(twice) == parse(amount)
      && RecalculateToAmount(twice, Some(from), Some(to), parse, fmt6) == once
  {
    Tokens.ExchangeRoundTrip(parse(amount).value, from, to);
  }
}
