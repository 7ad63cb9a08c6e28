/** The price normaliser and the simulated swap endpoint. */
module Api {
  import opened Wrappers
  import opened Types
  import Constants
  import CurrencySort

  /** What the `latestPrices` map keeps for one currency. */
  datatype Latest = Latest(price: real, date: int)

  /** A JavaScript `Map<string, Latest>`: its entries, and its keys in
      insertion order, which is the order `entries()` yields them in. */
  datatype PriceMap = PriceMap(entries: map<string, Latest>, order: seq<string>)

  /** The keys listed in `order` are those of `entries`, each once. */
  ghost predicate WellFormed(m: PriceMap)
  {
    && (forall i, j :: 0 <= i < j < |m.order| ==> m.order[i] != m.order[j])
    && (forall c :: c in m.order <==> c in m.entries)
  }

  /** The currencies that occur in the feed. */
  ghost function Currencies(data: seq<TokenPrice>): set<string>
  {
    set k | 0 <= k < |data| :: data[k].currency
  }

  /** `data[k]` is the record of currency `c` that the normaliser keeps: its
      date is the latest among the records of `c`, and every earlier record
      of `c` is strictly older (on equal dates the first one seen wins). */
  ghost predicate IsLatestRecord(data: seq<TokenPrice>, c: string, k: int)
  {
    && 0 <= k < |data|
    && data[k].currency == c
    && (forall j :: 0 <= j < |data| && data[j].currency == c ==> data[j].date <= data[k].date)
    && (forall j :: 0 <= j < k && data[j].currency == c ==> data[j].date < data[k].date)
  }

  /** One iteration of the loop: a record replaces the stored one only when
      the currency is new or the record is strictly later. */
  function Record(m: PriceMap, item: TokenPrice): (r: PriceMap)
    ensures WellFormed(m) ==> WellFormed(r)
    ensures r.entries.Keys == m.entries.Keys + {item.currency}
    ensures m.order <= r.order
    ensures forall c :: c in m.entries && c != item.currency ==> r.entries[c] == m.entries[c]
    ensures r.entries[item.currency].date >= item.date
    ensures item.currency in m.entries ==> r.entries[item.currency].date >= m.entries[item.currency].date
    ensures item.currency in m.entries && item.date <= m.entries[item.currency].date ==> r == m
    ensures item.currency !in m.entries || item.date > m.entries[item.currency].date ==>
      r.entries[item.currency] == Latest(item.price, item.date)
  {
    if item.currency !in m.entries then
      PriceMap(m.entries[item.currency := Latest(item.price, item.date)], m.order + [item.currency])
    else if item.date > m.entries[item.currency].date then
      PriceMap(m.entries[item.currency := Latest(item.price, item.date)], m.order)
    else
      m
  }

  /** The `latestPrices` map after the loop has seen all of `data`. */
  function LatestPrices(data: seq<TokenPrice>): (m: PriceMap)
    ensures WellFormed(m)
    ensures m.entries.Keys == Currencies(data)
    decreases |data|
  {
    if data == [] then PriceMap(map[], [])
    else
      var pre := LatestPrices(data[..|data| - 1]);
      assert Currencies(data) == Currencies(data[..|data| - 1]) + {data[|data| - 1].currency} by {
        assert forall k :: 0 <= k < |data| - 1 ==> data[..|data| - 1][k] == data[k];
      }
      Record(pre, data[|data| - 1])
  }

  /** The record every currency keeps is its latest one, the first seen on a tie. */
  lemma {:induction false} LatestPricesKeepLatest(data: seq<TokenPrice>, c: string)
    requires c in LatestPrices(data).entries
    ensures exists k :: (IsLatestRecord(data, c, k) &&
      LatestPrices(data).entries[c] == Latest(data[k].price, data[k].date))
  {
    var n := |data|;
    var pre := data[..n - 1];
    var item := data[n - 1];
    var m := LatestPrices(pre);
    if c != item.currency {
      LatestPricesKeepLatest(pre, c);
      var k :| IsLatestRecord(pre, c, k) && m.entries[c] == Latest(pre[k].price, pre[k].date);
      ExtendOther(data, c, k);
    } else if c !in m.entries {
      ExtendNew(data, c);
    } else {
      LatestPricesKeepLatest(pre, c);
      var k :| IsLatestRecord(pre, c, k) && m.entries[c] == Latest(pre[k].price, pre[k].date);
      if item.date > m.entries[c].date {
        ExtendLater(data, c, k);
      } else {
        ExtendNotLater(data, c, k);
      }
    }
  }

  /** Appending a record of another currency keeps the latest record of `c`. */
  lemma ExtendOther(data: seq<TokenPrice>, c: string, k: int)
    requires |data| > 0 && data[|data| - 1].currency != c
    requires IsLatestRecord(data[..|data| - 1], c, k)
    ensures IsLatestRecord(data, c, k) && data[..|data| - 1][k] == data[k]
  {
    assert forall j :: 0 <= j < |data| - 1 ==> data[..|data| - 1][j] == data[j];
  }

  /** The first record of a currency is its latest so far. */
  lemma ExtendNew(data: seq<TokenPrice>, c: string)
    requires |data| > 0 && data[|data| - 1].currency == c
    requires c !in Currencies(data[..|data| - 1])
    ensures IsLatestRecord(data, c, |data| - 1)
  {
    var pre := data[..|data| - 1];
    forall j | 0 <= j < |data| - 1 ensures data[j].currency != c {
      assert pre[j] == data[j];
      assert pre[j].currency in Currencies(pre);
    }
  }

  /** A strictly later record of `c` becomes its latest. */
  lemma ExtendLater(data: seq<TokenPrice>, c: string, k: int)
    requires |data| > 0 && data[|data| - 1].currency == c
    requires IsLatestRecord(data[..|data| - 1], c, k)
    requires data[|data| - 1].date > data[..|data| - 1][k].date
    ensures IsLatestRecord(data, c, |data| - 1)
  {
    var pre := data[..|data| - 1];
    forall j | 0 <= j < |data| - 1 && data[j].currency == c ensures data[j].date < data[|data| - 1].date {
      assert pre[j] == data[j];
    }
  }

  /** A record of `c` that is not strictly later leaves its latest record in place. */
  lemma ExtendNotLater(data: seq<TokenPrice>, c: string, k: int)
    requires |data| > 0 && data[|data| - 1].currency == c
    requires IsLatestRecord(data[..|data| - 1], c, k)
    requires data[|data| - 1].date <= data[..|data| - 1][k].date
    ensures IsLatestRecord(data, c, k) && data[..|data| - 1][k] == data[k]
  {
    assert forall j :: 0 <= j < |data| - 1 ==> data[..|data| - 1][j] == data[j];
  }

  /** A currency has only one latest record. */
  lemma LatestRecordUnique(data: seq<TokenPrice>, c: string, k1: int, k2: int)
    requires IsLatestRecord(data, c, k1) && IsLatestRecord(data, c, k2)
    ensures k1 == k2
  {
  }

  /** The icon URL attached to a token. */
  function IconUrl(currency: string): string
  {
    Constants.TOKEN_ICONS_BASE + "/" + currency + ".svg"
  }

  /** `Array.from(latestPrices.entries())`, filtered to positive prices and
      mapped to tokens, in map order. */
  function PositiveTokens(order: seq<string>, entries: map<string, Latest>): (r: seq<Token>)
    requires forall k :: 0 <= k < |order| ==> order[k] in entries
    ensures forall t :: t in r <==>
      t.currency in order && t.price == entries[t.currency].price && t.price > 0.0 && t.icon == IconUrl(t.currency)
    ensures (forall i, j :: 0 <= i < j < |order| ==> order[i] != order[j]) ==> CurrencySort.DistinctCurrencies(r)
  {
    if order == [] then []
    else
      var c := order[0];
      var rest := PositiveTokens(order[1..], entries);
      assert forall x :: x in order <==> x == c || x in order[1..];
      if entries[c].price > 0.0 then [Token(c, entries[c].price, IconUrl(c))] + rest else rest
  }

  /** The token list `fetchTokenPrices` returns for the feed `data`, with
      `le` standing for the `localeCompare` order. */
  function Normalize(data: seq<TokenPrice>, le: (string, string) -> bool): (r: seq<Token>)
    ensures CurrencySort.DistinctCurrencies(r)
    ensures forall t :: t in r ==> t.price > 0.0 && t.icon == IconUrl(t.currency) && t.currency in Currencies(data)
  {
    var m := LatestPrices(data);
    var tokens := PositiveTokens(m.order, m.entries);
    CurrencySort.SortDistinct(tokens, le);
    var r := CurrencySort.SortByCurrency(tokens, le);
    assert forall t :: t in r ==> t in multiset(tokens);
    r
  }

  /** Membership in the normaliser's output, token by token. */
  lemma NormalizeMembers(data: seq<TokenPrice>, le: (string, string) -> bool, t: Token)
    ensures t in Normalize(data, le) <==>
      var m := LatestPrices(data);
      t.currency in m.entries && t.price == m.entries[t.currency].price && t.price > 0.0 && t.icon == IconUrl(t.currency)
  {
    var m := LatestPrices(data);
    var s := PositiveTokens(m.order, m.entries);
    assert t in Normalize(data, le) <==> t in multiset(s);
  }

  /** The output is sorted ascending by currency. */
  lemma NormalizeSorted(data: seq<TokenPrice>, le: (string, string) -> bool)
    requires CurrencySort.TotalOrder(le)
    ensures CurrencySort.Sorted(Normalize(data, le), le)
  {
    var m := LatestPrices(data);
    CurrencySort.SortSorted(PositiveTokens(m.order, m.entries), le);
  }

  /** Every output token has a positive price and the conventional icon URL,
      and its price is that of the latest record of its currency. */
  lemma NormalizeTokens(data: seq<TokenPrice>, le: (string, string) -> bool, t: Token)
    requires t in Normalize(data, le)
    ensures t.price > 0.0
    ensures t.icon == Constants.TOKEN_ICONS_BASE + "/" + t.currency + ".svg"
    ensures exists k :: IsLatestRecord(data, t.currency, k) && data[k].price == t.price
  {
    NormalizeMembers(data, le, t);
    LatestPricesKeepLatest(data, t.currency);
  }

  /** A currency is in the output exactly when it occurs in the feed and its
      latest record has a positive price; an older positive record does not
      bring back a currency whose latest price is not positive. */
  lemma NormalizeCurrencies(data: seq<TokenPrice>, le: (string, string) -> bool, c: string)
    ensures (exists t :: t in Normalize(data, le) && t.currency == c) <==>
      (exists k :: IsLatestRecord(data, c, k) && data[k].price > 0.0)
  {
    var m := LatestPrices(data);
    if exists k :: IsLatestRecord(data, c, k) && data[k].price > 0.0 {
      var k :| IsLatestRecord(data, c, k) && data[k].price > 0.0;
      assert c in Currencies(data);
      LatestPricesKeepLatest(data, c);
      var k' :| IsLatestRecord(data, c, k') && m.entries[c] == Latest(data[k'].price, data[k'].date);
      LatestRecordUnique(data, c, k, k');
      var t := Token(c, data[k].price, IconUrl(c));
      NormalizeMembers(data, le, t);
    }
    if exists t :: t in Normalize(data, le) && t.currency == c {
      var t :| t in Normalize(data, le) && t.currency == c;
      NormalizeTokens(data, le, t);
    }
  }

  /** A currency whose latest record has a non-positive price is dropped,
      whatever its older records held. */
  lemma ZeroLatestDropsCurrency(data: seq<TokenPrice>, le: (string, string) -> bool, c: string, k: int)
    requires IsLatestRecord(data, c, k) && data[k].price <= 0.0
    ensures forall t :: t in Normalize(data, le) ==> t.currency != c
  {
    NormalizeCurrencies(data, le, c);
    forall k' | IsLatestRecord(data, c, k') ensures data[k'].price <= 0.0 {
      LatestRecordUnique(data, c, k, k');
    }
  }

  /** `fetchTokenPrices` after the response has been parsed into `data`:
      the loop that fills `latestPrices`, then the filter/map/sort pipeline. */
  method FetchTokenPrices(data: seq<TokenPrice>, le: (string, string) -> bool) returns (tokens: seq<Token>)
    ensures tokens == Normalize(data, le)
    ensures CurrencySort.DistinctCurrencies(tokens)
    ensures CurrencySort.TotalOrder(le) ==> CurrencySort.Sorted(tokens, le)
    ensures forall t :: t in tokens ==> t.price > 0.0 && t.icon == IconUrl(t.currency)
  {
    var latestPrices: map<string, Latest> := map[];
    var order: seq<string> := [];
    for i := 0 to |data|
      invariant PriceMap(latestPrices, order) == LatestPrices(data[..i])
    {
      var item := data[i];
      assert data[..i + 1][..i] == data[..i];
      if item.currency !in latestPrices || item.date > latestPrices[item.currency].date {
        if item.currency !in latestPrices {
          order := order + [item.currency];
        }
        latestPrices := latestPrices[item.currency := Latest(item.price, item.date)];
      }
    }
    assert data[..|data|] == data;
    tokens := CurrencySort.SortByCurrency(PositiveTokens(order, latestPrices), le);
    if CurrencySort.TotalOrder(le) {
      NormalizeSorted(data, le);
    }
  }

  datatype SwapRequest = SwapRequest(fromToken: Token, toToken: Token, fromAmount: string, toAmount: string)

  datatype SwapResponse = SwapResponse(
    success: bool,
    transactionId: string,
    fromAmount: string,
    toAmount: string,
    fromCurrency: string,
    toCurrency: string,
    timestamp: string)

  const SWAP_FAILED_MESSAGE: string := "Transaction failed. Please try again."

  /** `executeSwap` once its delay has elapsed. What the random draw, the
      clock and the random suffix would produce is given as parameters:
      `failed` is the outcome of `Math.random() < 0.1`, `now` the decimal
      rendering of `Date.now()`, `suffix` the random id suffix and
      `timestamp` the ISO rendering of the current time. */
  function ExecuteSwap(request: SwapRequest, failed: bool, now: string, suffix: string, timestamp: string)
    : (r: Result<SwapResponse, string>)
    ensures r.Failure? <==> failed
    ensures r.Failure? ==> r.error == SWAP_FAILED_MESSAGE
    ensures r.Success? ==>
      && r.value.success
      && r.value.fromAmount == request.fromAmount
      && r.value.toAmount == request.toAmount
      && r.value.fromCurrency == request.fromToken.currency
      && r.value.toCurrency == request.toToken.currency
      && r.value.transactionId == "tx_" + now + "_" + suffix
      && r.value.timestamp == timestamp
  {
    if failed then Failure(SWAP_FAILED_MESSAGE)
    else
      Success(SwapResponse(
        success := true,
        transactionId := "tx_" + now + "_" + suffix,
        fromAmount := request.fromAmount,
        toAmount := request.toAmount,
        fromCurrency := request.fromToken.currency,
        toCurrency := request.toToken.currency,
        timestamp := timestamp))
  }
}
