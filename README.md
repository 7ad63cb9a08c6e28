# Swap form core, modelled in Dafny

This project models the logic inside a single-page token swap form. It covers four pieces:

- **The price normaliser** (`fetchTokenPrices` once the feed is parsed). It keeps one record per currency in a JavaScript `Map`. A record replaces the stored one only when its date is strictly later. Entries whose kept price is not positive are then dropped, an icon URL is attached, and the list is sorted by currency.
- **The exchange calculator** (`calculateExchangeAmount`). It guards against a zero or non-positive amount and against a zero price. Otherwise it returns `amount * fromPrice / toPrice`.
- **The swap form controller** (`SwapForm`). It holds five pieces of state: the two selected tokens, the entered amount, the derived amount and the field errors. Its handlers change that state: amount and token changes, flip, submit validation, and the mutation's success and error callbacks.
- **The token selector** (`TokenSelector`). It hides the other side's currency and applies a case-insensitive search. It cuts the list at 100 entries, reports whether the cut dropped anything, and selects a token by currency. Closing the popover resets the search.

Modules follow the source files:

- `Types` covers `types/index.ts` and `Constants` covers `lib/constants.ts`.
- `Api` covers `lib/api.ts` and `Tokens` covers `lib/tokens.ts`.
- `Swap` covers `components/SwapForm.tsx` and `Selector` covers `components/TokenSelector.tsx`.
- Three helper modules stand for JavaScript built-ins:
  - `Strings` stands for `toLowerCase` (on ASCII) and `includes`.
  - `CurrencySort` stands for `Array.prototype.sort` with `localeCompare`.
  - `Wrappers` holds `Option` and `Result`.

Modelling choices:

- Prices and amounts are `real`, and dates are integers (epoch milliseconds).
- The `Map` is a Dafny `map` plus the sequence of its keys in insertion order, which is the order in which `Map.entries()` yields them.
- The collation order of `localeCompare` is a parameter `le`. The sortedness results assume only that `le` is a total order.
- `parseFloat` and `toFixed(6)` are the function-typed fields `parse` (with `None` for NaN) and `fmt6` of the form class. They are fixed when the form is constructed.
- The swap mutation is recorded in the ghost field `submitted`, the sequence of requests handed to it.
- The selector's props (token list, excluded token) are parameters of the methods that read them. The token given to the `onSelect` callback is the result of `HandleSelect`.

Invariant kept by the form: after every handler, `toAmount` equals `RecalculateToAmount(fromAmount, fromToken, toToken)` (`Swap.SwapForm.Valid`). This holds because the flip handler recomputes the derived amount from the old `toAmount` with the reversed pair, which are exactly the new `fromAmount` and tokens.

Behaviours of the code worth noting, all kept by the model:

- On equal dates the first record seen is kept, because the replacement test at `lib/api.ts:23` is a strict `>`.
- Deduplication runs before the `price > 0` filter (`lib/api.ts:23-30`). A currency whose latest record has a non-positive price therefore disappears, even when an older record of it had a positive price.
- The price guard at `lib/tokens.ts:17` only catches a zero price. A negative price goes through the division.
- The form state has no `idle/pending/success/error` status field. Pending is the mutation library's flag, which only disables the submit button (`components/SwapForm.tsx:273`).

## Model

| member | source | states |
|---|---|---|
| Api.Record | src/problem2/lib/api.ts:19-25 | one loop step: a new currency or a strictly later record replaces the stored entry; on an equal or earlier date the map is kept unchanged; other entries and the key order are kept |
| Api.LatestPrices | src/problem2/lib/api.ts:17-26 | the map built by the loop has as keys exactly the currencies of the feed, and its key order lists each key once |
| Api.LatestPricesKeepLatest | src/problem2/lib/api.ts:19-25 | each currency keeps a record of that currency with the latest date among its records; every earlier record of it is strictly older, so on a tie the first seen wins |
| Api.LatestRecordUnique | src/problem2/lib/api.ts:23 | a currency has exactly one such latest record |
| Api.PositiveTokens | src/problem2/lib/api.ts:29-35 | a token is produced exactly for each map entry with positive price, carrying that price and the icon URL; distinct keys give distinct currencies |
| Api.FetchTokenPrices | src/problem2/lib/api.ts:16-36 | the loop over the records followed by the filter/map/sort pipeline yields the normalised list: unique currencies, positive prices, icon URLs, sorted when the order is total |
| Api.NormalizeMembers | src/problem2/lib/api.ts:29-35 | a token is in the output iff its currency has an entry, its price is that entry's price and positive, and its icon is the conventional URL |
| Api.Normalize | src/problem2/lib/api.ts:17-36 | the normalised list holds at most one token per currency; every token has a positive price, the conventional icon URL and a currency of the feed |
| Api.NormalizeSorted | src/problem2/lib/api.ts:36 | under a total order standing for `localeCompare`, the output is sorted ascending by currency |
| Api.NormalizeTokens | src/problem2/lib/api.ts:23-34 | every output token has price > 0, icon `TOKEN_ICONS_BASE + "/" + currency + ".svg"`, and the price of the latest record of its currency |
| Api.NormalizeCurrencies | src/problem2/lib/api.ts:23-30 | a currency is in the output iff its latest (first-seen on ties) record has a positive price |
| Api.ZeroLatestDropsCurrency | src/problem2/lib/api.ts:23-30 | a currency whose latest (first-seen on ties) record has a non-positive price does not appear, whatever its older records held |
| Api.ExecuteSwap | src/problem2/lib/api.ts:66-85 | fails with "Transaction failed. Please try again." exactly when the random draw fails; otherwise succeeds with `success = true`, echoing the request's amounts and both currencies |
| CurrencySort.SortByCurrency | src/problem2/lib/api.ts:36 | the sorted list is a permutation of its input |
| CurrencySort.SortSorted | src/problem2/lib/api.ts:36 | the sort yields a list sorted by currency that is a permutation of its input |
| CurrencySort.SortDistinct | src/problem2/lib/api.ts:36 | sorting keeps currencies unique |
| Tokens.CalculateExchangeAmount | src/problem2/lib/tokens.ts:11-22 | 0 for an amount <= MIN_AMOUNT or a zero price; otherwise `r * toPrice == amount * fromPrice`; positive for a positive amount and positive prices |
| Tokens.NegativePriceNotGuarded | src/problem2/lib/tokens.ts:16-21 | a negative source price passes the guards and gives a negative amount, not 0 |
| Tokens.ExchangeRoundTrip | src/problem2/lib/tokens.ts:20-21 | converting a positive amount there and back between positively priced tokens returns it exactly |
| Swap.RecalculateToAmount | src/problem2/components/SwapForm.tsx:58-66 | "" unless the amount is non-empty, both tokens are selected and the amount parses to a number > 0; otherwise the formatting of a value `v` with `v * toPrice == amount * fromPrice` (0 for a zero price) |
| Swap.RecalculateUsesCalculator | src/problem2/components/SwapForm.tsx:62 | in the non-empty case the derived amount is `fmt6` of the exchange calculator's result |
| Swap.Validate | src/problem2/components/SwapForm.tsx:98-112 | each missing token gives "Please select a token"; an empty amount gives "Please enter an amount"; an unparsable or non-positive one gives "Please enter a valid amount"; no error iff ready to submit |
| Swap.SwapForm.constructor | src/problem2/components/SwapForm.tsx:29-33 | the form starts with no tokens, empty amounts and no errors |
| Swap.SwapForm.HandleFromAmountChange | src/problem2/components/SwapForm.tsx:69-73 | sets the amount, clears only the amount error and recomputes the derived amount with the current tokens |
| Swap.SwapForm.HandleFromTokenChange | src/problem2/components/SwapForm.tsx:75-79 | sets the source token, clears only its error and recomputes the derived amount with the current amount |
| Swap.SwapForm.HandleToTokenChange | src/problem2/components/SwapForm.tsx:81-85 | sets the destination token, clears only its error and recomputes the derived amount with the current amount |
| Swap.SwapForm.HandleSwapTokens | src/problem2/components/SwapForm.tsx:87-93 | exchanges the tokens, moves the old derived amount into the amount, recomputes from the old values with the reversed pair, clears all errors |
| Swap.SwapForm.HandleSubmit | src/problem2/components/SwapForm.tsx:95-120 | with any error, the errors become exactly the collected ones and nothing is submitted; otherwise exactly one request with the current tokens and amounts is submitted; tokens and amounts are never changed |
| Swap.SwapForm.OnSuccess | src/problem2/components/SwapForm.tsx:38-43 | resets both tokens, both amounts and the errors |
| Swap.SwapForm.OnError | src/problem2/components/SwapForm.tsx:49-54 | leaves the form state unchanged |
| Swap.SwapForm.ExchangeRate | src/problem2/components/SwapForm.tsx:123-125 | present iff both tokens are selected (and the divisor is non-zero); rate times destination price is the source price |
| Swap.ExchangeRateAgreesWithCalculator | src/problem2/components/SwapForm.tsx:123-125 | a positive amount converts to that amount times the displayed rate |
| Swap.FlipTwiceRestoresAmount | src/problem2/components/SwapForm.tsx:87-93 | if formatting round-trips the two amounts involved, two flips bring the amount back up to parsing and the derived amount back exactly |
| Strings.Contains | src/problem2/components/TokenSelector.tsx:64 | `includes`: true iff the term occurs at some position |
| Strings.Lower | src/problem2/components/TokenSelector.tsx:62-64 | `toLowerCase` on ASCII: same length, no upper-case letter left |
| Strings.ContainsEmpty | src/problem2/components/TokenSelector.tsx:64 | every string contains the empty term |
| Selector.EmptySearchKeepsAll | src/problem2/components/TokenSelector.tsx:61-66 | the search filter with an empty term keeps every token, so skipping it for an empty search changes nothing |
| Selector.ExcludeFilter | src/problem2/components/TokenSelector.tsx:53-58 | keeps exactly the tokens whose currency is not the excluded one |
| Selector.SearchFilter | src/problem2/components/TokenSelector.tsx:61-66 | keeps exactly the tokens whose lower-cased currency contains the lower-cased term |
| Selector.Filtered | src/problem2/components/TokenSelector.tsx:53-66 | after both filters, a token is kept iff it is in the list, not of the excluded currency and, for a non-empty search, matches it |
| Selector.AvailableTokens | src/problem2/components/TokenSelector.tsx:26-69 | at most `MAX_VISIBLE_ITEMS = 100` tokens are offered |
| Selector.AvailableIsPrefix | src/problem2/components/TokenSelector.tsx:69 | the offered tokens are the first min(100, n) of the n filtered ones |
| Selector.AvailableTokensFiltered | src/problem2/components/TokenSelector.tsx:52-70 | every offered token is in the list, is not of the excluded currency, and matches a non-empty search; when nothing is cut, every such token is offered |
| Selector.AvailableIsSubsequence | src/problem2/components/TokenSelector.tsx:52-70 | the offered tokens are an order-preserving subsequence of the token list |
| Selector.TotalFiltered | src/problem2/components/TokenSelector.tsx:74-80 | the combined filter keeps exactly the listed tokens that pass the exclusion and search tests, and is no longer than the list |
| Selector.HasMoreItems | src/problem2/components/TokenSelector.tsx:73-82 | more items exist iff more than 100 tokens pass the two filters of `availableTokens` |
| Selector.TotalFilteredIsFiltered | src/problem2/components/TokenSelector.tsx:73-80 | the combined filter inside `hasMoreItems` gives the same list as the two filters of `availableTokens` |
| Selector.HasMoreItemsIffTruncated | src/problem2/components/TokenSelector.tsx:73-82 | `hasMoreItems` iff more than 100 tokens pass the filters, iff the cut dropped one |
| Selector.FindByCurrency | src/problem2/components/TokenSelector.tsx:85 | finds a token iff one has the currency; it is the first such token |
| Selector.TokenSelector.constructor | src/problem2/components/TokenSelector.tsx:47-48 | the popover starts closed with an empty search |
| Selector.TokenSelector.HandleSelect | src/problem2/components/TokenSelector.tsx:84-90 | an offered currency selects its first offered token, which is never of the excluded currency, and closes the popover; otherwise nothing changes; the search is kept |
| Selector.TokenSelector.OnOpenChange | src/problem2/components/TokenSelector.tsx:97-100 | sets the open flag; closing resets the search to "" |
| Selector.TokenSelector.SetSearch | src/problem2/components/TokenSelector.tsx:130 | sets the search term |

## Left out

- The HTTP request to the price feed, the `response.ok` check and JSON parsing (`lib/api.ts` lines 8-14) are I/O. The model takes the parsed record list as its input.
- Parsing ISO date strings with `new Date(...)` is not modelled. Dates are given as integers, and an invalid date (NaN, which never compares later) is not represented.
- `executeSwap`'s delay, its `Math.random()` failure draw, `Date.now()`, the random id suffix and `toISOString()` are time and randomness. They are parameters of `Api.ExecuteSwap`.
- React Query's caching, stale time, refetch on focus, retry-once policy and `isPending` flag (which disables the submit button) are library runtime behaviour.
- The request is recorded as submitted, and `OnSuccess`/`OnError` are separate methods. Which of the two runs, and with how many retries, is not modelled.
- The exact behaviour of `toFixed` and `parseFloat` is left out, including `parseFloat("2abc") == 2`. Both are abstract functions of the form. The same goes for `formatAmount`, `formatUSD`, the USD equivalents and the rendering of the exchange rate as a string: they are IEEE float-to-decimal rendering.
- `localeCompare` collation is left out; the sort takes an abstract order. `toLowerCase` is modelled on ASCII letters only, with no Unicode case mapping.
- Toast notices, JSX markup, icons, the icon fallback, theming, the page and the configuration files are presentational or configuration code.
- IEEE number semantics are left out: amounts and prices are exact reals, so there is no rounding, Infinity or NaN. This includes the NaN case of `!fromAmount` in `calculateExchangeAmount`.
- Swap.SwapForm.ExchangeRate: a zero destination price, where JavaScript would produce Infinity or NaN, gives `None`. Tokens produced by the normaliser always have positive prices.
- Swap.RecalculateToAmount: its contract characterises the formatted value through the calculator's defining equation. The exact equation with the calculator is stated separately in `Swap.RecalculateUsesCalculator`.
- CurrencySort.SortSorted: insertion sort stands for the engine's sort. For unique currencies and a total order every correct sort gives the same list. With a comparator that is not a total order, the engine's result is unspecified and the model's may differ.
