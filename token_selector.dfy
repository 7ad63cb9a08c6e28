/** The token selector: which tokens the dropdown offers, and its open/search state. */
module Selector {
  import opened Wrappers
  import opened Types
  import Strings

  /** At most this many tokens are rendered. */
  const MAX_VISIBLE_ITEMS: nat := 100

  /** The first filter: drop the token the other side has selected. */
  function ExcludeFilter(tokens: seq<Token>, exclude: Option<Token>): (r: seq<Token>)
    ensures forall t :: t in r <==> t in tokens && (exclude.Some? ==> t.currency != exclude.value.currency)
  {
    if tokens == [] then []
    else
      var rest := ExcludeFilter(tokens[1..], exclude);
      assert forall t :: t in tokens <==> t == tokens[0] || t in tokens[1..];
      if exclude.Some? && tokens[0].currency == exclude.value.currency then rest else [tokens[0]] + rest
  }

  /** The second filter: keep the tokens whose lower-cased currency contains the lower-cased search term. */
  function SearchFilter(tokens: seq<Token>, search: string): (r: seq<Token>)
    ensures forall t :: t in r <==> t in tokens && Strings.Contains(Strings.Lower(t.currency), Strings.Lower(search))
  {
    if tokens == [] then []
    else
      var rest := SearchFilter(tokens[1..], search);
      assert forall t :: t in tokens <==> t == tokens[0] || t in tokens[1..];
      if Strings.Contains(Strings.Lower(tokens[0].currency), Strings.Lower(search)) then [tokens[0]] + rest else rest
  }

  /** An empty search term keeps every token, so skipping the search filter
      for an empty term changes nothing. */
  lemma {:induction false} EmptySearchKeepsAll(tokens: seq<Token>)
    ensures SearchFilter(tokens, "") == tokens
  {
    if tokens != [] {
      EmptySearchKeepsAll(tokens[1..]);
      assert Strings.Lower("") == "";
      Strings.ContainsEmpty(Strings.Lower(tokens[0].currency));
    }
  }

  /** The list `availableTokens` is cut from: both filters, the search one only for a non-empty term. */
  function Filtered(tokens: seq<Token>, exclude: Option<Token>, search: string): (r: seq<Token>)
    ensures forall t :: t in r <==> t in tokens && Keep(t, exclude, search)
  {
    var filtered := ExcludeFilter(tokens, exclude);
    if search != "" then SearchFilter(filtered, search) else filtered
  }

  /** `availableTokens`: `filtered.slice(0, MAX_VISIBLE_ITEMS)`. */
  function AvailableTokens(tokens: seq<Token>, exclude: Option<Token>, search: string): (r: seq<Token>)
    ensures |r| <= MAX_VISIBLE_ITEMS
  {
    var filtered := Filtered(tokens, exclude, search);
    if |filtered| <= MAX_VISIBLE_ITEMS then filtered else filtered[..MAX_VISIBLE_ITEMS]
  }

  /** The single combined test `hasMoreItems` applies to each token. */
  predicate Keep(t: Token, exclude: Option<Token>, search: string)
  {
    if exclude.Some? && t.currency == exclude.value.currency then false
    else if search != "" then Strings.Contains(Strings.Lower(t.currency), Strings.Lower(search))
    else true
  }

  /** The filter inside `hasMoreItems`. */
  function TotalFiltered(tokens: seq<Token>, exclude: Option<Token>, search: string): (r: seq<Token>)
    ensures |r| <= |tokens|
    ensures forall t :: t in r <==> t in tokens && Keep(t, exclude, search)
  {
    if tokens == [] then []
    else
      var rest := TotalFiltered(tokens[1..], exclude, search);
      assert forall t :: t in tokens <==> t == tokens[0] || t in tokens[1..];
      if Keep(tokens[0], exclude, search) then [tokens[0]] + rest else rest
  }

  /** `hasMoreItems`. */
  function HasMoreItems(tokens: seq<Token>, exclude: Option<Token>, search: string): (r: bool)
    ensures r <==> |Filtered(tokens, exclude, search)| > MAX_VISIBLE_ITEMS
  {
    TotalFilteredIsFiltered(tokens, exclude, search);
    |TotalFiltered(tokens, exclude, search)| > MAX_VISIBLE_ITEMS
  }

  /** The combined filter of `hasMoreItems` yields exactly the two-step filtered list. */
  lemma {:induction false} TotalFilteredIsFiltered(tokens: seq<Token>, exclude: Option<Token>, search: string)
    ensures TotalFiltered(tokens, exclude, search) == Filtered(tokens, exclude, search)
  {
    if tokens != [] {
      TotalFilteredIsFiltered(tokens[1..], exclude, search);
    }
  }

  /** `hasMoreItems` holds exactly when the fully filtered list is longer than
      the limit, that is, exactly when the cut dropped a token. */
  lemma HasMoreItemsIffTruncated(tokens: seq<Token>, exclude: Option<Token>, search: string)
    ensures HasMoreItems(tokens, exclude, search) <==> |Filtered(tokens, exclude, search)| > MAX_VISIBLE_ITEMS
    ensures HasMoreItems(tokens, exclude, search) <==>
      |AvailableTokens(tokens, exclude, search)| < |Filtered(tokens, exclude, search)|
  {
    TotalFilteredIsFiltered(tokens, exclude, search);
  }

  /** `availableTokens` is the first `min(100, n)` tokens of the filtered list of length `n`. */
  lemma AvailableIsPrefix(tokens: seq<Token>, exclude: Option<Token>, search: string)
    ensures var filtered := Filtered(tokens, exclude, search);
      var n := if |filtered| < MAX_VISIBLE_ITEMS then |filtered| else MAX_VISIBLE_ITEMS;
      AvailableTokens(tokens, exclude, search) == filtered[..n]
  {
  }

  /** Every offered token passes both filters: it is a token of the list, not
      of the excluded currency and, for a non-empty search, it matches the
      search case-insensitively. When nothing is cut, every such token is offered. */
  lemma AvailableTokensFiltered(tokens: seq<Token>, exclude: Option<Token>, search: string, t: Token)
    ensures t in AvailableTokens(tokens, exclude, search) ==>
      && t in tokens
      && (exclude.Some? ==> t.currency != exclude.value.currency)
      && (search != "" ==> Strings.Contains(Strings.Lower(t.currency), Strings.Lower(search)))
    ensures !HasMoreItems(tokens, exclude, search) ==>
      (t in AvailableTokens(tokens, exclude, search) <==> t in tokens && Keep(t, exclude, search))
  {
    var filtered := Filtered(tokens, exclude, search);
    assert t in AvailableTokens(tokens, exclude, search) ==> t in filtered;
    HasMoreItemsIffTruncated(tokens, exclude, search);
  }

  /** `a` is `b` with some elements left out, the rest kept in order. */
  predicate IsSubsequence(a: seq<Token>, b: seq<Token>)
    decreases |b|
  {
    if a == [] then true
    else if b == [] then false
    else if a[0] == b[0] then IsSubsequence(a[1..], b[1..])
    else IsSubsequence(a, b[1..])
  }

  lemma {:induction false} CutFilterIsSubsequence(tokens: seq<Token>, exclude: Option<Token>, search: string, n: nat)
    requires n <= |TotalFiltered(tokens, exclude, search)|
    ensures IsSubsequence(TotalFiltered(tokens, exclude, search)[..n], tokens)
  {
    if tokens != [] && n > 0 {
      var f := TotalFiltered(tokens, exclude, search);
      var rest := TotalFiltered(tokens[1..], exclude, search);
      if Keep(tokens[0], exclude, search) {
        CutFilterIsSubsequence(tokens[1..], exclude, search, n - 1);
        assert f[..n][1..] == rest[..n - 1];
      } else {
        CutFilterIsSubsequence(tokens[1..], exclude, search, n);
        assert f[..n] == rest[..n];
        TotalFilteredKeeps(tokens[1..], exclude, search, 0);
      }
    }
  }

  lemma {:induction false} TotalFilteredKeeps(tokens: seq<Token>, exclude: Option<Token>, search: string, i: nat)
    requires i < |TotalFiltered(tokens, exclude, search)|
    ensures Keep(TotalFiltered(tokens, exclude, search)[i], exclude, search)
  {
    if tokens != [] {
      var rest := TotalFiltered(tokens[1..], exclude, search);
      if Keep(tokens[0], exclude, search) {
        if i > 0 {
          TotalFilteredKeeps(tokens[1..], exclude, search, i - 1);
        }
      } else {
        TotalFilteredKeeps(tokens[1..], exclude, search, i);
      }
    }
  }

  /** `availableTokens` keeps the order of `tokens`. */
  lemma AvailableIsSubsequence(tokens: seq<Token>, exclude: Option<Token>, search: string)
    ensures IsSubsequence(AvailableTokens(tokens, exclude, search), tokens)
  {
    TotalFilteredIsFiltered(tokens, exclude, search);
    var f := Filtered(tokens, exclude, search);
    var n := if |f| < MAX_VISIBLE_ITEMS then |f| else MAX_VISIBLE_ITEMS;
    assert AvailableTokens(tokens, exclude, search) == f[..n];
    CutFilterIsSubsequence(tokens, exclude, search, n);
  }

  /** `availableTokens.find((t) => t.currency === currency)`. */
  function FindByCurrency(s: seq<Token>, currency: string): (r: Option<Token>)
    ensures r.Some? <==> exists i :: 0 <= i < |s| && s[i].currency == currency
    ensures r.Some? ==> r.value.currency == currency
    ensures r.Some? ==> exists i :: (0 <= i < |s| && s[i] == r.value &&
      forall j :: 0 <= j < i ==> s[j].currency != currency)
  {
    if s == [] then None
    else if s[0].currency == currency then Some(s[0])
    else
      var r := FindByCurrency(s[1..], currency);
      assert forall i :: 0 < i < |s| ==> s[i] == s[1..][i - 1];
      r
  }

  /** The popover's state. The token list, the excluded token and the
      `onSelect` callback are the component's props: the first two are
      parameters of the methods that read them, and the callback's argument
      is what `HandleSelect` returns. */
  class TokenSelector {
    var open: bool
    var search: string

    constructor ()
      ensures !open && search == ""
    {
      open := false;
      search := "";
    }

    /** `handleSelect`: a currency among the offered tokens selects the first
        such token and closes the popover; any other currency changes nothing.
        Closing this way does not go through `onOpenChange`, so `search` is kept. */
    method HandleSelect(tokens: seq<Token>, exclude: Option<Token>, currency: string) returns (selected: Option<Token>)
      modifies this`open
      ensures selected == FindByCurrency(AvailableTokens(tokens, exclude, search), currency)
      ensures selected.Some? ==> !open
      ensures selected.None? ==> open == old(open)
      ensures selected.Some? ==> selected.value.currency == currency && selected.value in tokens
      ensures selected.Some? && exclude.Some? ==> currency != exclude.value.currency
    {
      var available := AvailableTokens(tokens, exclude, search);
      selected := FindByCurrency(available, currency);
      if selected.Some? {
        AvailableTokensFiltered(tokens, exclude, search, selected.value);
        open := false;
      }
    }

    /** The popover's `onOpenChange`: closing resets the search. */
    method OnOpenChange(isOpen: bool)
      modifies this
      ensures open == isOpen
      ensures search == if isOpen then old(search) else ""
    {
      open := isOpen;
      if !isOpen {
        search := "";
      }
    }

    /** The search input's `onValueChange`. */
    method SetSearch(value: string)
      modifies this`search
      ensures search == value
    {
      search := value;
    }
  }
}
