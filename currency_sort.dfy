/** Sorting tokens by currency, standing for
    `tokens.sort((a, b) => a.currency.localeCompare(b.currency))`.
    The collation order of `localeCompare` is abstracted as a relation `le`
    about which only that it is a total order is assumed. */
module CurrencySort {
  import opened Types

  /** `le` is a (non-strict) total order on strings. */
  ghost predicate TotalOrder(le: (string, string) -> bool)
  {
    && (forall a :: le(a, a))
    && (forall a, b :: le(a, b) && le(b, a) ==> a == b)
    && (forall a, b, c :: le(a, b) && le(b, c) ==> le(a, c))
    && (forall a, b :: le(a, b) || le(b, a))
  }

  predicate Sorted(s: seq<Token>, le: (string, string) -> bool)
  {
    forall i, j :: 0 <= i < j < |s| ==> le(s[i].currency, s[j].currency)
  }

  predicate DistinctCurrencies(s: seq<Token>)
  {
    forall i, j :: 0 <= i < j < |s| ==> s[i].currency != s[j].currency
  }

  /** Inserts `t` before the first token it is not greater than. */
  function Insert(t: Token, s: seq<Token>, le: (string, string) -> bool): (r: seq<Token>)
    ensures multiset(r) == multiset(s) + multiset{t}
  {
    if s == [] then [t]
    else if le(t.currency, s[0].currency) then [t] + s
    else
      assert s == [s[0]] + s[1..];
      [s[0]] + Insert(t, s[1..], le)
  }

  /** Insertion sort by currency. */
  function SortByCurrency(s: seq<Token>, le: (string, string) -> bool): (r: seq<Token>)
    ensures multiset(r) == multiset(s)
  {
    if s == [] then []
    else
      assert s == [s[0]] + s[1..];
      Insert(s[0], SortByCurrency(s[1..], le), le)
  }

  lemma {:induction false} InsertSorted(t: Token, s: seq<Token>, le: (string, string) -> bool)
    requires TotalOrder(le)
    requires Sorted(s, le)
    ensures Sorted(Insert(t, s, le), le)
  {
    if s != [] && !le(t.currency, s[0].currency) {
      InsertSorted(t, s[1..], le);
      var r := Insert(t, s[1..], le);
      forall k | 0 <= k < |r| ensures le(s[0].currency, r[k].currency) {
        assert r[k] in multiset(r);
        assert r[k] == t || r[k] in multiset(s[1..]);
      }
    }
  }

  /** The result of the sort is in ascending currency order and a permutation of its input. */
  lemma {:induction false} SortSorted(s: seq<Token>, le: (string, string) -> bool)
    requires TotalOrder(le)
    ensures Sorted(SortByCurrency(s, le), le)
    ensures multiset(SortByCurrency(s, le)) == multiset(s)
  {
    if s != [] {
      SortSorted(s[1..], le);
      InsertSorted(s[0], SortByCurrency(s[1..], le), le);
    }
  }

  lemma {:induction false} InsertDistinct(t: Token, s: seq<Token>, le: (string, string) -> bool)
    requires DistinctCurrencies(s)
    requires forall k :: 0 <= k < |s| ==> s[k].currency != t.currency
    ensures DistinctCurrencies(Insert(t, s, le))
  {
    if s != [] && !le(t.currency, s[0].currency) {
      InsertDistinct(t, s[1..], le);
      var r := Insert(t, s[1..], le);
      forall k | 0 <= k < |r| ensures s[0].currency != r[k].currency {
        assert r[k] in multiset(r);
        assert r[k] == t || r[k] in multiset(s[1..]);
      }
    }
  }

  /** Sorting keeps currencies unique. */
  lemma {:induction false} SortDistinct(s: seq<Token>, le: (string, string) -> bool)
    requires DistinctCurrencies(s)
    ensures DistinctCurrencies(SortByCurrency(s, le))
  {
    if s != [] {
      SortDistinct(s[1..], le);
      var r := SortByCurrency(s[1..], le);
      forall k | 0 <= k < |r| ensures r[k].currency != s[0].currency {
        assert r[k] in multiset(r);
        assert r[k] in s[1..];
      }
      InsertDistinct(s[0], r, le);
    }
  }
}
