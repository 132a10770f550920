/** The mobile search screen (`mobile/src/screens/SearchScreen.tsx`): the
    filter pipeline over the client's transactions, the query box with its
    list of recent searches, and the filter reset. The start of the date
    window is computed with calendar arithmetic and is an input
    (`cutoff`); so is `parseFloat`, as `parse`, which reads an amount
    text as cents or gives `None` for `NaN`. */
module SearchScreen {
  import opened Wrappers
  import Text
  import Seqs
  import opened Store
  import opened TransactionController
  import Search

  datatype AmountRange = AmountRange(min: string, max: string)

  /** The screen's filter state; each choice is a text, `all` for none. */
  datatype ScreenFilter = ScreenFilter(
    kind: string, status: string, currency: string, dateRange: string, amountRange: AmountRange)

  const AllFilters := ScreenFilter("all", "all", "all", "all", AmountRange("", ""))

  /** A non-blank query must occur, lower-cased, in the lower-cased
      recipient or currency or in the amount's text; the status is not
      searched. */
  predicate TextMatch(t: TransactionResponse, searchQuery: string) {
    Text.IsBlank(searchQuery) ||
      var q := Text.Lower(searchQuery);
      || Text.Contains(Text.Lower(t.recipient), q)
      || Text.Contains(Text.Lower(t.currency), q)
      || Text.Contains(Text.CentsText(t.amount), q)
  }

  /** The client's transactions carry no type, so a type choice other than
      `all` compares a missing field and keeps nothing. */
  predicate KindMatch(f: ScreenFilter) {
    f.kind == "all"
  }

  predicate StatusMatch(t: TransactionResponse, f: ScreenFilter) {
    f.status == "all" || StatusName(t.status) == f.status
  }

  predicate CurrencyMatch(t: TransactionResponse, f: ScreenFilter) {
    f.currency == "all" || t.currency == f.currency
  }

  predicate DateMatch(t: TransactionResponse, f: ScreenFilter, cutoff: int) {
    f.dateRange == "all" || t.timestamp >= cutoff
  }

  /** `parseFloat(min) || 0`. */
  function MinBound(min: string, parse: string -> Option<int>): int {
    parse(min).GetOr(0)
  }

  /** `parseFloat(max) || Infinity`: `None` stands for no upper bound. */
  function MaxBound(max: string, parse: string -> Option<int>): (r: Option<int>)
    ensures r.Some? <==> parse(max).Some? && parse(max).value != 0
    ensures r.Some? ==> r == parse(max)
  {
    if parse(max).Some? && parse(max).value != 0 then parse(max) else None
  }

  /** Once either bound is typed, the amount must lie in the inclusive range. */
  predicate AmountMatch(t: TransactionResponse, f: ScreenFilter, parse: string -> Option<int>) {
    var r := f.amountRange;
    (r.min == "" && r.max == "") ||
      (MinBound(r.min, parse) <= t.amount
       && (MaxBound(r.max, parse).None? || t.amount <= MaxBound(r.max, parse).value))
  }

  /** Everything a transaction must satisfy to be listed. */
  predicate Keeps(t: TransactionResponse, searchQuery: string, f: ScreenFilter, cutoff: int,
                  parse: string -> Option<int>) {
    && TextMatch(t, searchQuery) && KindMatch(f) && StatusMatch(t, f) && CurrencyMatch(t, f)
    && DateMatch(t, f, cutoff) && AmountMatch(t, f, parse)
  }

  /** One step of the pipeline: narrows `filtered` by `step` when the step
      applies. `kept` is the test of the steps so far and `next` the test
      with this step added, which is `kept` alone when the step does not
      apply. */
  method Step(ghost transactions: seq<TransactionResponse>, filtered: seq<TransactionResponse>,
              ghost kept: TransactionResponse -> bool, ghost next: TransactionResponse -> bool,
              applies: bool, step: TransactionResponse -> bool)
    returns (narrowed: seq<TransactionResponse>)
    requires filtered == Seqs.Filter(transactions, kept)
    requires applies ==> forall i :: 0 <= i < |transactions| ==>
                           next(transactions[i]) == (kept(transactions[i]) && step(transactions[i]))
    requires !applies ==> forall i :: 0 <= i < |transactions| ==> next(transactions[i]) == kept(transactions[i])
    ensures narrowed == Seqs.Filter(transactions, next)
  {
    if applies {
      narrowed := Seqs.Filter(filtered, step);
      Seqs.FilterFilter(transactions, kept, step, next);
    } else {
      narrowed := filtered;
      Seqs.FilterSame(transactions, kept, next);
    }
  }

  /** `filterTransactions`: a copy of the list narrowed by the text query,
      type, status, currency, date window and amount range, each only when
      set. Together the steps keep exactly what `Keeps` accepts. */
  method FilterTransactions(transactions: seq<TransactionResponse>, searchQuery: string, f: ScreenFilter,
                            cutoff: int, parse: string -> Option<int>)
    returns (filtered: seq<TransactionResponse>)
    ensures filtered == Seqs.Filter(transactions, t => Keeps(t, searchQuery, f, cutoff, parse))
  {
    filtered := transactions;
    ghost var k0: TransactionResponse -> bool := t => true;
    Seqs.FilterKeepsAll(transactions, k0);
    var q := Text.Lower(searchQuery);
    ghost var k1 := (t: TransactionResponse) => TextMatch(t, searchQuery);
    filtered := Step(transactions, filtered, k0, k1, !Text.IsBlank(searchQuery),
      (t: TransactionResponse) => || Text.Contains(Text.Lower(t.recipient), q)
                                  || Text.Contains(Text.Lower(t.currency), q)
                                  || Text.Contains(Text.CentsText(t.amount), q));
    ghost var k2 := (t: TransactionResponse) => TextMatch(t, searchQuery) && KindMatch(f);
    filtered := Step(transactions, filtered, k1, k2, f.kind != "all", (t: TransactionResponse) => KindMatch(f));
    ghost var k3 := (t: TransactionResponse) => k2(t) && StatusMatch(t, f);
    filtered := Step(transactions, filtered, k2, k3, f.status != "all",
      (t: TransactionResponse) => StatusName(t.status) == f.status);
    ghost var k4 := (t: TransactionResponse) => k3(t) && CurrencyMatch(t, f);
    filtered := Step(transactions, filtered, k3, k4, f.currency != "all",
      (t: TransactionResponse) => t.currency == f.currency);
    ghost var k5 := (t: TransactionResponse) => k4(t) && DateMatch(t, f, cutoff);
    filtered := Step(transactions, filtered, k4, k5, f.dateRange != "all",
      (t: TransactionResponse) => t.timestamp >= cutoff);
    var min := MinBound(f.amountRange.min, parse);
    var max := MaxBound(f.amountRange.max, parse);
    filtered := Step(transactions, filtered, k5, t => Keeps(t, searchQuery, f, cutoff, parse),
      f.amountRange.min != "" || f.amountRange.max != "",
      (t: TransactionResponse) => min <= t.amount && (max.None? || t.amount <= max.value));
  }

  /** The listing keeps the order of the transactions it comes from. */
  lemma ListingIsSubsequence(transactions: seq<TransactionResponse>, searchQuery: string, f: ScreenFilter,
                             cutoff: int, parse: string -> Option<int>)
    ensures Seqs.SubsequenceOf(Seqs.Filter(transactions, t => Keeps(t, searchQuery, f, cutoff, parse)),
                               transactions)
  {
    Seqs.FilterIsSubsequence(transactions, t => Keeps(t, searchQuery, f, cutoff, parse));
  }

  /** Unlike the backend search, the screen does not search the status:
      `completed` finds a completed payment of 10 USD to Bob on the
      backend but not on the screen. */
  lemma StatusNotSearched()
    ensures !TextMatch(TransactionResponse(1, "Bob", 1000, "USD", Completed, 0), "completed")
    ensures Search.MatchesQuery(Search.SearchTransaction("1", "Bob", 1000, "USD", 0, "completed", "sent"),
                                "completed")
  {
    CompletedNotBlank();
    TenDollars();
    Text.ContainsItself(Text.Lower("completed"));
  }

  lemma CompletedNotBlank()
    ensures !Text.IsBlank("completed")
  {
    assert !Text.IsSpace("completed"[0]);
  }

  lemma TenDollars()
    ensures Text.CentsText(1000) == "10"
  {
    assert Text.NatText(10) == "10";
  }

  /** Choosing a type other than `all` empties the listing. */
  lemma {:induction false} TypeFilterEmpties(transactions: seq<TransactionResponse>, searchQuery: string,
                                             f: ScreenFilter, cutoff: int, parse: string -> Option<int>)
    requires f.kind != "all"
    ensures Seqs.Filter(transactions, t => Keeps(t, searchQuery, f, cutoff, parse)) == []
  {
    Seqs.FilterNone(transactions, t => Keeps(t, searchQuery, f, cutoff, parse));
  }

  /** With the filters cleared and a blank query, everything is listed. */
  lemma ClearedListsAll(transactions: seq<TransactionResponse>, searchQuery: string, cutoff: int,
                        parse: string -> Option<int>)
    requires Text.IsBlank(searchQuery)
    ensures Seqs.Filter(transactions, t => Keeps(t, searchQuery, AllFilters, cutoff, parse)) == transactions
  {
    Seqs.FilterKeepsAll(transactions, t => Keeps(t, searchQuery, AllFilters, cutoff, parse));
  }

  // ---------------------------------------------------------------------
  // the query box and the recent searches

  const MaxRecentSearches: nat := 5

  const InitialRecentSearches: seq<string> :=
    ["John Doe", "Payment to Alice", "USD 500", "Failed transactions"]

  class SearchState {
    var searchQuery: string
    var recentSearches: seq<string>
    var filters: ScreenFilter
    var filteredTransactions: seq<TransactionResponse>

    /** At most five recent searches, none twice. */
    predicate Valid()
      reads this
    {
      |recentSearches| <= MaxRecentSearches && Seqs.NoDuplicates(recentSearches)
    }

    constructor ()
      ensures Valid()
      ensures searchQuery == [] && recentSearches == InitialRecentSearches && filters == AllFilters
      ensures filteredTransactions == []
    {
      searchQuery := [];
      recentSearches := InitialRecentSearches;
      filters := AllFilters;
      filteredTransactions := [];
    }

    /** `handleSearch`: the query is always set; a non-blank query not yet
        among the recent searches goes first, and the list keeps its first
        four after it. */
    method HandleSearch(query: string)
      requires Valid()
      modifies this
      ensures Valid()
      ensures searchQuery == query && filters == old(filters)
      ensures filteredTransactions == old(filteredTransactions)
      ensures !Text.IsBlank(query) && query !in old(recentSearches) ==>
                recentSearches == [query] + Seqs.Take(old(recentSearches), MaxRecentSearches - 1)
      ensures Text.IsBlank(query) || query in old(recentSearches) ==> recentSearches == old(recentSearches)
      ensures !Text.IsBlank(query) ==> query in recentSearches
    {
      searchQuery := query;
      if !Text.IsBlank(query) && query !in recentSearches {
        var kept := Seqs.Take(recentSearches, MaxRecentSearches - 1);
        forall i, j | 0 <= i < j < |[query] + kept|
          ensures ([query] + kept)[i] != ([query] + kept)[j]
        {
          if i == 0 {
            assert ([query] + kept)[j] == recentSearches[j - 1];
          }
        }
        recentSearches := [query] + kept;
      }
    }

    /** Removing the recent search at `index`; the others keep their order. */
    method RemoveRecentSearch(index: nat)
      requires Valid()
      modifies this
      ensures Valid()
      ensures index < |old(recentSearches)| ==>
                recentSearches == old(recentSearches)[..index] + old(recentSearches)[index + 1..]
      ensures index >= |old(recentSearches)| ==> recentSearches == old(recentSearches)
      ensures searchQuery == old(searchQuery) && filters == old(filters)
      ensures filteredTransactions == old(filteredTransactions)
    {
      if index < |recentSearches| {
        var rest := recentSearches[..index] + recentSearches[index + 1..];
        forall i, j | 0 <= i < j < |rest| ensures rest[i] != rest[j] {
          var i' := if i < index then i else i + 1;
          var j' := if j < index then j else j + 1;
          assert rest[i] == recentSearches[i'] && rest[j] == recentSearches[j'];
        }
        recentSearches := rest;
      }
    }

    /** `clearFilters`: every choice back to `all`, both bounds empty. */
    method ClearFilters()
      requires Valid()
      modifies this
      ensures Valid()
      ensures filters == AllFilters
      ensures searchQuery == old(searchQuery) && recentSearches == old(recentSearches)
      ensures filteredTransactions == old(filteredTransactions)
    {
      filters := AllFilters;
    }

    /** The effect that reruns `filterTransactions` on a change of query,
        filters or transactions. */
    method Refresh(transactions: seq<TransactionResponse>, cutoff: int, parse: string -> Option<int>)
      requires Valid()
      modifies this
      ensures Valid()
      ensures var q, f := searchQuery, filters;
              filteredTransactions == Seqs.Filter(transactions, t => Keeps(t, q, f, cutoff, parse))
      ensures searchQuery == old(searchQuery) && recentSearches == old(recentSearches) && filters == old(filters)
    {
      filteredTransactions := FilterTransactions(transactions, searchQuery, filters, cutoff, parse);
    }
  }
}
