/** The search controller (`searchController.ts`): a text query and
    filters over a fixed list of demo transactions, a relevance score, a
    sort, a page, and query suggestions. Amounts are cents; timestamps
    are milliseconds. The clock and the date-range cutoff are inputs. */
module Search {
  import opened Wrappers
  import Text
  import Seqs
  import JsNumber

  /** A demo transaction; `kind` is `sent` or `received`. */
  datatype SearchTransaction = SearchTransaction(
    id: string, recipient: string, amount: int, currency: string, timestamp: int, status: string, kind: string)

  /** `mockTransactions`. */
  const MockTransactions: seq<SearchTransaction> := [
    SearchTransaction("1", "John Doe", 25000, "USD", 1706437800000, "completed", "sent"),
    SearchTransaction("2", "Alice Smith", 15075, "EUR", 1706373900000, "failed", "sent"),
    SearchTransaction("3", "Bob Johnson", 50000, "USD", 1706260500000, "completed", "received"),
    SearchTransaction("4", "Carol Wilson", 7525, "GBP", 1706192400000, "pending", "sent"),
    SearchTransaction("5", "David Brown", 100000, "USD", 1706095800000, "completed", "received")
  ]

  /** The optional filters of a search body. */
  datatype SearchFilters = SearchFilters(
    kind: Option<string>, status: Option<string>, currency: Option<string>, dateRange: Option<string>,
    amountMin: Option<int>, amountMax: Option<int>)

  datatype Reject = Reject(status: nat, error: string)

  const Unauthenticated := Reject(401, "User not authenticated")

  const DayMs: int := 24 * 60 * 60 * 1000

  /** A string filter narrows only when it is set, non-empty and not `all`. */
  predicate Applies(v: Option<string>) {
    v.Some? && v.value != "" && v.value != "all"
  }

  /** A blank query keeps everything; otherwise the lower-cased query must
      occur in the lower-cased recipient, currency or status, or in the
      amount's text. */
  predicate MatchesQuery(t: SearchTransaction, query: string) {
    Text.IsBlank(query) ||
      var q := Text.Lower(query);
      || Text.Contains(Text.Lower(t.recipient), q)
      || Text.Contains(Text.Lower(t.currency), q)
      || Text.Contains(Text.CentsText(t.amount), q)
      || Text.Contains(Text.Lower(t.status), q)
  }

  predicate KindOk(t: SearchTransaction, f: SearchFilters) {
    !Applies(f.kind) || t.kind == f.kind.value
  }

  predicate StatusOk(t: SearchTransaction, f: SearchFilters) {
    !Applies(f.status) || t.status == f.status.value
  }

  predicate CurrencyOk(t: SearchTransaction, f: SearchFilters) {
    !Applies(f.currency) || t.currency == f.currency.value
  }

  /** A date range other than `all` keeps transactions from `cutoff` on. */
  predicate DateOk(t: SearchTransaction, f: SearchFilters, cutoff: int) {
    !Applies(f.dateRange) || t.timestamp >= cutoff
  }

  /** An inclusive range once either bound is given; a missing or zero
      minimum is 0 and a missing or zero maximum is no bound. */
  predicate AmountOk(t: SearchTransaction, f: SearchFilters) {
    (f.amountMin.None? && f.amountMax.None?) ||
      (t.amount >= f.amountMin.GetOr(0) && (f.amountMax.GetOr(0) == 0 || t.amount <= f.amountMax.value))
  }

  /** Everything a transaction must satisfy to be a result. */
  predicate Passes(t: SearchTransaction, query: string, f: SearchFilters, cutoff: int) {
    && MatchesQuery(t, query) && KindOk(t, f) && StatusOk(t, f) && CurrencyOk(t, f)
    && DateOk(t, f, cutoff) && AmountOk(t, f)
  }

  /** The `k`-th filter of the pipeline, in the order the controller applies them. */
  predicate StageTest(k: nat, t: SearchTransaction, query: string, f: SearchFilters, cutoff: int) {
    if k == 1 then MatchesQuery(t, query)
    else if k == 2 then KindOk(t, f)
    else if k == 3 then StatusOk(t, f)
    else if k == 4 then CurrencyOk(t, f)
    else if k == 5 then DateOk(t, f, cutoff)
    else if k == 6 then AmountOk(t, f)
    else true
  }

  /** The first `k` filters together. */
  predicate Stage(k: nat, t: SearchTransaction, query: string, f: SearchFilters, cutoff: int) {
    k == 0 || (Stage(k - 1, t, query, f, cutoff) && StageTest(k, t, query, f, cutoff))
  }

  /** The six steps together are the whole test. */
  lemma AllStagesPass(t: SearchTransaction, query: string, f: SearchFilters, cutoff: int)
    ensures Stage(6, t, query, f, cutoff) == Passes(t, query, f, cutoff)
  {
    assert Stage(1, t, query, f, cutoff) == MatchesQuery(t, query);
    assert Stage(2, t, query, f, cutoff) == (Stage(1, t, query, f, cutoff) && KindOk(t, f));
    assert Stage(3, t, query, f, cutoff) == (Stage(2, t, query, f, cutoff) && StatusOk(t, f));
    assert Stage(4, t, query, f, cutoff) == (Stage(3, t, query, f, cutoff) && CurrencyOk(t, f));
    assert Stage(5, t, query, f, cutoff) == (Stage(4, t, query, f, cutoff) && DateOk(t, f, cutoff));
  }

  /** Applying the next filter of the pipeline to what the earlier ones
      kept gives what all of them keep together. */
  lemma Narrow(s: seq<SearchTransaction>, k: nat, step: SearchTransaction -> bool,
               query: string, f: SearchFilters, cutoff: int)
    requires forall i :: 0 <= i < |s| ==> step(s[i]) == StageTest(k + 1, s[i], query, f, cutoff)
    ensures Seqs.Filter(Seqs.Filter(s, t => Stage(k, t, query, f, cutoff)), step)
            == Seqs.Filter(s, t => Stage(k + 1, t, query, f, cutoff))
  {
    Seqs.FilterFilter(s, t => Stage(k, t, query, f, cutoff), step, t => Stage(k + 1, t, query, f, cutoff));
  }

  /** A filter that does not apply keeps what the earlier ones kept. */
  lemma Skip(s: seq<SearchTransaction>, k: nat, query: string, f: SearchFilters, cutoff: int)
    requires forall i :: 0 <= i < |s| ==> StageTest(k + 1, s[i], query, f, cutoff)
    ensures Seqs.Filter(s, t => Stage(k, t, query, f, cutoff)) == Seqs.Filter(s, t => Stage(k + 1, t, query, f, cutoff))
  {
    Seqs.FilterSame(s, t => Stage(k, t, query, f, cutoff), t => Stage(k + 1, t, query, f, cutoff));
  }

  /** `calculateRelevanceScore`, in tenths: 10 for a blank query;
      otherwise 100 for an exact recipient or 50 for a recipient containing
      the query, plus 80 for the currency, 60 for the status, 40 for the
      amount text, plus 20 under 7 days old or 10 under 30, and at least 1. */
  function Relevance(t: SearchTransaction, query: string, now: int): (score: nat)
    ensures Text.IsBlank(query) ==> score == 10
    ensures 1 <= score <= 300
    ensures !Text.IsBlank(query) && Text.Lower(t.recipient) == Text.Lower(query) ==> score >= 100
  {
    if Text.IsBlank(query) then 10
    else
      var q := Text.Lower(query);
      var recipient: nat := if Text.Lower(t.recipient) == q then 100
                            else if Text.Contains(Text.Lower(t.recipient), q) then 50 else 0;
      var currency := if Text.Lower(t.currency) == q then 80 else 0;
      var status := if Text.Lower(t.status) == q then 60 else 0;
      var amount := if Text.Contains(Text.CentsText(t.amount), q) then 40 else 0;
      var age := now - t.timestamp;
      var recency := if age < 7 * DayMs then 20 else if age < 30 * DayMs then 10 else 0;
      var score := recipient + currency + status + amount + recency;
      if score > 1 then score else 1
  }

  /** The score is monotone in how the recipient matches: with everything
      else equal, an exact recipient scores above a recipient that does not
      contain the query. */
  lemma ExactRecipientOutranks(t: SearchTransaction, u: SearchTransaction, query: string, now: int)
    requires !Text.IsBlank(query)
    requires Text.Lower(t.recipient) == Text.Lower(query)
    requires !Text.Contains(Text.Lower(u.recipient), Text.Lower(query))
    requires u.(recipient := t.recipient) == t
    ensures Relevance(t, query, now) > Relevance(u, query, now)
  {
  }

  datatype SearchResult = SearchResult(
    id: string, resultType: string, title: string, metadata: SearchTransaction, relevance: nat)

  /** "Payment to <recipient>" for a sent transaction, "Payment from
      <recipient>" for anything else. */
  function Title(t: SearchTransaction): (s: string)
    ensures t.kind == "sent" ==> s == "Payment to " + t.recipient
    ensures t.kind != "sent" ==> s == "Payment from " + t.recipient
  {
    (if t.kind == "sent" then "Payment to" else "Payment from") + " " + t.recipient
  }

  function ToResult(t: SearchTransaction, query: string, now: int): SearchResult {
    SearchResult(t.id, "transaction", Title(t), t, Relevance(t, query, now))
  }

  /** One result per transaction, in order. */
  function Results(ts: seq<SearchTransaction>, query: string, now: int): (rs: seq<SearchResult>)
    ensures |rs| == |ts|
    ensures forall i :: 0 <= i < |ts| ==> rs[i] == ToResult(ts[i], query, now)
  {
    seq(|ts|, i requires 0 <= i < |ts| => ToResult(ts[i], query, now))
  }

  function RelevanceKey(r: SearchResult): int { r.relevance }
  function DateKey(r: SearchResult): int { r.metadata.timestamp }
  function DateKeyAscending(r: SearchResult): int { -r.metadata.timestamp }
  function AmountKey(r: SearchResult): int { r.metadata.amount }
  function AmountKeyAscending(r: SearchResult): int { -r.metadata.amount }

  /** The order of the results: by relevance, highest first; by date or
      amount, descending only for `sortOrder` `desc`; unchanged for any
      other `sortBy`. The sort is stable and reorders only. */
  function Ordered(rs: seq<SearchResult>, sortBy: string, sortOrder: string): (o: seq<SearchResult>)
    ensures multiset(o) == multiset(rs) && |o| == |rs|
    ensures sortBy == "relevance" ==> Seqs.SortedDesc(o, RelevanceKey)
    ensures sortBy == "date" && sortOrder == "desc" ==> Seqs.SortedDesc(o, DateKey)
    ensures sortBy == "date" && sortOrder != "desc" ==>
              forall i, j :: 0 <= i < j < |o| ==> o[i].metadata.timestamp <= o[j].metadata.timestamp
    ensures sortBy == "amount" && sortOrder == "desc" ==> Seqs.SortedDesc(o, AmountKey)
    ensures sortBy == "amount" && sortOrder != "desc" ==>
              forall i, j :: 0 <= i < j < |o| ==> o[i].metadata.amount <= o[j].metadata.amount
    ensures sortBy !in {"relevance", "date", "amount"} ==> o == rs
  {
    if sortBy == "relevance" then Seqs.SortDesc(rs, RelevanceKey)
    else if sortBy == "date" then
      if sortOrder == "desc" then Seqs.SortDesc(rs, DateKey)
      else
        var o := Seqs.SortDesc(rs, DateKeyAscending);
        assert forall i, j :: 0 <= i < j < |o| ==> DateKeyAscending(o[i]) >= DateKeyAscending(o[j]);
        o
    else if sortBy == "amount" then
      if sortOrder == "desc" then Seqs.SortDesc(rs, AmountKey)
      else
        var o := Seqs.SortDesc(rs, AmountKeyAscending);
        assert forall i, j :: 0 <= i < j < |o| ==> AmountKeyAscending(o[i]) >= AmountKeyAscending(o[j]);
        o
    else rs
  }

  /** The ordering is stable: results with the same relevance, date or
      amount (whichever is sorted on) keep the order the store gave them.
      The ascending orders sort by the negated date or amount, so there
      the results with the same negated key keep their order. */
  lemma OrderedStable(rs: seq<SearchResult>, sortBy: string, sortOrder: string, k: int)
    ensures var o := Ordered(rs, sortBy, sortOrder);
            sortBy == "relevance" ==>
              Seqs.Filter(o, Seqs.WithKey(RelevanceKey, k)) == Seqs.Filter(rs, Seqs.WithKey(RelevanceKey, k))
    ensures var o := Ordered(rs, sortBy, sortOrder);
            sortBy == "date" && sortOrder == "desc" ==>
              Seqs.Filter(o, Seqs.WithKey(DateKey, k)) == Seqs.Filter(rs, Seqs.WithKey(DateKey, k))
    ensures var o := Ordered(rs, sortBy, sortOrder);
            sortBy == "date" && sortOrder != "desc" ==>
              Seqs.Filter(o, Seqs.WithKey(DateKeyAscending, k)) == Seqs.Filter(rs, Seqs.WithKey(DateKeyAscending, k))
    ensures var o := Ordered(rs, sortBy, sortOrder);
            sortBy == "amount" && sortOrder == "desc" ==>
              Seqs.Filter(o, Seqs.WithKey(AmountKey, k)) == Seqs.Filter(rs, Seqs.WithKey(AmountKey, k))
    ensures var o := Ordered(rs, sortBy, sortOrder);
            sortBy == "amount" && sortOrder != "desc" ==>
              Seqs.Filter(o, Seqs.WithKey(AmountKeyAscending, k)) == Seqs.Filter(rs, Seqs.WithKey(AmountKeyAscending, k))
  {
    if sortBy == "relevance" {
      Seqs.SortDescStable(rs, RelevanceKey, k);
    } else if sortBy == "date" && sortOrder == "desc" {
      Seqs.SortDescStable(rs, DateKey, k);
    } else if sortBy == "date" {
      Seqs.SortDescStable(rs, DateKeyAscending, k);
    } else if sortBy == "amount" && sortOrder == "desc" {
      Seqs.SortDescStable(rs, AmountKey, k);
    } else if sortBy == "amount" {
      Seqs.SortDescStable(rs, AmountKeyAscending, k);
    }
  }

  /** One page of results; `limit` and `offset` are the parsed numbers,
      `NaN` written `null`. */
  datatype SearchPage = SearchPage(
    data: seq<SearchResult>, total: nat, limit: JsNumber.JsInt, offset: JsNumber.JsInt, hasMore: bool,
    query: string)

  /** The `limit` and `offset` a request body without them stands for. */
  const DefaultLimit: string := "20"
  const DefaultOffset: string := "0"

  /** One filter step of `search`: when the step applies, narrows what
      the earlier steps kept by `step`; otherwise keeps it as it is. */
  method NarrowIf(transactions: seq<SearchTransaction>, filtered: seq<SearchTransaction>, k: nat, applies: bool,
                  step: SearchTransaction -> bool, query: string, filters: SearchFilters, cutoff: int)
    returns (narrowed: seq<SearchTransaction>)
    requires filtered == Seqs.Filter(transactions, t => Stage(k, t, query, filters, cutoff))
    requires applies ==> forall i :: 0 <= i < |transactions| ==>
                           step(transactions[i]) == StageTest(k + 1, transactions[i], query, filters, cutoff)
    requires !applies ==> forall i :: 0 <= i < |transactions| ==> StageTest(k + 1, transactions[i], query, filters, cutoff)
    ensures narrowed == Seqs.Filter(transactions, t => Stage(k + 1, t, query, filters, cutoff))
  {
    if applies {
      narrowed := Seqs.Filter(filtered, step);
      Narrow(transactions, k, step, query, filters, cutoff);
    } else {
      narrowed := filtered;
      Skip(transactions, k, query, filters, cutoff);
    }
  }

  /** The filter steps of `search`, each applied only when its filter is
      set: the text query, type, status, currency, date range, amount
      range. Together they keep exactly the transactions that pass. */
  method FilterTransactions(transactions: seq<SearchTransaction>, query: string, filters: SearchFilters, cutoff: int)
    returns (filtered: seq<SearchTransaction>)
    ensures filtered == Seqs.Filter(transactions, t => Passes(t, query, filters, cutoff))
  {
    filtered := transactions;
    Seqs.FilterKeepsAll(transactions, t => Stage(0, t, query, filters, cutoff));
    var q := Text.Lower(query);
    filtered := NarrowIf(transactions, filtered, 0, !Text.IsBlank(query),
      (t: SearchTransaction) => || Text.Contains(Text.Lower(t.recipient), q)
           || Text.Contains(Text.Lower(t.currency), q)
           || Text.Contains(Text.CentsText(t.amount), q)
           || Text.Contains(Text.Lower(t.status), q),
      query, filters, cutoff);
    filtered := NarrowByFilters(transactions, filtered, query, filters, cutoff);
    forall i | 0 <= i < |transactions|
      ensures Stage(6, transactions[i], query, filters, cutoff) == Passes(transactions[i], query, filters, cutoff)
    {
      AllStagesPass(transactions[i], query, filters, cutoff);
    }
    Seqs.FilterSame(transactions, t => Stage(6, t, query, filters, cutoff), t => Passes(t, query, filters, cutoff));
  }

  /** The steps after the text query: type, status, currency, date range,
      amount range, each applied only when its filter is set. */
  method NarrowByFilters(transactions: seq<SearchTransaction>, filtered: seq<SearchTransaction>, query: string,
                         filters: SearchFilters, cutoff: int)
    returns (narrowed: seq<SearchTransaction>)
    requires filtered == Seqs.Filter(transactions, t => Stage(1, t, query, filters, cutoff))
    ensures narrowed == Seqs.Filter(transactions, t => Stage(6, t, query, filters, cutoff))
  {
    narrowed := NarrowIf(transactions, filtered, 1, Applies(filters.kind),
      (t: SearchTransaction) => t.kind == filters.kind.GetOr(""), query, filters, cutoff);
    narrowed := NarrowIf(transactions, narrowed, 2, Applies(filters.status),
      (t: SearchTransaction) => t.status == filters.status.GetOr(""), query, filters, cutoff);
    narrowed := NarrowIf(transactions, narrowed, 3, Applies(filters.currency),
      (t: SearchTransaction) => t.currency == filters.currency.GetOr(""), query, filters, cutoff);
    narrowed := NarrowIf(transactions, narrowed, 4, Applies(filters.dateRange),
      (t: SearchTransaction) => t.timestamp >= cutoff, query, filters, cutoff);
    var min := filters.amountMin.GetOr(0);
    var max := if filters.amountMax.GetOr(0) == 0 then None else filters.amountMax;
    narrowed := NarrowIf(transactions, narrowed, 5, filters.amountMin.Some? || filters.amountMax.Some?,
      (t: SearchTransaction) => t.amount >= min && (max.None? || t.amount <= max.value), query, filters, cutoff);
  }

  /** Without `limit` and `offset` a search answers the first 20. */
  lemma DefaultPage(results: seq<SearchResult>)
    ensures var page := JsNumber.Paginate(results, JsNumber.ParseInt(DefaultOffset), JsNumber.ParseInt(DefaultLimit));
            page.data == Seqs.Take(results, 20) && (page.hasMore <==> 20 < |results|)
  {
    assert DefaultLimit == Text.NatText(20);
    JsNumber.DefaultOffsetPage(results, 20);
  }

  /** `search` over `transactions`: narrows a copy filter by filter, maps
      each survivor to a result, sorts, and pages. The outcome is the
      ordered results of exactly the transactions that pass every filter,
      paged by `offset` and `limit` as `parseInt` reads the body values
      (20 and 0 when absent); a `NaN` one gives an empty page. */
  method Search(transactions: seq<SearchTransaction>, user: Option<nat>, query: string, filters: SearchFilters,
                limit: Option<string>, offset: Option<string>, sortBy: string, sortOrder: string, now: int, cutoff: int)
    returns (r: Result<SearchPage, Reject>)
    ensures user.None? <==> r == Err(Unauthenticated)
    ensures r.Ok? ==>
              var ordered := Ordered(Results(Seqs.Filter(transactions, t => Passes(t, query, filters, cutoff)), query, now),
                                     sortBy, sortOrder);
              var l := JsNumber.ParseInt(limit.GetOr(DefaultLimit));
              var o := JsNumber.ParseInt(offset.GetOr(DefaultOffset));
              var page := JsNumber.Paginate(ordered, o, l);
              && r.value.total == |ordered|
              && r.value.data == page.data && r.value.hasMore == page.hasMore
              && r.value.limit == l && r.value.offset == o && r.value.query == query
    ensures r.Ok? && limit.None? && offset.None? ==>
              var ordered := Ordered(Results(Seqs.Filter(transactions, t => Passes(t, query, filters, cutoff)), query, now),
                                     sortBy, sortOrder);
              r.value.data == Seqs.Take(ordered, 20) && (r.value.hasMore <==> 20 < |ordered|)
  {
    if user.None? {
      return Err(Unauthenticated);
    }
    var filtered := FilterTransactions(transactions, query, filters, cutoff);
    var results := seq(|filtered|, i requires 0 <= i < |filtered| => ToResult(filtered[i], query, now));
    if sortBy == "relevance" {
      results := Seqs.SortDesc(results, RelevanceKey);
    } else if sortBy == "date" {
      results := Seqs.SortDesc(results, if sortOrder == "desc" then DateKey else DateKeyAscending);
    } else if sortBy == "amount" {
      results := Seqs.SortDesc(results, if sortOrder == "desc" then AmountKey else AmountKeyAscending);
    }
    var limitNum := JsNumber.ParseInt(limit.GetOr(DefaultLimit));
    var startIndex := JsNumber.ParseInt(offset.GetOr(DefaultOffset));
    var page := JsNumber.Paginate(results, startIndex, limitNum);
    if limit.None? && offset.None? {
      DefaultPage(results);
    }
    r := Ok(SearchPage(page.data, page.total, limitNum, startIndex, page.hasMore, query));
  }

  /** Every result is a transaction of the input that passes every filter,
      and every such transaction has a result. */
  lemma ResultsAreTheMatches(transactions: seq<SearchTransaction>, query: string, f: SearchFilters,
                             cutoff: int, now: int, sortBy: string, sortOrder: string)
    ensures var kept := Seqs.Filter(transactions, t => Passes(t, query, f, cutoff));
            var ordered := Ordered(Results(kept, query, now), sortBy, sortOrder);
            && (forall i :: 0 <= i < |ordered| ==>
                  ordered[i].metadata in transactions && Passes(ordered[i].metadata, query, f, cutoff)
                  && ordered[i] == ToResult(ordered[i].metadata, query, now))
            && (forall i :: 0 <= i < |transactions| && Passes(transactions[i], query, f, cutoff) ==>
                  ToResult(transactions[i], query, now) in ordered)
  {
    var p := t => Passes(t, query, f, cutoff);
    var kept := Seqs.Filter(transactions, p);
    Seqs.FilterMembers(transactions, p);
    var rs := Results(kept, query, now);
    var ordered := Ordered(rs, sortBy, sortOrder);
    forall i | 0 <= i < |ordered|
      ensures ordered[i].metadata in transactions && Passes(ordered[i].metadata, query, f, cutoff)
      ensures ordered[i] == ToResult(ordered[i].metadata, query, now)
    {
      assert ordered[i] in multiset(rs);
      var j :| 0 <= j < |rs| && rs[j] == ordered[i];
      assert kept[j] in transactions && p(kept[j]);
    }
    forall i | 0 <= i < |transactions| && Passes(transactions[i], query, f, cutoff)
      ensures ToResult(transactions[i], query, now) in ordered
    {
      assert p(transactions[i]);
      var j :| 0 <= j < |kept| && kept[j] == transactions[i];
      assert rs[j] in multiset(ordered);
    }
  }

  /** With a blank query and no filter set, every transaction is a result. */
  lemma BlankSearchKeepsAll(transactions: seq<SearchTransaction>, query: string, cutoff: int)
    requires Text.IsBlank(query)
    ensures var none := SearchFilters(None, None, None, None, None, None);
            Seqs.Filter(transactions, t => Passes(t, query, none, cutoff)) == transactions
  {
    var none := SearchFilters(None, None, None, None, None, None);
    Seqs.FilterKeepsAll(transactions, t => Passes(t, query, none, cutoff));
  }

  // ---------------------------------------------------------------------
  // suggestions

  const Currencies: seq<string> := ["USD", "EUR", "GBP", "KES", "NGN"]
  const Statuses: seq<string> := ["completed", "pending", "failed"]
  const PopularSearches: seq<string> :=
    ["Recent payments", "Failed transactions", "USD payments", "This month", "Large amounts"]
  const MaxSuggestions: nat := 8
  const MaxRecipientSuggestions: nat := 3

  function Recipients(ts: seq<SearchTransaction>): seq<string> {
    seq(|ts|, i requires 0 <= i < |ts| => ts[i].recipient)
  }

  predicate Suggests(q: string, s: string) {
    Text.Contains(Text.Lower(s), q)
  }

  /** The entries of `xs` whose lower-cased text contains `q`, in order. */
  function Matching(xs: seq<string>, q: string): (r: seq<string>)
    ensures forall i :: 0 <= i < |r| ==> Suggests(q, r[i]) && r[i] in xs
    ensures forall i :: 0 <= i < |xs| && Suggests(q, xs[i]) ==> xs[i] in r
  {
    Seqs.FilterMembers(xs, s => Suggests(q, s));
    Seqs.Filter(xs, s => Suggests(q, s))
  }

  /** Cutting and joining lists of matches gives matches. */
  lemma JoinedMatches(q: string, a: seq<string>, b: seq<string>, c: seq<string>, n: nat, m: nat)
    requires forall i :: 0 <= i < |a| ==> Suggests(q, a[i])
    requires forall i :: 0 <= i < |b| ==> Suggests(q, b[i])
    requires forall i :: 0 <= i < |c| ==> Suggests(q, c[i])
    ensures var r := Seqs.Take(Seqs.Take(a, n) + b + c, m);
            forall i :: 0 <= i < |r| ==> Suggests(q, r[i])
  {
    TakeSuggests(q, a, n);
    JoinSuggests(q, Seqs.Take(a, n), b);
    JoinSuggests(q, Seqs.Take(a, n) + b, c);
    TakeSuggests(q, Seqs.Take(a, n) + b + c, m);
  }

  /** A prefix of matches holds only matches. */
  lemma TakeSuggests(q: string, s: seq<string>, n: nat)
    requires forall i :: 0 <= i < |s| ==> Suggests(q, s[i])
    ensures forall i :: 0 <= i < |Seqs.Take(s, n)| ==> Suggests(q, Seqs.Take(s, n)[i])
  {
  }

  /** Two lists of matches joined hold only matches. */
  lemma JoinSuggests(q: string, a: seq<string>, b: seq<string>)
    requires forall i :: 0 <= i < |a| ==> Suggests(q, a[i])
    requires forall i :: 0 <= i < |b| ==> Suggests(q, b[i])
    ensures forall i :: 0 <= i < |a + b| ==> Suggests(q, (a + b)[i])
  {
    forall i | 0 <= i < |a + b| ensures Suggests(q, (a + b)[i]) {
      if i >= |a| {
        assert (a + b)[i] == b[i - |a|];
      }
    }
  }

  /** `getSearchSuggestions` over `transactions`: for a non-empty query,
      up to 3 distinct recipients, then the currencies and statuses, that
      contain the lower-cased query; for an empty one, the five popular
      searches; at most 8 in all. */
  method Suggestions(transactions: seq<SearchTransaction>, user: Option<nat>, query: string)
    returns (r: Result<seq<string>, Reject>)
    ensures user.None? <==> r == Err(Unauthenticated)
    ensures r.Ok? ==> |r.value| <= MaxSuggestions
    ensures r.Ok? && query == [] ==> r.value == PopularSearches
    ensures r.Ok? && query != [] ==>
              r.value == Seqs.Take(Seqs.Take(Matching(Seqs.Distinct(Recipients(transactions)), Text.Lower(query)),
                                             MaxRecipientSuggestions)
                                   + Matching(Currencies, Text.Lower(query))
                                   + Matching(Statuses, Text.Lower(query)), MaxSuggestions)
    ensures r.Ok? ==> forall i :: 0 <= i < |r.value| && query != [] ==> Suggests(Text.Lower(query), r.value[i])
  {
    if user.None? {
      return Err(Unauthenticated);
    }
    var q := Text.Lower(query);
    assert |q| == |query|;
    var suggestions: seq<string> := [];
    if |q| > 0 {
      var recipients := Matching(Seqs.Distinct(Recipients(transactions)), q);
      var currencies := Matching(Currencies, q);
      var statuses := Matching(Statuses, q);
      suggestions := Seqs.Take(recipients, MaxRecipientSuggestions) + currencies + statuses;
      JoinedMatches(q, recipients, currencies, statuses, MaxRecipientSuggestions, MaxSuggestions);
    }
    if |q| == 0 {
      suggestions := PopularSearches;
    }
    r := Ok(Seqs.Take(suggestions, MaxSuggestions));
  }
}
