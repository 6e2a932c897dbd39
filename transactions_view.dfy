/**
 * The statement page (src/pages/TransactionsView.tsx): the search and the two filters,
 * the newest-first order, and the grouping of the filtered list by month.
 */
module TransactionsViews {
  import opened Options
  import opened Seqs
  import opened OrderedMaps
  import opened Text
  import opened Finance
  import opened Aggregation

  /** The type select: `'all'` or one transaction type. */
  datatype TypeFilter = AllTypes | OnlyType(kind: TransactionType)

  /** The category select's value for "every category". */
  const AllCategories: string := "all"

  /**
   * The filter callback: the description contains the query, both lowered; the type
   * filter is 'all' or the transaction's type; the category filter is 'all' or its id.
   */
  predicate Matches(t: Transaction, query: string, typeFilter: TypeFilter, categoryFilter: string) {
    Contains(ToLower(t.description), ToLower(query))
    && (typeFilter == AllTypes || t.kind == typeFilter.kind)
    && (categoryFilter == AllCategories || t.categoryId == categoryFilter)
  }

  function Matching(query: string, typeFilter: TypeFilter, categoryFilter: string): Transaction -> bool {
    (t: Transaction) => Matches(t, query, typeFilter, categoryFilter)
  }

  /** `filteredTransactions`: the matching transactions, newest first. */
  function FilteredTransactions(ts: seq<Transaction>, query: string, typeFilter: TypeFilter, categoryFilter: string)
    : seq<Transaction>
  {
    SortDescBy(Filter(ts, Matching(query, typeFilter, categoryFilter)), DateKeyOf)
  }

  /**
   * The list is newest first, holds each matching transaction as often as the store does,
   * and holds nothing else.
   */
  lemma FilteredTransactionsSpec(ts: seq<Transaction>, query: string, typeFilter: TypeFilter, categoryFilter: string)
    ensures SortedDesc(FilteredTransactions(ts, query, typeFilter, categoryFilter), DateKeyOf)
    ensures forall t ::
              multiset(FilteredTransactions(ts, query, typeFilter, categoryFilter))[t] ==
              if Matches(t, query, typeFilter, categoryFilter) then multiset(ts)[t] else 0
  {
    var p := Matching(query, typeFilter, categoryFilter);
    SortDescBySpec(Filter(ts, p), DateKeyOf);
    forall t ensures multiset(Filter(ts, p))[t] == if p(t) then multiset(ts)[t] else 0 {
      FilterCount(ts, p, t);
    }
  }

  /** Every string contains the empty string. */
  lemma ContainsEmpty(s: string)
    ensures Contains(s, "")
  {
    assert OccursAt(s, "", 0);
  }

  /** With an empty query and both filters at 'all', every transaction is listed. */
  lemma NoFiltersKeepsAll(ts: seq<Transaction>)
    ensures multiset(FilteredTransactions(ts, "", AllTypes, AllCategories)) == multiset(ts)
  {
    var p := Matching("", AllTypes, AllCategories);
    forall t | t in ts ensures p(t) {
      ContainsEmpty(ToLower(t.description));
    }
    FilterKeepsAll(ts, p);
    SortDescBySpec(ts, DateKeyOf);
  }

  // ------------------------------------------------------------------ grouping by month

  /** `formatMonthYear(new Date(t.date))`, taken as the (year, month) it names. */
  type MonthKey = (int, int)

  function MonthKeyOf(t: Transaction): MonthKey {
    (t.date.year, t.date.month)
  }

  function InMonthKey(k: MonthKey): Transaction -> bool {
    (t: Transaction) => MonthKeyOf(t) == k
  }

  /**
   * `groupedTransactions`: one list per month, the months in order of first appearance
   * and each list in the order of the input.
   */
  function Grouped(ts: seq<Transaction>): seq<(MonthKey, seq<Transaction>)> {
    if ts == [] then []
    else PushTo(Grouped(ts[..|ts| - 1]), MonthKeyOf(ts[|ts| - 1]), ts[|ts| - 1])
  }

  lemma GroupedSnoc(ts: seq<Transaction>, t: Transaction)
    ensures Grouped(ts + [t]) == PushTo(Grouped(ts), MonthKeyOf(t), t)
  {
    assert (ts + [t])[..|ts|] == ts;
  }

  /** Each month appears once, and exactly the months of the transactions appear. */
  lemma {:induction false} GroupedKeys(ts: seq<Transaction>)
    ensures Distinct(Keys(Grouped(ts)))
    ensures forall k :: k in Keys(Grouped(ts)) <==> exists t :: t in ts && MonthKeyOf(t) == k
  {
    if ts != [] {
      var ts', t := ts[..|ts| - 1], ts[|ts| - 1];
      assert ts == ts' + [t];
      GroupedKeys(ts');
      GroupedSnoc(ts', t);
      PushToKeys(Grouped(ts'), MonthKeyOf(t), t);
      var ks := Keys(Grouped(ts));
      forall k | k in ks
        ensures exists u :: u in ts && MonthKeyOf(u) == k
      {
        if k != MonthKeyOf(t) {
          var u :| u in ts' && MonthKeyOf(u) == k;
          assert u in ts;
        }
      }
      forall k | exists u :: u in ts && MonthKeyOf(u) == k
        ensures k in ks
      {
        var u :| u in ts && MonthKeyOf(u) == k;
        if u != t {
          assert u in ts';
        }
      }
    }
  }

  lemma GroupedDistinct(ts: seq<Transaction>)
    ensures Distinct(Keys(Grouped(ts)))
  {
    GroupedKeys(ts);
  }

  /** The list of a month is the input's transactions of that month, in the input's order. */
  lemma {:induction false} GroupedGet(ts: seq<Transaction>, k: MonthKey)
    ensures Get(Grouped(ts), k) ==
      if Filter(ts, InMonthKey(k)) == [] then None else Some(Filter(ts, InMonthKey(k)))
  {
    if ts != [] {
      var ts', t := ts[..|ts| - 1], ts[|ts| - 1];
      assert ts == ts' + [t];
      GroupedSnoc(ts', t);
      GroupedGet(ts', k);
      GroupedDistinct(ts');
      PushToGet(Grouped(ts'), MonthKeyOf(t), t, k);
      FilterSnoc(ts', t, InMonthKey(k));
    }
  }

  /** Every transaction is in the group of its own month and in no other group. */
  lemma GroupOfEach(ts: seq<Transaction>, t: Transaction, i: int)
    requires t in ts && 0 <= i < |Grouped(ts)|
    ensures t in Grouped(ts)[i].1 <==> Grouped(ts)[i].0 == MonthKeyOf(t)
  {
    var g := Grouped(ts);
    var k := g[i].0;
    GroupedKeys(ts);
    GetAt(g, i);
    GroupedGet(ts, k);
    FilterSound(ts, InMonthKey(k));
    FilterComplete(ts, InMonthKey(k));
  }

  /** One more transaction: its month's list is started when missing, then the transaction is pushed. */
  lemma GroupStep(ts: seq<Transaction>, i: int)
    requires 0 <= i < |ts|
    ensures Get(Grouped(ts[..i]), MonthKeyOf(ts[i])).None? ==>
      Get(Set(Grouped(ts[..i]), MonthKeyOf(ts[i]), []), MonthKeyOf(ts[i])) == Some([])
      && Set(Set(Grouped(ts[..i]), MonthKeyOf(ts[i]), []), MonthKeyOf(ts[i]), [] + [ts[i]]) == Grouped(ts[..i + 1])
    ensures Get(Grouped(ts[..i]), MonthKeyOf(ts[i])).Some? ==>
      Set(Grouped(ts[..i]), MonthKeyOf(ts[i]), Get(Grouped(ts[..i]), MonthKeyOf(ts[i])).value + [ts[i]]) == Grouped(ts[..i + 1])
  {
    var t, done := ts[i], ts[..i];
    assert ts[..i + 1] == done + [t];
    GroupedSnoc(done, t);
    if Get(Grouped(done), MonthKeyOf(t)).None? {
      GroupedDistinct(done);
      PushToMissing(Grouped(done), MonthKeyOf(t), t);
    }
  }

  /** The `filteredTransactions.forEach` loop that fills `groups`. */
  method GroupByMonth(filtered: seq<Transaction>) returns (groups: seq<(MonthKey, seq<Transaction>)>)
    ensures groups == Grouped(filtered)
  {
    groups := [];
    for i := 0 to |filtered|
      invariant groups == Grouped(filtered[..i])
    {
      var t := filtered[i];
      var monthKey := MonthKeyOf(t);
      GroupStep(filtered, i);
      if Get(groups, monthKey).None? {
        groups := Set(groups, monthKey, []);
      }
      groups := Set(groups, monthKey, Get(groups, monthKey).value + [t]);
    }
    assert filtered[..|filtered|] == filtered;
  }

  // ------------------------------------------------------------------ filter state

  /** The search box, the two selects and the panel toggle. */
  class StatementFilters {
    var searchQuery: string
    var typeFilter: TypeFilter
    var categoryFilter: string
    var showFilters: bool

    constructor ()
      ensures searchQuery == "" && typeFilter == AllTypes && categoryFilter == AllCategories && !showFilters
    {
      searchQuery, typeFilter, categoryFilter, showFilters := "", AllTypes, AllCategories, false;
    }

    /** `hasActiveFilters`: a query typed, or a select away from 'all'. */
    predicate HasActiveFilters()
      reads this
    {
      searchQuery != "" || typeFilter != AllTypes || categoryFilter != AllCategories
    }

    /** The list the page shows for the current filters. */
    function Shown(ts: seq<Transaction>): seq<Transaction>
      reads this
    {
      FilteredTransactions(ts, searchQuery, typeFilter, categoryFilter)
    }

    /** `clearFilters`: the query emptied and both selects back at 'all'; the panel stays as it was. */
    method ClearFilters()
      modifies this
      ensures searchQuery == "" && typeFilter == AllTypes && categoryFilter == AllCategories
      ensures !HasActiveFilters()
      ensures showFilters == old(showFilters)
    {
      searchQuery, typeFilter, categoryFilter := "", AllTypes, AllCategories;
    }
  }

  /** Without an active filter the page lists every transaction. */
  lemma InactiveFiltersShowAll(f: StatementFilters, ts: seq<Transaction>)
    requires !f.HasActiveFilters()
    ensures multiset(f.Shown(ts)) == multiset(ts)
  {
    NoFiltersKeepsAll(ts);
  }
}
