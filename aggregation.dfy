/**
 * The values the finance hook (src/hooks/useFinanceData.ts) derives from its state:
 * the transactions of the selected month, the month's balance, the expenses of the
 * month per category for the chart, and the ten most recent transactions.
 */
module Aggregation {
  import opened Options
  import opened Seqs
  import opened OrderedMaps
  import opened Finance

  /** The test of `monthlyTransactions`: same month and same year as the selected date. */
  function InMonth(selected: Date): Transaction -> bool {
    (t: Transaction) => t.date.month == selected.month && t.date.year == selected.year
  }

  function OfType(kind: TransactionType): Transaction -> bool {
    (t: Transaction) => t.kind == kind
  }

  function Amount(t: Transaction): real { t.amount }

  /** `monthlyTransactions`: the transactions of the selected month, in the stored order. */
  function MonthlyTransactions(ts: seq<Transaction>, selected: Date): (r: seq<Transaction>)
    ensures |r| <= |ts|
  {
    Filter(ts, InMonth(selected))
  }

  /** Exactly the transactions dated in the selected month and year are kept, and appending keeps the order. */
  lemma MonthlyTransactionsSpec(ts: seq<Transaction>, more: seq<Transaction>, selected: Date)
    ensures forall t :: t in MonthlyTransactions(ts, selected) <==>
      t in ts && t.date.month == selected.month && t.date.year == selected.year
    ensures MonthlyTransactions(ts + more, selected) == MonthlyTransactions(ts, selected) + MonthlyTransactions(more, selected)
  {
    FilterSound(ts, InMonth(selected));
    FilterComplete(ts, InMonth(selected));
    FilterAppend(ts, more, InMonth(selected));
  }

  /** `monthlyBalance` over a month's transactions: income and expense sums and their difference. */
  function Balance(monthly: seq<Transaction>): (b: MonthlyBalance)
    ensures b.balance == b.income - b.expenses
  {
    var income := SumOf(Filter(monthly, OfType(Income)), Amount);
    var expenses := SumOf(Filter(monthly, OfType(Expense)), Amount);
    MonthlyBalance(income, expenses, income - expenses)
  }

  /** An income counts for its amount, an expense against it. */
  function SignedAmount(t: Transaction): real {
    if t.kind == Income then t.amount else -t.amount
  }

  lemma {:induction false} SignedSum(s: seq<Transaction>)
    ensures SumOf(s, Masked(Amount, OfType(Income))) - SumOf(s, Masked(Amount, OfType(Expense)))
            == SumOf(s, SignedAmount)
  {
    if s != [] {
      SignedSum(s[..|s| - 1]);
    }
  }

  /**
   * The balance is the signed sum of the month's transactions, and with non-negative
   * amounts income and expenses are non-negative.
   */
  lemma BalanceIsSignedSum(monthly: seq<Transaction>)
    ensures Balance(monthly).balance == SumOf(monthly, SignedAmount)
    ensures (forall t :: t in monthly ==> t.amount >= 0.0) ==>
      Balance(monthly).income >= 0.0 && Balance(monthly).expenses >= 0.0
  {
    SumFilter(monthly, Amount, OfType(Income));
    SumFilter(monthly, Amount, OfType(Expense));
    SignedSum(monthly);
    if forall t :: t in monthly ==> t.amount >= 0.0 {
      FilterSound(monthly, OfType(Income));
      FilterSound(monthly, OfType(Expense));
      SumNonNegative(Filter(monthly, OfType(Income)), Amount);
      SumNonNegative(Filter(monthly, OfType(Expense)), Amount);
    }
  }

  /** The balance does not depend on the order in which the transactions are stored. */
  lemma BalanceOrderIndependent(a: seq<Transaction>, b: seq<Transaction>)
    requires multiset(a) == multiset(b)
    ensures Balance(a) == Balance(b)
  {
    SumFilter(a, Amount, OfType(Income));
    SumFilter(b, Amount, OfType(Income));
    SumPermutation(a, b, Masked(Amount, OfType(Income)));
    SumFilter(a, Amount, OfType(Expense));
    SumFilter(b, Amount, OfType(Expense));
    SumPermutation(a, b, Masked(Amount, OfType(Expense)));
  }

  /**
   * Adding a transaction (the store's `addTransaction`) moves the month's balance by its
   * signed amount when it is dated in the selected month, and leaves it alone otherwise.
   */
  lemma BalanceAfterAdd(ts: seq<Transaction>, t: Transaction, selected: Date)
    ensures Balance(MonthlyTransactions(ts + [t], selected)).balance ==
      Balance(MonthlyTransactions(ts, selected)).balance + (if InMonth(selected)(t) then SignedAmount(t) else 0.0)
  {
    FilterSnoc(ts, t, InMonth(selected));
    var m := MonthlyTransactions(ts, selected);
    BalanceIsSignedSum(m);
    BalanceIsSignedSum(MonthlyTransactions(ts + [t], selected));
    if InMonth(selected)(t) {
      SumAppend(m, [t], SignedAmount);
      SumSingle(t, SignedAmount);
    }
  }

  // ------------------------------------------------------------------ expenses by category

  function HasCategoryId(id: string): Transaction -> bool {
    (t: Transaction) => t.categoryId == id
  }

  /**
   * The `categoryMap` of `expensesByCategory`: for each category id, in order of first
   * use, the sum of the amounts of the transactions with that id.
   */
  function CategoryTotals(ts: seq<Transaction>): seq<(string, real)> {
    if ts == [] then []
    else
      AddTo(CategoryTotals(ts[..|ts| - 1]), ts[|ts| - 1].categoryId, ts[|ts| - 1].amount)
  }

  lemma CategoryTotalsSnoc(ts: seq<Transaction>, t: Transaction)
    ensures CategoryTotals(ts + [t]) == AddTo(CategoryTotals(ts), t.categoryId, t.amount)
  {
    assert (ts + [t])[..|ts|] == ts;
  }

  /** The map holds each used category id once, and exactly the ids the transactions use. */
  lemma {:induction false} CategoryTotalsKeys(ts: seq<Transaction>)
    ensures Distinct(Keys(CategoryTotals(ts)))
    ensures forall k :: k in Keys(CategoryTotals(ts)) <==> exists t :: t in ts && t.categoryId == k
  {
    if ts != [] {
      var ts', t := ts[..|ts| - 1], ts[|ts| - 1];
      assert ts == ts' + [t];
      CategoryTotalsKeys(ts');
      CategoryTotalsSnoc(ts', t);
      var m := CategoryTotals(ts');
      AddToKeys(m, t.categoryId, t.amount);
      var ks := Keys(CategoryTotals(ts));
      forall k | k in ks
        ensures exists u :: u in ts && u.categoryId == k
      {
        if k != t.categoryId {
          var u :| u in ts' && u.categoryId == k;
          assert u in ts;
        }
      }
      forall k | exists u :: u in ts && u.categoryId == k
        ensures k in ks
      {
        var u :| u in ts && u.categoryId == k;
        if u != t {
          assert u in ts';
        }
      }
    }
  }

  /** The sum of the amounts of the transactions with the id, if there is any such transaction. */
  function CategorySum(ts: seq<Transaction>, k: string): Option<real> {
    var f := Filter(ts, HasCategoryId(k));
    if f == [] then None else Some(SumOf(f, Amount))
  }

  lemma CategorySumSnoc(ts: seq<Transaction>, t: Transaction, k: string)
    ensures CategorySum(ts + [t], k) ==
      if t.categoryId == k then Some(CategorySum(ts, k).GetOr(0.0) + t.amount) else CategorySum(ts, k)
  {
    var f := Filter(ts, HasCategoryId(k));
    FilterSnoc(ts, t, HasCategoryId(k));
    if t.categoryId == k {
      assert (f + [t])[..|f|] == f;
      assert SumOf(f + [t], Amount) == SumOf(f, Amount) + t.amount;
    }
  }

  /** What the map holds under an id is the sum of the amounts of the transactions with that id. */
  lemma {:induction false} CategoryTotalsGet(ts: seq<Transaction>, k: string)
    ensures Get(CategoryTotals(ts), k) == CategorySum(ts, k)
  {
    if ts != [] {
      var ts', t := ts[..|ts| - 1], ts[|ts| - 1];
      assert ts == ts' + [t];
      CategoryTotalsSnoc(ts', t);
      CategoryTotalsGet(ts', k);
      CategoryTotalsDistinct(ts');
      CategoryTotalsStep(CategoryTotals(ts'), ts', t, k);
    }
  }

  lemma CategoryTotalsDistinct(ts: seq<Transaction>)
    ensures Distinct(Keys(CategoryTotals(ts)))
  {
    CategoryTotalsKeys(ts);
  }

  lemma CategoryTotalsStep(m: seq<(string, real)>, ts: seq<Transaction>, t: Transaction, k: string)
    requires Distinct(Keys(m)) && Get(m, k) == CategorySum(ts, k)
    ensures Get(AddTo(m, t.categoryId, t.amount), k) == CategorySum(ts + [t], k)
  {
    AddToGet(m, t.categoryId, t.amount, k);
    CategorySumSnoc(ts, t, k);
  }

  /** The numbers of the map add up to the sum of all amounts. */
  lemma {:induction false} CategoryTotalsSum(ts: seq<Transaction>)
    ensures SumOf(CategoryTotals(ts), EntryValue) == SumOf(ts, Amount)
  {
    if ts != [] {
      var ts', t := ts[..|ts| - 1], ts[|ts| - 1];
      assert ts == ts' + [t];
      CategoryTotalsSnoc(ts', t);
      CategoryTotalsSum(ts');
      CategoryTotalsKeys(ts');
      AddToSum(CategoryTotals(ts'), t.categoryId, t.amount);
    }
  }

  /** `totalExpenses > 0 ? (amount / totalExpenses) * 100 : 0`. */
  function Percentage(amount: real, total: real): real {
    if total > 0.0 then amount / total * 100.0 else 0.0
  }

  /**
   * The `categoryMap.forEach` pass: each entry whose id names a category becomes a chart
   * entry with the category's name and icon and the next palette colour; an entry whose
   * id names no category is skipped and takes no colour.
   */
  function Resolve(m: seq<(string, real)>, categories: seq<Category>, total: real, palette: Palette): (r: seq<CategoryExpense>)
    ensures |r| <= |m|
  {
    if m == [] then []
    else
      var r := Resolve(m[..|m| - 1], categories, total, palette);
      var (id, amount) := m[|m| - 1];
      var found := FindFirst(categories, CategoryWithId(id));
      if found.Some? then
        r + [CategoryExpense(id, found.value.name, found.value.icon, amount, Percentage(amount, total),
                             palette[|r| % |palette|])]
      else r
  }

  function ExpenseAmount(e: CategoryExpense): real { e.amount }

  function ExpensePercentage(e: CategoryExpense): real { e.percentage }

  function ExpenseCategoryId(e: CategoryExpense): string { e.categoryId }

  /** `expenseTransactions`: the month's expenses. */
  function Expenses(monthly: seq<Transaction>): seq<Transaction> {
    Filter(monthly, OfType(Expense))
  }

  /** `totalExpenses`. */
  function TotalExpenses(monthly: seq<Transaction>): real {
    SumOf(Expenses(monthly), Amount)
  }

  /** The chart entries before the sort, in order of first use of their category. */
  function ChartEntries(monthly: seq<Transaction>, categories: seq<Category>, palette: Palette): seq<CategoryExpense> {
    Resolve(CategoryTotals(Expenses(monthly)), categories, TotalExpenses(monthly), palette)
  }

  /** `expensesByCategory` over a month's transactions and the categories. */
  function ExpenseBreakdown(monthly: seq<Transaction>, categories: seq<Category>, palette: Palette): seq<CategoryExpense> {
    SortDescBy(ChartEntries(monthly, categories, palette), ExpenseAmount)
  }

  /**
   * What a chart entry promises: its id names a category, whose name and icon it carries;
   * its percentage is its share of the month's expenses; its colour comes from the palette.
   */
  predicate Describes(e: CategoryExpense, categories: seq<Category>, total: real, palette: Palette) {
    var found := FindFirst(categories, CategoryWithId(e.categoryId));
    found.Some? && e.categoryName == found.value.name && e.categoryIcon == found.value.icon
    && e.percentage == Percentage(e.amount, total) && e.color in palette
  }

  lemma ResolveSnoc(m: seq<(string, real)>, x: (string, real), categories: seq<Category>, total: real, palette: Palette)
    ensures Resolve(m + [x], categories, total, palette) ==
      var r := Resolve(m, categories, total, palette);
      var found := FindFirst(categories, CategoryWithId(x.0));
      if found.Some? then
        r + [CategoryExpense(x.0, found.value.name, found.value.icon, x.1, Percentage(x.1, total),
                             palette[|r| % |palette|])]
      else r
  {
    assert (m + [x])[..|m|] == m;
  }

  /** Every chart entry describes its category and carries the amount the map holds for it. */
  lemma {:induction false} ResolveEntries(m: seq<(string, real)>, categories: seq<Category>, total: real, palette: Palette)
    ensures forall e :: e in Resolve(m, categories, total, palette) ==> Describes(e, categories, total, palette) && (e.categoryId, e.amount) in m
  {
    if m != [] {
      var m', x := m[..|m| - 1], m[|m| - 1];
      assert m == m' + [x];
      ResolveEntries(m', categories, total, palette);
      ResolveSnoc(m', x, categories, total, palette);
    }
  }

  /** Every entry of the map whose id names a category has its chart entry. */
  lemma {:induction false} ResolveComplete(m: seq<(string, real)>, categories: seq<Category>, total: real, palette: Palette)
    ensures forall x :: x in m && FindFirst(categories, CategoryWithId(x.0)).Some? ==>
      exists e :: e in Resolve(m, categories, total, palette) && e.categoryId == x.0 && e.amount == x.1
  {
    if m != [] {
      var m', y := m[..|m| - 1], m[|m| - 1];
      assert m == m' + [y];
      ResolveComplete(m', categories, total, palette);
      ResolveSnoc(m', y, categories, total, palette);
      var r := Resolve(m, categories, total, palette);
      forall x | x in m && FindFirst(categories, CategoryWithId(x.0)).Some?
        ensures exists e :: e in r && e.categoryId == x.0 && e.amount == x.1
      {
        if x == y {
          assert r[|r| - 1].categoryId == x.0 && r[|r| - 1].amount == x.1;
        } else {
          assert x in m';
          var e :| e in Resolve(m', categories, total, palette) && e.categoryId == x.0 && e.amount == x.1;
          assert e in r;
        }
      }
    }
  }

  /** Colours go round the palette in the order the categories were first used: entry k gets colour k mod the palette's length. */
  lemma {:induction false} ResolveColors(m: seq<(string, real)>, categories: seq<Category>, total: real, palette: Palette)
    ensures forall k :: 0 <= k < |Resolve(m, categories, total, palette)| ==>
      Resolve(m, categories, total, palette)[k].color == palette[k % |palette|]
  {
    if m != [] {
      var m', x := m[..|m| - 1], m[|m| - 1];
      assert m == m' + [x];
      ResolveColors(m', categories, total, palette);
      ResolveSnoc(m', x, categories, total, palette);
    }
  }

  /** A map without repeated keys gives a chart without repeated categories. */
  lemma {:induction false} ResolveDistinct(m: seq<(string, real)>, categories: seq<Category>, total: real, palette: Palette)
    requires Distinct(Keys(m))
    ensures DistinctBy(Resolve(m, categories, total, palette), ExpenseCategoryId)
  {
    if m != [] {
      var m', x := m[..|m| - 1], m[|m| - 1];
      assert m == m' + [x];
      assert Keys(m') == Keys(m)[..|m'|];
      assert x.0 !in Keys(m') by {
        forall p | 0 <= p < |m'| ensures Keys(m')[p] != x.0 {
          assert Keys(m)[p] != Keys(m)[|m'|];
        }
      }
      ResolveDistinct(m', categories, total, palette);
      ResolveSnoc(m', x, categories, total, palette);
      ResolveAvoidsKey(m', categories, total, palette, x.0);
      var r' := Resolve(m', categories, total, palette);
      var r := Resolve(m, categories, total, palette);
      if |r| > |r'| {
        forall i, j | 0 <= i < j < |r|
          ensures ExpenseCategoryId(r[i]) != ExpenseCategoryId(r[j])
        {
          if j == |r'| {
            assert r[i] == r'[i] && r[j].categoryId == x.0;
            assert r'[i] in r';
          } else {
            assert r[i] == r'[i] && r[j] == r'[j];
          }
        }
      }
    }
  }

  /** A key the map does not hold names no chart entry. */
  lemma ResolveAvoidsKey(m: seq<(string, real)>, categories: seq<Category>, total: real, palette: Palette, k: string)
    requires k !in Keys(m)
    ensures forall e :: e in Resolve(m, categories, total, palette) ==> e.categoryId != k
  {
    ResolveEntries(m, categories, total, palette);
    forall e | e in Resolve(m, categories, total, palette) ensures e.categoryId != k {
      var p :| 0 <= p < |m| && m[p] == (e.categoryId, e.amount);
      assert Keys(m)[p] == e.categoryId;
    }
  }

  /**
   * When every id names a category, the chart amounts add up to the map's numbers, and
   * the percentages to the same sum as a share of the total.
   */
  lemma {:induction false} ResolveAmounts(m: seq<(string, real)>, categories: seq<Category>, total: real, palette: Palette)
    requires forall x :: x in m ==> FindFirst(categories, CategoryWithId(x.0)).Some?
    ensures SumOf(Resolve(m, categories, total, palette), ExpenseAmount) == SumOf(m, EntryValue)
  {
    if m != [] {
      var m', x := m[..|m| - 1], m[|m| - 1];
      assert m == m' + [x];
      assert forall y :: y in m' ==> y in m;
      ResolveAmounts(m', categories, total, palette);
      ResolveSnoc(m', x, categories, total, palette);
      var r' := Resolve(m', categories, total, palette);
      assert x in m;
      var found := FindFirst(categories, CategoryWithId(x.0));
      var e := CategoryExpense(x.0, found.value.name, found.value.icon, x.1, Percentage(x.1, total),
                               palette[|r'| % |palette|]);
      SumAppend(r', [e], ExpenseAmount);
      SumSingle(e, ExpenseAmount);
      SumAppend(m', [x], EntryValue);
      SumSingle(x, EntryValue);
    }
  }

  /** Percentages that are each an amount's share of one total add up to the share of the summed amounts. */
  lemma {:induction false} SharesAdd(r: seq<CategoryExpense>, total: real)
    requires forall e :: e in r ==> e.percentage == Percentage(e.amount, total)
    ensures SumOf(r, ExpensePercentage) == Percentage(SumOf(r, ExpenseAmount), total)
  {
    if r != [] {
      var r' := r[..|r| - 1];
      assert forall e :: e in r' ==> e in r;
      SharesAdd(r', total);
      PercentageAdd(SumOf(r', ExpenseAmount), r[|r| - 1].amount, total);
    }
  }

  lemma PercentageAdd(a: real, b: real, total: real)
    ensures Percentage(a, total) + Percentage(b, total) == Percentage(a + b, total)
  {
  }

  /** The chart is ordered by amount, largest first, and holds the resolved entries, none lost or added. */
  lemma ExpenseBreakdownSorted(monthly: seq<Transaction>, categories: seq<Category>, palette: Palette)
    ensures SortedDesc(ExpenseBreakdown(monthly, categories, palette), ExpenseAmount)
    ensures multiset(ExpenseBreakdown(monthly, categories, palette)) == multiset(ChartEntries(monthly, categories, palette))
  {
    SortDescBySpec(ChartEntries(monthly, categories, palette), ExpenseAmount);
  }

  /**
   * Each chart entry describes an existing category and holds the sum of the month's
   * expenses in that category, of which there is at least one.
   */
  lemma ExpenseBreakdownEntries(monthly: seq<Transaction>, categories: seq<Category>, palette: Palette)
    ensures forall e :: e in ExpenseBreakdown(monthly, categories, palette) ==>
      Describes(e, categories, TotalExpenses(monthly), palette)
      && Filter(Expenses(monthly), HasCategoryId(e.categoryId)) != []
      && e.amount == SumOf(Filter(Expenses(monthly), HasCategoryId(e.categoryId)), Amount)
  {
    var expenses := Expenses(monthly);
    var total := TotalExpenses(monthly);
    var m := CategoryTotals(expenses);
    CategoryTotalsKeys(expenses);
    SortedEntries(m, categories, total, palette);
    forall e | e in ExpenseBreakdown(monthly, categories, palette)
      ensures Filter(expenses, HasCategoryId(e.categoryId)) != []
      ensures e.amount == SumOf(Filter(expenses, HasCategoryId(e.categoryId)), Amount)
    {
      var p :| 0 <= p < |m| && m[p] == (e.categoryId, e.amount);
      GetAt(m, p);
      CategoryTotalsGet(expenses, e.categoryId);
    }
  }

  /** No category appears twice in the chart. */
  lemma ExpenseBreakdownDistinct(monthly: seq<Transaction>, categories: seq<Category>, palette: Palette)
    ensures DistinctBy(ExpenseBreakdown(monthly, categories, palette), ExpenseCategoryId)
  {
    var expenses := Expenses(monthly);
    var m := CategoryTotals(expenses);
    var r := Resolve(m, categories, SumOf(expenses, Amount), palette);
    CategoryTotalsKeys(expenses);
    ResolveDistinct(m, categories, SumOf(expenses, Amount), palette);
    SortDescBySpec(r, ExpenseAmount);
    DistinctByPermutation(r, ExpenseBreakdown(monthly, categories, palette), ExpenseCategoryId);
  }

  /** Every category of an expense of the month that still exists has its entry in the chart. */
  lemma ExpenseBreakdownComplete(monthly: seq<Transaction>, categories: seq<Category>, palette: Palette)
    ensures forall t :: t in Expenses(monthly) && FindFirst(categories, CategoryWithId(t.categoryId)).Some? ==>
      exists e :: e in ExpenseBreakdown(monthly, categories, palette) && e.categoryId == t.categoryId
  {
    var expenses := Expenses(monthly);
    var total := SumOf(expenses, Amount);
    var m := CategoryTotals(expenses);
    var r := Resolve(m, categories, total, palette);
    var b := ExpenseBreakdown(monthly, categories, palette);
    CategoryTotalsKeys(expenses);
    ResolveComplete(m, categories, total, palette);
    SortDescBySpec(r, ExpenseAmount);
    forall t | t in expenses && FindFirst(categories, CategoryWithId(t.categoryId)).Some?
      ensures exists e :: e in b && e.categoryId == t.categoryId
    {
      assert t.categoryId in Keys(m);
      var p :| 0 <= p < |m| && Keys(m)[p] == t.categoryId;
      assert m[p] in m;
      var e :| e in r && e.categoryId == m[p].0 && e.amount == m[p].1;
      assert e in multiset(b);
    }
  }

  /**
   * When every expense of the month has a category that exists and the month has
   * expenses, the percentages of the chart add up to 100.
   */
  lemma ExpensePercentagesTotal(monthly: seq<Transaction>, categories: seq<Category>, palette: Palette)
    requires forall t :: t in Expenses(monthly) ==> FindFirst(categories, CategoryWithId(t.categoryId)).Some?
    requires TotalExpenses(monthly) > 0.0
    ensures SumOf(ExpenseBreakdown(monthly, categories, palette), ExpensePercentage) == 100.0
  {
    var expenses := Expenses(monthly);
    var total := SumOf(expenses, Amount);
    var m := CategoryTotals(expenses);
    var r := Resolve(m, categories, total, palette);
    var b := ExpenseBreakdown(monthly, categories, palette);
    TotalsResolve(expenses, categories);
    ResolveAmounts(m, categories, total, palette);
    CategoryTotalsSum(expenses);
    SortDescBySpec(r, ExpenseAmount);
    SumPermutation(r, b, ExpenseAmount);
    SortedEntries(m, categories, total, palette);
    SharesAdd(b, total);
    assert SumOf(b, ExpenseAmount) == total;
    PercentageWhole(total);
  }

  lemma PercentageWhole(total: real)
    requires total > 0.0
    ensures Percentage(total, total) == 100.0
  {
  }

  /** When every transaction's category exists, so does the category of every entry of the map. */
  lemma TotalsResolve(ts: seq<Transaction>, categories: seq<Category>)
    requires forall t :: t in ts ==> FindFirst(categories, CategoryWithId(t.categoryId)).Some?
    ensures forall x :: x in CategoryTotals(ts) ==> FindFirst(categories, CategoryWithId(x.0)).Some?
  {
    var m := CategoryTotals(ts);
    CategoryTotalsKeys(ts);
    forall x | x in m
      ensures FindFirst(categories, CategoryWithId(x.0)).Some?
    {
      var p :| 0 <= p < |m| && m[p] == x;
      assert Keys(m)[p] == x.0;
      assert x.0 in Keys(m);
      var t :| t in ts && t.categoryId == x.0;
    }
  }

  /** `ResolveEntries` carried through the sort. */
  lemma SortedEntries(m: seq<(string, real)>, categories: seq<Category>, total: real, palette: Palette)
    ensures forall e :: e in SortDescBy(Resolve(m, categories, total, palette), ExpenseAmount) ==>
      Describes(e, categories, total, palette) && (e.categoryId, e.amount) in m
  {
    var r := Resolve(m, categories, total, palette);
    SortDescBySpec(r, ExpenseAmount);
    ResolveEntries(m, categories, total, palette);
    forall e | e in SortDescBy(r, ExpenseAmount)
      ensures e in r
    {
      assert e in multiset(r);
    }
  }

  /** With non-negative amounts every number of the map is non-negative. */
  lemma {:induction false} CategoryTotalsNonNegative(ts: seq<Transaction>)
    requires forall t :: t in ts ==> t.amount >= 0.0
    ensures forall x :: x in CategoryTotals(ts) ==> x.1 >= 0.0
  {
    if ts != [] {
      var ts', t := ts[..|ts| - 1], ts[|ts| - 1];
      assert forall u :: u in ts' ==> u in ts;
      CategoryTotalsNonNegative(ts');
      AddToNonNegative(CategoryTotals(ts'), t.categoryId, t.amount);
    }
  }

  /** With non-negative numbers, the chart amounts add up to at most the map's numbers. */
  lemma {:induction false} ResolveAmountsAtMost(m: seq<(string, real)>, categories: seq<Category>, total: real, palette: Palette)
    requires forall x :: x in m ==> x.1 >= 0.0
    ensures SumOf(Resolve(m, categories, total, palette), ExpenseAmount) <= SumOf(m, EntryValue)
  {
    if m != [] {
      var m', x := m[..|m| - 1], m[|m| - 1];
      assert m == m' + [x];
      assert forall y :: y in m' ==> y in m;
      ResolveAmountsAtMost(m', categories, total, palette);
      ResolveSnoc(m', x, categories, total, palette);
      var r' := Resolve(m', categories, total, palette);
      var r := Resolve(m, categories, total, palette);
      assert x in m;
      if |r| > |r'| {
        assert r[..|r'|] == r';
        assert SumOf(r, ExpenseAmount) == SumOf(r', ExpenseAmount) + r[|r'|].amount;
      }
    }
  }

  /**
   * With non-negative amounts the percentages of the chart add up to at most 100: the
   * expenses of categories that no longer exist count in the total but have no entry.
   */
  lemma ExpensePercentagesAtMost100(monthly: seq<Transaction>, categories: seq<Category>, palette: Palette)
    requires forall t :: t in monthly ==> t.amount >= 0.0
    ensures SumOf(ExpenseBreakdown(monthly, categories, palette), ExpensePercentage) <= 100.0
  {
    var expenses := Expenses(monthly);
    var total := SumOf(expenses, Amount);
    var m := CategoryTotals(expenses);
    var r := Resolve(m, categories, total, palette);
    var b := ExpenseBreakdown(monthly, categories, palette);
    FilterSound(monthly, OfType(Expense));
    CategoryTotalsNonNegative(expenses);
    ResolveAmountsAtMost(m, categories, total, palette);
    CategoryTotalsSum(expenses);
    SortDescBySpec(r, ExpenseAmount);
    SumPermutation(r, b, ExpenseAmount);
    SortedEntries(m, categories, total, palette);
    SharesAdd(b, total);
    PercentageAtMost(SumOf(b, ExpenseAmount), total);
  }

  lemma PercentageAtMost(amount: real, total: real)
    requires amount <= total
    ensures Percentage(amount, total) <= 100.0
  {
    if total > 0.0 {
      assert amount / total <= 1.0 by {
        assert amount / total * total == amount;
      }
    }
  }

  /** With non-negative amounts every percentage of the chart lies between 0 and 100. */
  lemma ExpensePercentagesBounded(monthly: seq<Transaction>, categories: seq<Category>, palette: Palette)
    requires forall t :: t in monthly ==> t.amount >= 0.0
    ensures forall e :: e in ExpenseBreakdown(monthly, categories, palette) ==> 0.0 <= e.percentage <= 100.0
  {
    var expenses := Expenses(monthly);
    var total := TotalExpenses(monthly);
    ExpenseBreakdownEntries(monthly, categories, palette);
    FilterSound(monthly, OfType(Expense));
    forall e | e in ExpenseBreakdown(monthly, categories, palette)
      ensures 0.0 <= e.percentage <= 100.0
    {
      var f := Filter(expenses, HasCategoryId(e.categoryId));
      FilterSound(expenses, HasCategoryId(e.categoryId));
      SumNonNegative(f, Amount);
      SumFilter(expenses, Amount, HasCategoryId(e.categoryId));
      SumMonotone(expenses, Masked(Amount, HasCategoryId(e.categoryId)), Amount);
      if total > 0.0 {
        PercentageBounded(e.amount, total);
      }
    }
  }

  lemma PercentageBounded(amount: real, total: real)
    requires 0.0 <= amount <= total && total > 0.0
    ensures 0.0 <= Percentage(amount, total) <= 100.0
  {
    assert amount / total <= 1.0 by {
      assert amount / total * total == amount;
    }
  }

  /** One more transaction of the list: its amount is added under its category id. */
  lemma FillStep(expenses: seq<Transaction>, i: int)
    requires 0 <= i < |expenses|
    ensures AddTo(CategoryTotals(expenses[..i]), expenses[i].categoryId, expenses[i].amount) == CategoryTotals(expenses[..i + 1])
  {
    var t, done := expenses[i], expenses[..i];
    assert expenses[..i + 1] == done + [t];
    CategoryTotalsSnoc(done, t);
  }

  /** The `expenseTransactions.forEach` loop that fills `categoryMap`. */
  method FillCategoryMap(expenses: seq<Transaction>) returns (categoryMap: seq<(string, real)>)
    ensures categoryMap == CategoryTotals(expenses)
  {
    categoryMap := [];
    for i := 0 to |expenses|
      invariant categoryMap == CategoryTotals(expenses[..i])
    {
      var t := expenses[i];
      FillStep(expenses, i);
      categoryMap := AddTo(categoryMap, t.categoryId, t.amount);
    }
    assert expenses[..|expenses|] == expenses;
  }

  /** One more map entry: a chart entry is appended exactly when its id names a category. */
  lemma ResolveStep(m: seq<(string, real)>, j: int, categories: seq<Category>, total: real, palette: Palette)
    requires 0 <= j < |m|
    ensures FindFirst(categories, CategoryWithId(m[j].0)).None? ==>
      Resolve(m[..j + 1], categories, total, palette) == Resolve(m[..j], categories, total, palette)
    ensures FindFirst(categories, CategoryWithId(m[j].0)).Some? ==>
      Resolve(m[..j + 1], categories, total, palette) == Resolve(m[..j], categories, total, palette)
        + [CategoryExpense(m[j].0, FindFirst(categories, CategoryWithId(m[j].0)).value.name,
                           FindFirst(categories, CategoryWithId(m[j].0)).value.icon, m[j].1, Percentage(m[j].1, total),
                           palette[|Resolve(m[..j], categories, total, palette)| % |palette|])]
  {
    assert m[..j + 1] == m[..j] + [m[j]];
    ResolveSnoc(m[..j], m[j], categories, total, palette);
  }

  /** The `categoryMap.forEach` loop that builds the chart entries with a running colour index. */
  method BuildEntries(categoryMap: seq<(string, real)>, categories: seq<Category>, totalExpenses: real, palette: Palette)
    returns (result: seq<CategoryExpense>)
    ensures result == Resolve(categoryMap, categories, totalExpenses, palette)
  {
    result := [];
    var colorIndex := 0;
    for j := 0 to |categoryMap|
      invariant result == Resolve(categoryMap[..j], categories, totalExpenses, palette)
      invariant colorIndex == |result|
    {
      var (categoryId, amount) := categoryMap[j];
      ResolveStep(categoryMap, j, categories, totalExpenses, palette);
      var category := FindFirst(categories, CategoryWithId(categoryId));
      if category.Some? {
        var percentage := if totalExpenses > 0.0 then (amount / totalExpenses) * 100.0 else 0.0;
        result := result + [CategoryExpense(categoryId, category.value.name, category.value.icon, amount,
                                            percentage, palette[colorIndex % |palette|])];
        colorIndex := colorIndex + 1;
      }
    }
    assert categoryMap[..|categoryMap|] == categoryMap;
  }

  /** `expensesByCategory` as the hook computes it: the two loops above, then the sort. */
  method ExpensesByCategory(monthly: seq<Transaction>, categories: seq<Category>) returns (result: seq<CategoryExpense>)
    ensures result == ExpenseBreakdown(monthly, categories, ChartColors)
  {
    var expenseTransactions := Expenses(monthly);
    var totalExpenses := SumOf(expenseTransactions, Amount);
    var categoryMap := FillCategoryMap(expenseTransactions);
    result := BuildEntries(categoryMap, categories, totalExpenses, ChartColors);
    result := SortDescBy(result, ExpenseAmount);
  }

  // ------------------------------------------------------------------ recent transactions

  /** `new Date(t.date).getTime()`, as far as the order of days goes. */
  function DateKeyOf(t: Transaction): real { DateKey(t.date) }

  /** `recentTransactions`: a copy sorted newest first, cut to its first ten. */
  function RecentTransactions(ts: seq<Transaction>): (r: seq<Transaction>)
    ensures |r| == if |ts| < 10 then |ts| else 10
  {
    var sorted := SortDescBy(ts, DateKeyOf);
    sorted[..if |sorted| < 10 then |sorted| else 10]
  }

  /** The list is newest first, and no transaction left out is newer than one shown. */
  lemma RecentTransactionsOrder(ts: seq<Transaction>)
    ensures SortedDesc(RecentTransactions(ts), DateKeyOf)
    ensures forall x, y :: x in RecentTransactions(ts) && y in multiset(ts) - multiset(RecentTransactions(ts)) ==>
      DateKeyOf(x) >= DateKeyOf(y)
  {
    var s := SortDescBy(ts, DateKeyOf);
    SortDescBySpec(ts, DateKeyOf);
    SortedTake(s, if |s| < 10 then |s| else 10, DateKeyOf);
  }

  /** The list shows transactions of the store, each as often as stored, and all of them when there are at most ten. */
  lemma RecentTransactionsContents(ts: seq<Transaction>)
    ensures multiset(RecentTransactions(ts)) <= multiset(ts)
    ensures |ts| <= 10 ==> multiset(RecentTransactions(ts)) == multiset(ts)
  {
    var s := SortDescBy(ts, DateKeyOf);
    var n := if |s| < 10 then |s| else 10;
    SortDescBySpec(ts, DateKeyOf);
    assert RecentTransactions(ts) == s[..n];
    assert s == s[..n] + s[n..];
  }
}
