# shine-spend, modelled in Dafny

shine-spend is a personal-finance app. It keeps transactions, categories and payment
methods in one JSON file and shows a monthly dashboard: income, expenses, balance, an
expense chart by category, and the latest transactions. This project models the
business rules behind that app and proves what they promise:

- the finance store (`useFinanceData`): its three ordered collections and the selected
  month; the add / update / delete callbacks; the merge of data read back from the file;
  the reset to the default data;
- the dashboard figures: the month filter, the balance, the per-category expense
  breakdown (percentages, palette colours, descending sort), and the ten most recent
  transactions;
- the transaction form: its validation, its main-category rule, the amount sanitiser,
  the sync with the receipt lines, and the reset on a change of type;
- the receipt-items editor: line totals, sums, the one-cent mismatch warning, and adding,
  removing, editing and syncing lines;
- the statement page: the search and filters, the newest-first order, and the grouping
  by month;
- the categories and payment-methods pages: their lists, forms and delete dialogs;
- the month selector and the greeting of the header.

The components that keep state (the form, the items editor, the two settings pages, the
month selector, the store) are Dafny classes. Their handlers are methods that state their
whole new state. The derived values (`useMemo`, `filter`, `reduce`) are functions, with
lemmas for what the app relies on. The two `forEach` loops that fill a map and build the
chart, and the one that groups the statement by month, are methods with loop invariants.
Each of these is proved equal to the function that specifies it.

Modelling choices:

- Money is a Dafny `real`: exact, with no floating-point rounding.
- A date is (year, month 0..11, day), like `getFullYear`, `getMonth` and `getDate`.
- The order of `getTime()` is the order of `DateKey`, which `Finance.DateKeyOrder` shows
  agrees with the calendar.
- `Date.now()` in the generated ids is a `stamp` parameter; the ids are `tr-`, `cat-`,
  `pm-` or `item-` followed by it.
- The clock (`new Date()`, `getHours()`) is a parameter: `today`, `now`, `hour`.
- `parseFloat` on the number inputs of the items editor is a parser parameter. It returns
  `None` for NaN, and the `|| fallback` idiom takes the fallback for NaN and for 0.
- On the settings pages, `parseFloat`, `parseInt` and `toString` are function parameters.
- The amount field of the form is a text field with its own sanitiser. It is read with a
  concrete decimal parser: digits with at most one point, after an optional leading '-'. It is written with an exact
  `toFixed(2)`, which rounds half up.
- `toLowerCase` lowers the ASCII letters only. `trim` removes the JavaScript white-space
  set.
- A JavaScript `Map` and a string-keyed record are modelled as a sequence of (key, value)
  pairs in insertion order, with no repeated key (`OrderedMaps`).
- `Array.prototype.sort` is stable: `Seqs.SortDescBy` is an insertion sort that keeps
  equal keys in input order.
- `formatMonthYear` as a grouping key is the (year, month) pair it names.
- The chart palette is a parameter of the breakdown. `Finance.ChartColors` is the
  ten-colour palette of `src/data/initialData.ts`.

Where the code and the written description of the app differ, the model follows the code:

- The description sums the items as max(0, quantity × price − discount). The code sums
  the stored `totalPrice` of each line, and that stored value can disagree with its own
  fields (Finding 1).
- The description says sync makes the declared total equal the items total. The code
  writes `toFixed(2)` of it, so the two agree to within half a cent; `SyncTotal` states
  that the mismatch warning is then gone, for every list of lines.

## Model

| member | source | states |
|---|---|---|
| ReceiptItems.ItemTotal | src/components/transaction/TransactionItemsEditor.tsx:41-44 | a line total is never negative, is at least quantity × price − discount, and equals it whenever that is non-negative |
| ReceiptItems.Difference | src/components/transaction/TransactionItemsEditor.tsx:48 | the difference plus the items total is the declared total |
| ReceiptItems.ItemsTotalAppend | src/components/transaction/TransactionItemsEditor.tsx:46 | the items total is a sum of the stored line totals: a new line adds exactly its total |
| ReceiptItems.TotalDiscountAppend | src/components/transaction/TransactionItemsEditor.tsx:47 | the discount total adds each stored discount and counts an absent one as 0 |
| ReceiptItems.ItemsTotalNonNegative | src/components/transaction/TransactionItemsEditor.tsx:41-46 | lines whose totals agree with their fields add up to a non-negative total |
| ReceiptItems.NumberOr | src/components/transaction/TransactionItemsEditor.tsx:53-55 | `parseFloat(x) \|\| d` is the parsed number when it is neither NaN nor 0, and the fallback otherwise |
| ReceiptItems.NonEmpty | src/components/transaction/TransactionItemsEditor.tsx:64 | `value \|\| undefined`: absent exactly for the empty string, the string itself otherwise |
| ReceiptItems.NewItem | src/components/transaction/TransactionItemsEditor.tsx:53-65 | the new line has the given id and the trimmed name; the quantity falls back to 1 and is never 0; the price falls back to 0; a discount is stored only when positive; an empty category is absent; the stored total agrees with the stored fields (corrected, see Findings) |
| ReceiptItems.NewItemAsWritten | src/components/transaction/TransactionItemsEditor.tsx:53-65 | the line as the source builds it: the total uses the parsed discount even when that discount is not stored |
| ReceiptItems.NegativeDiscountBreaksLine | src/components/transaction/TransactionItemsEditor.tsx:55-63 | a discount draft of "-5" on one item at 10 stores no discount but a total of 15 |
| ReceiptItems.NewItemAgreesWithoutNegativeDiscount | src/components/transaction/TransactionItemsEditor.tsx:55-63 | the corrected line and the line as written coincide unless the discount draft reads as negative |
| ReceiptItems.RemoveItemSpec | src/components/transaction/TransactionItemsEditor.tsx:80-82 | after a removal no line has the id, every other line remains, nothing is added, and an absent id changes nothing |
| ReceiptItems.RemoveItemTotal | src/components/transaction/TransactionItemsEditor.tsx:80-82 | removing lines takes exactly their totals off the items total |
| ReceiptItems.EditItem | src/components/transaction/TransactionItemsEditor.tsx:86-105 | an edit keeps the line's id |
| ReceiptItems.EditItemSpec | src/components/transaction/TransactionItemsEditor.tsx:88-103 | a quantity, price or discount edit re-reads the number (NaN and 0 give 0) and recomputes the total from the new fields; a name or category edit changes only that field and keeps the total |
| ReceiptItems.UpdateItem | src/components/transaction/TransactionItemsEditor.tsx:84-107 | the list keeps its length; lines with another id are unchanged; lines with the id get the edit |
| ReceiptItems.EditKeepsWellFormed | src/components/transaction/TransactionItemsEditor.tsx:92-100 | an edit of a line whose total agrees with its fields gives a line that still agrees |
| ReceiptItems.UpdateKeepsWellFormed | src/components/transaction/TransactionItemsEditor.tsx:84-107 | editing a list whose lines all agree with their fields keeps every line in agreement |
| ReceiptItems.RemoveKeepsWellFormed | src/components/transaction/TransactionItemsEditor.tsx:80-82 | removing lines keeps every remaining line in agreement |
| ItemsEditors.ItemsEditor.constructor | src/components/transaction/TransactionItemsEditor.tsx:31-36 | the editor starts expanded exactly when there are lines, with empty drafts and a quantity draft of "1" |
| ItemsEditors.ItemsEditor.ToggleExpanded | src/components/transaction/TransactionItemsEditor.tsx:31 | the expanded flag flips and the drafts stay |
| ItemsEditors.ItemsEditor.AddItem | src/components/transaction/TransactionItemsEditor.tsx:50-78 | without a name and a price draft nothing changes; otherwise exactly one line is appended (corrected, see Findings), the drafts are cleared, the declared total becomes the new line's total (to the cent) only when the list was empty, and lines that agreed with their fields still do |
| ItemsEditors.ItemsEditor.RemoveItem | src/components/transaction/TransactionItemsEditor.tsx:80-82 | the form's lines become the removal's result; the declared total and the rest of the form stay |
| ItemsEditors.ItemsEditor.UpdateItem | src/components/transaction/TransactionItemsEditor.tsx:84-107 | the form's lines become the edit's result, keeping agreement with their fields; the rest of the form stays |
| ItemsEditors.ItemsEditor.SyncTotal | src/components/transaction/TransactionItemsEditor.tsx:109-111 | the declared total is the items total written with two decimals, and the mismatch warning is then gone for every list of lines, negative totals included |
| TransactionForms.MainCategoryId | src/components/transaction/TransactionForm.tsx:94-96 | an expense takes its first line's category when that line has one, else the form's; an income takes the form's |
| TransactionForms.GuardNeedsItemsValid | src/components/transaction/TransactionForm.tsx:56 | the submit guard holds exactly when `itemsValid`, the category check of an income and the non-empty field checks hold, so a disabled button and a refused submit agree |
| TransactionForms.LonePointPassesGuard | src/components/transaction/TransactionForm.tsx:74-117 | the amount "." passes the sanitiser and every early return of the submit, but does not read as a number |
| TransactionForms.AcceptedAmountShape | src/components/transaction/TransactionForm.tsx:110-117 | whatever the sanitiser accepts holds only digits and '.', at most one '.', and at most two characters after it |
| TransactionForms.FixedAmountShape | src/components/transaction/TransactionForm.tsx:119-121 | what `toFixed(2)` writes for a non-negative total has the same shape |
| TransactionForms.TransactionForm.constructor | src/components/transaction/TransactionForm.tsx:36-68 | a new form starts as an empty expense dated today; an edit form copies the transaction, its category cleared only when that category is of the other type; after the type effect no category of the other type is selected and an income has no lines |
| TransactionForms.TransactionForm.RunTypeEffect | src/components/transaction/TransactionForm.tsx:58-68 | a selected category of the other type is cleared, an income loses its lines, and nothing else changes |
| TransactionForms.TransactionForm.SetType | src/components/transaction/TransactionForm.tsx:58-68 | switching to income clears the lines, switching to expense keeps them, and a category of the other type is cleared |
| TransactionForms.TransactionForm.SelectCategory | src/components/transaction/TransactionForm.tsx:58-68 | the chosen category is kept unless it is of the other type |
| TransactionForms.TransactionForm.SetItems | src/components/transaction/TransactionForm.tsx:47 | the lines are replaced and nothing else changes |
| TransactionForms.TransactionForm.AmountChange | src/components/transaction/TransactionForm.tsx:110-117 | the sanitised text is taken exactly when it has at most one point and at most two characters after it, otherwise the old text stays; the field's shape is preserved |
| TransactionForms.TransactionForm.TotalChange | src/components/transaction/TransactionForm.tsx:119-121 | the amount is `toFixed(2)` of the total, and reading it back gives the total rounded to the cent, with its sign |
| TransactionForms.TransactionForm.Submit | src/components/transaction/TransactionForm.tsx:70-108 | a transaction is produced exactly when every guard passes and the amount reads as a number (corrected, see Findings); it carries the form's fields, the main category, the notes only when non-empty, and the lines only for an expense; its category is never empty; its amount is negative only when the text starts with '-' |
| Decimal.Sanitize | src/components/transaction/TransactionForm.tsx:112 | the result holds only digits and '.'; one character is kept exactly when it is a digit or '.'; text made only of them is unchanged |
| Decimal.SanitizeAppend | src/components/transaction/TransactionForm.tsx:112 | the sanitiser of a concatenation is the concatenation of the sanitised halves, so the kept characters stay in order |
| Decimal.SanitizeCount | src/components/transaction/TransactionForm.tsx:112 | each digit and point is kept as often as the input has it, and every other character is dropped |
| Decimal.SanitizeJoinsAtComma | src/components/transaction/TransactionForm.tsx:112 | a comma between two clean parts is dropped and the parts are joined |
| Decimal.SanitizeDropsComma | src/components/transaction/TransactionForm.tsx:112 | "12,50" becomes "1250" |
| Decimal.AmountAcceptedMeaning | src/components/transaction/TransactionForm.tsx:113-115 | the split-based test accepts exactly the text with at most one point and at most two characters after it |
| Decimal.TwoPointsRefused | src/components/transaction/TransactionForm.tsx:114 | text with two points is refused |
| Decimal.ToFixed2RoundTrip | src/components/transaction/TransactionForm.tsx:119-121 | reading back `toFixed(2)` of a number gives it rounded to the cent, a negative number with its sign |
| Decimal.ToFixed2Accepted | src/components/transaction/TransactionForm.tsx:110-121 | what `toFixed(2)` writes passes the amount field's sanitiser unchanged |
| Decimal.RoundCents | src/components/transaction/TransactionForm.tsx:120 | the cents are the nearest whole number of cents |
| Decimal.RoundCentsClose | src/components/transaction/TransactionForm.tsx:120 | rounding to the cent moves a value by at most half a cent |
| Decimal.ParseDecimalRejects | src/components/transaction/TransactionForm.tsx:100 | none of "", "." and "-" reads as a number |
| Decimal.ParseDecimal | src/components/transaction/TransactionForm.tsx:100 | text of digits and points reads as the unsigned reading, and a negative reading comes only from a leading '-' |
| Decimal.ParseUnsigned | src/components/transaction/TransactionForm.tsx:100 | only text of digits and points reads as a number, and that number is non-negative |
| Decimal.ParseDecimalNegates | src/components/transaction/TransactionForm.tsx:100 | a leading '-' reads as the negation of the rest, and as nothing when the rest reads as nothing |
| Text.Trim | src/components/transaction/TransactionItemsEditor.tsx:59 | the result is the infix left once the white space at both ends is cut; it is empty or neither starts nor ends with white space |
| Text.ToLower | src/pages/TransactionsView.tsx:37 | lowering keeps the length and lowers each character |
| Text.Contains | src/pages/TransactionsView.tsx:37 | `includes` holds exactly when the substring occurs at some position |
| Aggregation.MonthlyTransactions | src/hooks/useFinanceData.ts:62-70 | the month's list is no longer than the store's |
| Aggregation.MonthlyTransactionsSpec | src/hooks/useFinanceData.ts:62-70 | exactly the transactions of the selected month and year are kept, in the stored order |
| Aggregation.Balance | src/hooks/useFinanceData.ts:73-87 | the balance is income minus expenses |
| Aggregation.BalanceIsSignedSum | src/hooks/useFinanceData.ts:73-87 | the balance is the sum of the amounts with expenses counted negative, and income and expenses are non-negative when the amounts are |
| Aggregation.BalanceOrderIndependent | src/hooks/useFinanceData.ts:73-87 | income, expenses and balance do not depend on the order of the transactions |
| Aggregation.BalanceAfterAdd | src/hooks/useFinanceData.ts:62-87 | adding a transaction moves the selected month's balance by its signed amount when it is dated in that month, and leaves the balance alone otherwise |
| Aggregation.CategoryTotalsKeys | src/hooks/useFinanceData.ts:94-99 | the map holds each category id once, and exactly the ids the expenses use |
| Aggregation.CategoryTotalsGet | src/hooks/useFinanceData.ts:94-99 | the map's number for an id is the sum of the amounts of the expenses with that id |
| Aggregation.CategoryTotalsSum | src/hooks/useFinanceData.ts:92-99 | the map's numbers add up to the total of the expenses |
| Aggregation.FillCategoryMap | src/hooks/useFinanceData.ts:94-99 | the loop builds exactly the category totals |
| Aggregation.Resolve | src/hooks/useFinanceData.ts:101-117 | the chart has at most one entry per map entry |
| Aggregation.ResolveEntries | src/hooks/useFinanceData.ts:104-116 | each chart entry names an existing category with its name and icon, its amount's share of the total and a palette colour, and comes from a map entry |
| Aggregation.ResolveComplete | src/hooks/useFinanceData.ts:104-116 | every map entry whose id names a category has its chart entry |
| Aggregation.ResolveColors | src/hooks/useFinanceData.ts:102-115 | the k-th entry gets palette colour k mod the palette length: the index advances only for categories that resolve |
| Aggregation.ResolveDistinct | src/hooks/useFinanceData.ts:104-116 | a map without repeated keys gives a chart without repeated categories |
| Aggregation.ResolveAmounts | src/hooks/useFinanceData.ts:104-116 | when every id resolves, the chart amounts add up to the map's numbers |
| Aggregation.BuildEntries | src/hooks/useFinanceData.ts:101-117 | the loop with its running colour index builds exactly the resolved chart |
| Aggregation.ExpensesByCategory | src/hooks/useFinanceData.ts:90-120 | the hook's computation is the specified breakdown |
| Aggregation.ExpenseBreakdownSorted | src/hooks/useFinanceData.ts:119 | the chart is sorted by amount, largest first, and is a permutation of the resolved entries |
| Aggregation.ExpenseBreakdownEntries | src/hooks/useFinanceData.ts:91-117 | each entry describes an existing category, with at least one expense of the month and the sum of their amounts; its percentage is a share of all the month's expenses, including those whose category is gone |
| Aggregation.ExpenseBreakdownDistinct | src/hooks/useFinanceData.ts:94-119 | no category appears twice in the chart |
| Aggregation.ExpenseBreakdownComplete | src/hooks/useFinanceData.ts:94-119 | every existing category of an expense of the month has its entry |
| Aggregation.ExpensePercentagesTotal | src/hooks/useFinanceData.ts:92-112 | with expenses in the month and every category existing, the percentages add up to 100 |
| Aggregation.ExpensePercentagesAtMost100 | src/hooks/useFinanceData.ts:92-116 | with non-negative amounts the percentages add up to at most 100 |
| Aggregation.ExpensePercentagesBounded | src/hooks/useFinanceData.ts:112 | with non-negative amounts each percentage lies between 0 and 100 |
| Aggregation.RecentTransactions | src/hooks/useFinanceData.ts:123-127 | the list has ten entries, or all of them when there are fewer |
| Aggregation.RecentTransactionsOrder | src/hooks/useFinanceData.ts:123-127 | the list is newest first, and no transaction left out is newer than one shown |
| Aggregation.RecentTransactionsContents | src/hooks/useFinanceData.ts:123-127 | the list holds transactions of the store, each as often as stored, and all of them when there are at most ten |
| Seqs.SortDescByStable | src/hooks/useFinanceData.ts:123-127 | the sort is stable: the transactions sharing a date come out in stored order |
| OrderedMaps.AddToGet | src/hooks/useFinanceData.ts:97-98 | after `set(k, (get(k) \|\| 0) + a)`, k holds its old number plus a and no other key changes |
| OrderedMaps.AddToSum | src/hooks/useFinanceData.ts:97-98 | adding a under a key adds a to the sum of the map's numbers |
| OrderedMaps.PushToGet | src/pages/TransactionsView.tsx:50-53 | after a push, the list under k ends with the pushed transaction and no other key changes |
| FinanceStore.PatchTransactionSpec | src/hooks/useFinanceData.ts:138-142 | a merge keeps the id; a payload with every key replaces every other field; an empty one changes nothing |
| FinanceStore.Store.constructor | src/hooks/useFinanceData.ts:19-22 | the store starts with the default categories and payment methods, no transactions, and today selected |
| FinanceStore.Store.ApplyLoaded | src/hooks/useFinanceData.ts:31-57 | categories and payment methods are taken from the file only when its list is non-empty; transactions whenever the key is there |
| FinanceStore.Store.SetSelectedMonth | src/hooks/useFinanceData.ts:22 | only the selected month changes |
| FinanceStore.Store.AddTransaction | src/hooks/useFinanceData.ts:130-136 | exactly one transaction with the id `tr-<stamp>` is appended; the rest of the store stays |
| FinanceStore.Store.UpdateTransaction | src/hooks/useFinanceData.ts:138-142 | the fields are merged into the transactions with the id only; every id stays in place |
| FinanceStore.Store.DeleteTransaction | src/hooks/useFinanceData.ts:144-146 | exactly the transactions with the id are removed |
| FinanceStore.Store.AddCategory | src/hooks/useFinanceData.ts:148-154 | exactly one category with the id `cat-<stamp>` is appended |
| FinanceStore.Store.UpdateCategory | src/hooks/useFinanceData.ts:156-160 | the fields are merged into the categories with the id only |
| FinanceStore.Store.DeleteCategory | src/hooks/useFinanceData.ts:162-164 | exactly the categories with the id are removed, the id no longer resolves, and the transactions are untouched |
| FinanceStore.Store.AddPaymentMethod | src/hooks/useFinanceData.ts:166-172 | exactly one payment method with the id `pm-<stamp>` is appended |
| FinanceStore.Store.UpdatePaymentMethod | src/hooks/useFinanceData.ts:174-178 | the fields are merged into the payment methods with the id only |
| FinanceStore.Store.DeletePaymentMethod | src/hooks/useFinanceData.ts:180-182 | exactly the payment methods with the id are removed, the id no longer resolves, and the transactions are untouched |
| FinanceStore.Store.GetCategoryById | src/hooks/useFinanceData.ts:184-186 | a category is found exactly when one has the id, and it is the first stored category with that id |
| FinanceStore.Store.GetPaymentMethodById | src/hooks/useFinanceData.ts:188-190 | a payment method is found exactly when one has the id, and it is the first stored one with that id |
| FinanceStore.Store.ClearAllData | src/hooks/useFinanceData.ts:193-197 | no transactions remain, and the default categories and payment methods are back |
| Records.RemoveKeySpec | src/hooks/useFinanceData.ts:144-146 | `filter(x => x.id !== id)` drops exactly the records with the id, and changes nothing when there are none |
| Records.RemoveKeyAppend | src/hooks/useFinanceData.ts:144-146 | removal keeps the order of what it keeps |
| Records.UpdateKey | src/hooks/useFinanceData.ts:138-142 | `map(x => x.id === id ? change(x) : x)` changes the records with the id and keeps every other record in place |
| TransactionsViews.FilteredTransactionsSpec | src/pages/TransactionsView.tsx:34-43 | the list is newest first and holds each matching transaction as often as the store does, and nothing else |
| TransactionsViews.NoFiltersKeepsAll | src/pages/TransactionsView.tsx:36-41 | with an empty query and both filters at 'all', every transaction is listed |
| TransactionsViews.GroupedKeys | src/pages/TransactionsView.tsx:45-57 | each month appears once, and exactly the months of the listed transactions appear |
| TransactionsViews.GroupedGet | src/pages/TransactionsView.tsx:45-57 | a month's group is the list's transactions of that month, in list order |
| TransactionsViews.GroupOfEach | src/pages/TransactionsView.tsx:45-57 | every transaction is in the group of its own month and in no other |
| TransactionsViews.GroupByMonth | src/pages/TransactionsView.tsx:45-57 | the loop builds exactly the grouping |
| TransactionsViews.StatementFilters.constructor | src/pages/TransactionsView.tsx:29-32 | the page starts with no query, both filters at 'all', and the panel closed |
| TransactionsViews.StatementFilters.ClearFilters | src/pages/TransactionsView.tsx:62-68 | the query is emptied and both filters return to 'all', so no filter is active; the panel stays as it was |
| TransactionsViews.InactiveFiltersShowAll | src/pages/TransactionsView.tsx:34-68 | without an active filter the page lists every transaction |
| CategoriesViews.CategoryListsPartition | src/pages/CategoriesView.tsx:55-56 | every category is listed exactly once, under its own type |
| CategoriesViews.CategoryListsAppend | src/pages/CategoriesView.tsx:55-56 | the lists keep the store's order |
| CategoriesViews.SavedCategory | src/pages/CategoriesView.tsx:80-94 | the saved category holds the form's name, type and icon, and an expense type exactly when it is an expense category; an edit keeps the id |
| CategoriesViews.EditUntouchedKeepsCategory | src/pages/CategoriesView.tsx:58-86 | saving an opened edit form untouched leaves a consistent category as it was |
| CategoriesViews.EditAddsVariable | src/pages/CategoriesView.tsx:62-86 | an expense category stored without an expense type comes back as variable |
| CategoriesViews.CategoriesPage.constructor | src/pages/CategoriesView.tsx:46-53 | the page starts at the form's defaults with no delete pending |
| CategoriesViews.CategoriesPage.OpenEditForm | src/pages/CategoriesView.tsx:58-65 | the form shows the category's fields, a missing expense type reading as variable |
| CategoriesViews.CategoriesPage.OpenNewForm | src/pages/CategoriesView.tsx:67-74 | the form shows the defaults with nothing being edited |
| CategoriesViews.CategoriesPage.ResetForm | src/pages/CategoriesView.tsx:99-106 | the form returns to its defaults and is hidden |
| CategoriesViews.CategoriesPage.Submit | src/pages/CategoriesView.tsx:76-97 | without a name nothing changes; an edit updates the edited category, otherwise one category `cat-<stamp>` is appended; then the form is at its defaults |
| CategoriesViews.CategoriesPage.AskDelete | src/pages/CategoriesView.tsx:246 | the chosen id is pending deletion and the form stays |
| CategoriesViews.CategoriesPage.DismissDelete | src/pages/CategoriesView.tsx:294 | nothing is pending deletion and the form stays |
| CategoriesViews.CategoriesPage.ConfirmDelete | src/pages/CategoriesView.tsx:108-113 | with an id pending, that category is removed and the choice cleared; otherwise nothing changes |
| PaymentMethodsViews.MethodListsPartition | src/pages/PaymentMethodsView.tsx:51-52 | every payment method is listed exactly once, with the cards or with the others |
| PaymentMethodsViews.MethodListsAppend | src/pages/PaymentMethodsView.tsx:51-52 | the lists keep the store's order |
| PaymentMethodsViews.TypeLabelsDistinct | src/pages/PaymentMethodsView.tsx:112-118 | each type has its own non-empty label |
| PaymentMethodsViews.SavedMethod | src/pages/PaymentMethodsView.tsx:78-90 | a limit, closing day or due day is saved exactly when the method is a credit card and that input is filled in, holding what it reads as; an edit overwrites every field but the id |
| PaymentMethodsViews.EditUntouchedKeepsMethod | src/pages/PaymentMethodsView.tsx:54-87 | saving an opened edit form untouched leaves a consistent method as it was |
| PaymentMethodsViews.PaymentMethodsPage.constructor | src/pages/PaymentMethodsView.tsx:41-49 | the page starts at the form's defaults with no delete pending |
| PaymentMethodsViews.PaymentMethodsPage.OpenEditForm | src/pages/PaymentMethodsView.tsx:54-62 | the form shows the method's fields, an absent number as an empty input |
| PaymentMethodsViews.PaymentMethodsPage.OpenNewForm | src/pages/PaymentMethodsView.tsx:64-72 | the form shows the defaults with nothing being edited |
| PaymentMethodsViews.PaymentMethodsPage.ResetForm | src/pages/PaymentMethodsView.tsx:95-103 | the form returns to its defaults and is hidden |
| PaymentMethodsViews.PaymentMethodsPage.Submit | src/pages/PaymentMethodsView.tsx:74-93 | without a name nothing changes; an edit updates the edited method, otherwise one method `pm-<stamp>` is appended; then the form is at its defaults |
| PaymentMethodsViews.PaymentMethodsPage.AskDelete | src/pages/PaymentMethodsView.tsx:258 | the chosen id is pending deletion and the form stays |
| PaymentMethodsViews.PaymentMethodsPage.DismissDelete | src/pages/PaymentMethodsView.tsx:341 | nothing is pending deletion and the form stays |
| PaymentMethodsViews.PaymentMethodsPage.ConfirmDelete | src/pages/PaymentMethodsView.tsx:105-110 | with an id pending, that method is removed and the choice cleared; otherwise nothing changes |
| MonthSelectors.SetMonthJs | src/components/dashboard/MonthSelector.tsx:13-18 | `setMonth` gives a valid date; the month carries into the year, and a day past the end of the target month runs on into the month after it |
| MonthSelectors.KeptDayOverflows | src/components/dashboard/MonthSelector.tsx:11-21 | as written, "previous" from 31 March stays in March and "next" from 31 January skips February |
| MonthSelectors.AsWrittenMovesWhenDayFits | src/components/dashboard/MonthSelector.tsx:11-21 | as written, the buttons move by one month on days every month has |
| MonthSelectors.PreviousNextMoveOneMonth | src/components/dashboard/MonthSelector.tsx:11-21 | previous and next (corrected) land on the 1st of the month just before and just after, rolling the year over between December and January |
| MonthSelectors.NextUndoesPrevious | src/components/dashboard/MonthSelector.tsx:11-21 | next undoes previous and previous undoes next, up to the day |
| MonthSelectors.SameMonthIsSameIndex | src/components/dashboard/MonthSelector.tsx:27-33 | `isCurrentMonth` compares year and month only, which on valid dates is equality of month indices |
| MonthSelectors.JsDate.SetMonth | src/components/dashboard/MonthSelector.tsx:13-18 | the copy moves as `setMonth` does |
| MonthSelectors.MonthSelector.GoToPreviousMonth | src/components/dashboard/MonthSelector.tsx:11-15 | the selection moves back exactly one month (corrected); the store's data stays |
| MonthSelectors.MonthSelector.GoToNextMonth | src/components/dashboard/MonthSelector.tsx:17-21 | the selection moves forward exactly one month (corrected); the store's data stays |
| MonthSelectors.MonthSelector.GoToCurrentMonth | src/components/dashboard/MonthSelector.tsx:23-33 | the selection becomes now, which disables the next button |
| MonthSelectors.NextReachesCurrent | src/components/dashboard/MonthSelector.tsx:17-33 | from any earlier month, pressing next enough times reaches the current month |
| Headers.GreetingByPeriod | src/components/layout/Header.tsx:4-9 | "Bom dia" exactly before 12, "Boa tarde" exactly from 12 to 17, "Boa noite" exactly from 18 on |
| Headers.EveryHourGreeted | src/components/layout/Header.tsx:4-9 | every hour of the day gets one of the three greetings |
| Finance.DateKeyOrder | src/hooks/useFinanceData.ts:125 | on valid dates the sort key orders dates as the calendar does, and equal keys mean equal dates |

## Left out

- File storage is not part of this model. This covers `useFileSystemStorage`, the File
  System Access API, IndexedDB, permission prompts, the debounced save and the save effect
  of the hook. Only the rule that merges loaded data into the store is modelled
  (`Store.ApplyLoaded`); the data read from the file is its parameter.
- The `isInitialized` flag and the first-load guard of the hook are left out. They are
  I/O sequencing.
- Time zones and times of day are not modelled. A date is a calendar day. `new Date(t.date)`
  and the form's ISO date string are that day.
- Floating point is not modelled. Money is exact, so rounding errors in the sums and
  percentages are not captured. NaN from `parseFloat` shows up only as the `None` of the
  parsers.
- `parseFloat`, `parseInt` and `toString` on the items editor and the settings pages are
  parameters. Their own behaviour is not modelled.
- `toLowerCase` lowers ASCII letters only. Unicode case mapping is not modelled.
- Ids built from `Date.now()` use a `stamp` parameter. That two stamps differ is not
  assumed anywhere.
- `formatMonthYear`, the currency formatting and the other locale formatting of
  `src/lib/formatters.ts` are not part of this model. The grouping key is the (year, month)
  that `formatMonthYear` names.
- All rendering is left out, including the chart and cards of the dashboard and the
  `slice(0, 5)` that shows only five recent transactions.
- `src/pages/Index.tsx` is not part of this model. It does not pass `onUpdateCategory`
  or `onUpdatePaymentMethod` to the settings pages, so their edit paths call an absent
  callback. The model wires those paths to the store's update operations.
- In the transaction form, the form's date is set from an ISO date string
  (`split('T')[0]`). The model keeps the date itself.
- In the transaction form, the description, notes and payment-method inputs are plain
  setters and are not separate members.
- In the items editor, the `getCategoryById` of the editor and the filtered category lists
  of the selects only render.
- TransactionForms.TransactionForm.Submit: refuses an amount that does not read as a
  number (Finding 2). The source would save NaN. The amount text of an edit form is
  `amount.toString()`, which writes exponent notation below 1e-6 and from 1e21 ("1e-7",
  "1e+21"). `Decimal.ParseDecimal` does not read exponents, so such an amount is refused
  where `parseFloat` reads it; the same text makes `TotalAmount` read 0.
- ReceiptItems.NewItem: stores the total computed with the stored discount (Finding 1).
  `NewItemAsWritten` is the source's behaviour. The same applies to
  ItemsEditors.ItemsEditor.AddItem.
- MonthSelectors.MonthSelector.GoToPreviousMonth: moves the day to the 1st before
  `setMonth` (Finding 3). `PreviousAsWritten` is the source's behaviour. The same applies
  to MonthSelectors.MonthSelector.GoToNextMonth.

## Findings

| source | as written | input that shows it | evidently intended | confidence | as-written member | corrected member |
|---|---|---|---|---|---|---|
| src/components/transaction/TransactionItemsEditor.tsx:55-63 | the line total is computed with the parsed discount even when that discount is negative, while a negative discount is not stored | discount draft "-5", quantity "1", price "10": no discount stored, total 15 | the stored total agrees with the stored quantity, price and discount (10 here) | not executed | ReceiptItems.NegativeDiscountBreaksLine | ReceiptItems.NewItem |
| src/components/transaction/TransactionForm.tsx:88-100 | the guard only checks that the amount is non-empty, and the sanitiser lets a lone "." through | amount "." on an income with a category, description and payment method: the guard passes and `parseFloat(".")` is NaN | a transaction is saved only with an amount that reads as a number | not executed | TransactionForms.LonePointPassesGuard | TransactionForms.TransactionForm.Submit |
| src/components/dashboard/MonthSelector.tsx:13-18 | `setMonth` keeps the day of month, and a day the target month lacks runs on into the next month | selected 31 March 2025: "previous" gives 3 March; selected 31 January 2025: "next" gives 3 March | previous and next move exactly one month | not executed | MonthSelectors.KeptDayOverflows | MonthSelectors.PreviousNextMoveOneMonth |
