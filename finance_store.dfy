/**
 * The state kept by the finance hook (src/hooks/useFinanceData.ts): three ordered
 * collections and the selected month, changed only through the add / update / delete
 * callbacks, the reset, and the merge of data read back from the storage file.
 */
module FinanceStore {
  import opened Options
  import opened Seqs
  import opened Records
  import opened Finance

  /**
   * The fields an update passes for a transaction (`Partial<Transaction>` without the id).
   * An outer `None` is a key that is not passed; for the optional fields an inner `None`
   * is a key passed as `undefined`, which clears the field.
   */
  datatype TransactionPatch = TransactionPatch(
    description: Option<string>,
    amount: Option<real>,
    kind: Option<TransactionType>,
    date: Option<Date>,
    categoryId: Option<string>,
    paymentMethodId: Option<string>,
    notes: Option<Option<string>>,
    items: Option<Option<seq<TransactionItem>>>)

  datatype CategoryPatch = CategoryPatch(
    name: Option<string>,
    icon: Option<string>,
    expenseType: Option<Option<ExpenseType>>,
    kind: Option<TransactionType>)

  datatype PaymentMethodPatch = PaymentMethodPatch(
    name: Option<string>,
    kind: Option<PaymentMethodType>,
    limit: Option<Option<real>>,
    closingDay: Option<Option<int>>,
    dueDay: Option<Option<int>>)

  /** `{ ...t, ...updates }` for a transaction. */
  function PatchTransaction(p: TransactionPatch): Transaction -> Transaction {
    (t: Transaction) => Transaction(t.id, p.description.GetOr(t.description), p.amount.GetOr(t.amount),
      p.kind.GetOr(t.kind), p.date.GetOr(t.date), p.categoryId.GetOr(t.categoryId),
      p.paymentMethodId.GetOr(t.paymentMethodId), p.notes.GetOr(t.notes), p.items.GetOr(t.items))
  }

  function PatchCategory(p: CategoryPatch): Category -> Category {
    (c: Category) => Category(c.id, p.name.GetOr(c.name), p.icon.GetOr(c.icon),
      p.expenseType.GetOr(c.expenseType), p.kind.GetOr(c.kind))
  }

  function PatchMethod(p: PaymentMethodPatch): PaymentMethod -> PaymentMethod {
    (m: PaymentMethod) => PaymentMethod(m.id, p.name.GetOr(m.name), p.kind.GetOr(m.kind),
      p.limit.GetOr(m.limit), p.closingDay.GetOr(m.closingDay), p.dueDay.GetOr(m.dueDay))
  }

  /** Every key of a transaction passed: what the form's `onSave` payload is. */
  function FullTransactionPatch(d: Transaction): TransactionPatch {
    TransactionPatch(Some(d.description), Some(d.amount), Some(d.kind), Some(d.date), Some(d.categoryId),
      Some(d.paymentMethodId), Some(d.notes), Some(d.items))
  }

  /** A merge keeps the id, and a payload with every key replaces every other field. */
  lemma PatchTransactionSpec(t: Transaction, p: TransactionPatch, d: Transaction)
    ensures PatchTransaction(p)(t).id == t.id
    ensures PatchTransaction(FullTransactionPatch(d))(t) == d.(id := t.id)
    ensures PatchTransaction(TransactionPatch(None, None, None, None, None, None, None, None))(t) == t
  {
  }

  /** What the storage file holds; a missing key is `None`. */
  datatype StoredData = StoredData(
    categories: Option<seq<Category>>,
    paymentMethods: Option<seq<PaymentMethod>>,
    transactions: Option<seq<Transaction>>)

  class Store {
    var transactions: seq<Transaction>
    var categories: seq<Category>
    var paymentMethods: seq<PaymentMethod>
    var selectedMonth: Date
    /** `defaultCategories` and `defaultPaymentMethods` of src/data/initialData.ts. */
    const defaultCategories: seq<Category>
    const defaultPaymentMethods: seq<PaymentMethod>

    constructor (defaultCategories: seq<Category>, defaultPaymentMethods: seq<PaymentMethod>, today: Date)
      ensures this.defaultCategories == defaultCategories && this.defaultPaymentMethods == defaultPaymentMethods
      ensures categories == defaultCategories && paymentMethods == defaultPaymentMethods
      ensures transactions == [] && selectedMonth == today
    {
      this.defaultCategories, this.defaultPaymentMethods := defaultCategories, defaultPaymentMethods;
      categories, paymentMethods, transactions := defaultCategories, defaultPaymentMethods, [];
      selectedMonth := today;
    }

    /**
     * The load rule of `loadInitialData` and `connectToFile`: categories and payment
     * methods are taken only when the file has a non-empty list, transactions whenever
     * the file has the key (an empty list included).
     */
    method ApplyLoaded(data: Option<StoredData>)
      modifies this
      ensures data.Some? && data.value.categories.Some? && data.value.categories.value != []
              ==> categories == data.value.categories.value
      ensures !(data.Some? && data.value.categories.Some? && data.value.categories.value != [])
              ==> categories == old(categories)
      ensures data.Some? && data.value.paymentMethods.Some? && data.value.paymentMethods.value != []
              ==> paymentMethods == data.value.paymentMethods.value
      ensures !(data.Some? && data.value.paymentMethods.Some? && data.value.paymentMethods.value != [])
              ==> paymentMethods == old(paymentMethods)
      ensures transactions == if data.Some? && data.value.transactions.Some?
                              then data.value.transactions.value else old(transactions)
      ensures selectedMonth == old(selectedMonth)
    {
      if data.Some? {
        var d := data.value;
        if d.categories.Some? && |d.categories.value| > 0 {
          categories := d.categories.value;
        }
        if d.paymentMethods.Some? && |d.paymentMethods.value| > 0 {
          paymentMethods := d.paymentMethods.value;
        }
        if d.transactions.Some? {
          transactions := d.transactions.value;
        }
      }
    }

    /** `setSelectedMonth`. */
    method SetSelectedMonth(d: Date)
      modifies this
      ensures selectedMonth == d
      ensures transactions == old(transactions) && categories == old(categories)
      ensures paymentMethods == old(paymentMethods)
    {
      selectedMonth := d;
    }

    /** `addTransaction`: the payload with the id `tr-<stamp>`, appended at the end. */
    method AddTransaction(data: Transaction, stamp: string)
      modifies this
      ensures transactions == old(transactions) + [data.(id := "tr-" + stamp)]
      ensures categories == old(categories) && paymentMethods == old(paymentMethods)
      ensures selectedMonth == old(selectedMonth)
    {
      transactions := transactions + [data.(id := "tr-" + stamp)];
    }

    /** `updateTransaction`: the fields merged into the transactions with the id, all else as it was. */
    method UpdateTransaction(id: string, patch: TransactionPatch)
      modifies this
      ensures transactions == UpdateKey(old(transactions), IdOfTransaction, id, PatchTransaction(patch))
      ensures forall i :: 0 <= i < |transactions| ==> transactions[i].id == old(transactions)[i].id
      ensures categories == old(categories) && paymentMethods == old(paymentMethods)
      ensures selectedMonth == old(selectedMonth)
    {
      transactions := UpdateKey(transactions, IdOfTransaction, id, PatchTransaction(patch));
    }

    /** `deleteTransaction`. */
    method DeleteTransaction(id: string)
      modifies this
      ensures transactions == RemoveKey(old(transactions), IdOfTransaction, id)
      ensures forall t :: t in transactions <==> t in old(transactions) && t.id != id
      ensures categories == old(categories) && paymentMethods == old(paymentMethods)
      ensures selectedMonth == old(selectedMonth)
    {
      RemoveKeySpec(transactions, IdOfTransaction, id);
      transactions := RemoveKey(transactions, IdOfTransaction, id);
    }

    /** `addCategory`: the payload with the id `cat-<stamp>`, appended at the end. */
    method AddCategory(data: Category, stamp: string)
      modifies this
      ensures categories == old(categories) + [data.(id := "cat-" + stamp)]
      ensures transactions == old(transactions) && paymentMethods == old(paymentMethods)
      ensures selectedMonth == old(selectedMonth)
    {
      categories := categories + [data.(id := "cat-" + stamp)];
    }

    /** `updateCategory`. */
    method UpdateCategory(id: string, patch: CategoryPatch)
      modifies this
      ensures categories == UpdateKey(old(categories), IdOfCategory, id, PatchCategory(patch))
      ensures forall i :: 0 <= i < |categories| ==> categories[i].id == old(categories)[i].id
      ensures transactions == old(transactions) && paymentMethods == old(paymentMethods)
      ensures selectedMonth == old(selectedMonth)
    {
      categories := UpdateKey(categories, IdOfCategory, id, PatchCategory(patch));
    }

    /**
     * `deleteCategory`: the transactions are not touched, so those that used the category
     * now refer to an id that no longer resolves.
     */
    method DeleteCategory(id: string)
      modifies this
      ensures categories == RemoveKey(old(categories), IdOfCategory, id)
      ensures forall c :: c in categories <==> c in old(categories) && c.id != id
      ensures GetCategoryById(id).None?
      ensures transactions == old(transactions) && paymentMethods == old(paymentMethods)
      ensures selectedMonth == old(selectedMonth)
    {
      RemoveKeySpec(categories, IdOfCategory, id);
      categories := RemoveKey(categories, IdOfCategory, id);
    }

    /** `addPaymentMethod`: the payload with the id `pm-<stamp>`, appended at the end. */
    method AddPaymentMethod(data: PaymentMethod, stamp: string)
      modifies this
      ensures paymentMethods == old(paymentMethods) + [data.(id := "pm-" + stamp)]
      ensures transactions == old(transactions) && categories == old(categories)
      ensures selectedMonth == old(selectedMonth)
    {
      paymentMethods := paymentMethods + [data.(id := "pm-" + stamp)];
    }

    /** `updatePaymentMethod`. */
    method UpdatePaymentMethod(id: string, patch: PaymentMethodPatch)
      modifies this
      ensures paymentMethods == UpdateKey(old(paymentMethods), IdOfMethod, id, PatchMethod(patch))
      ensures forall i :: 0 <= i < |paymentMethods| ==> paymentMethods[i].id == old(paymentMethods)[i].id
      ensures transactions == old(transactions) && categories == old(categories)
      ensures selectedMonth == old(selectedMonth)
    {
      paymentMethods := UpdateKey(paymentMethods, IdOfMethod, id, PatchMethod(patch));
    }

    /** `deletePaymentMethod`: the transactions are not touched. */
    method DeletePaymentMethod(id: string)
      modifies this
      ensures paymentMethods == RemoveKey(old(paymentMethods), IdOfMethod, id)
      ensures forall m :: m in paymentMethods <==> m in old(paymentMethods) && m.id != id
      ensures GetPaymentMethodById(id).None?
      ensures transactions == old(transactions) && categories == old(categories)
      ensures selectedMonth == old(selectedMonth)
    {
      RemoveKeySpec(paymentMethods, IdOfMethod, id);
      paymentMethods := RemoveKey(paymentMethods, IdOfMethod, id);
    }

    /** `getCategoryById`: the first category with the id. */
    function GetCategoryById(id: string): (r: Option<Category>)
      reads this
      ensures r.Some? <==> exists i :: 0 <= i < |categories| && categories[i].id == id
      ensures r.Some? ==> r.value in categories && r.value.id == id
      ensures r.Some? ==> exists i :: 0 <= i < |categories| && categories[i] == r.value && forall j :: 0 <= j < i ==> categories[j].id != id
    {
      FindFirst(categories, CategoryWithId(id))
    }

    /** `getPaymentMethodById`: the first payment method with the id. */
    function GetPaymentMethodById(id: string): (r: Option<PaymentMethod>)
      reads this
      ensures r.Some? <==> exists i :: 0 <= i < |paymentMethods| && paymentMethods[i].id == id
      ensures r.Some? ==> r.value in paymentMethods && r.value.id == id
      ensures r.Some? ==> exists i :: 0 <= i < |paymentMethods| && paymentMethods[i] == r.value && forall j :: 0 <= j < i ==> paymentMethods[j].id != id
    {
      FindFirst(paymentMethods, MethodWithId(id))
    }

    /** `clearAllData`: no transactions, and the default categories and payment methods back. */
    method ClearAllData()
      modifies this
      ensures transactions == [] && categories == defaultCategories && paymentMethods == defaultPaymentMethods
      ensures selectedMonth == old(selectedMonth)
    {
      transactions := [];
      categories := defaultCategories;
      paymentMethods := defaultPaymentMethods;
    }
  }
}
