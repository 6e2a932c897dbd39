/**
 * The categories page (src/pages/CategoriesView.tsx): the expense and income lists,
 * and the form and delete dialog that add, edit and remove categories in the store.
 */
module CategoriesViews {
  import opened Options
  import opened Seqs
  import opened Records
  import opened Finance
  import opened FinanceStore

  /** The icon a new category starts with. */
  const DefaultIcon: string := "Coins"

  function OfKind(kind: TransactionType): Category -> bool {
    (c: Category) => c.kind == kind
  }

  /** `expenseCategories`. */
  function ExpenseCategories(categories: seq<Category>): seq<Category> {
    Filter(categories, OfKind(Expense))
  }

  /** `incomeCategories`. */
  function IncomeCategories(categories: seq<Category>): seq<Category> {
    Filter(categories, OfKind(Income))
  }

  /** Every category is listed exactly once, under its own type. */
  lemma CategoryListsPartition(categories: seq<Category>)
    ensures multiset(ExpenseCategories(categories)) + multiset(IncomeCategories(categories)) == multiset(categories)
    ensures forall c :: c in ExpenseCategories(categories) <==> c in categories && c.kind == Expense
    ensures forall c :: c in IncomeCategories(categories) <==> c in categories && c.kind == Income
  {
    FilterPartition(categories, OfKind(Expense), OfKind(Income));
    FilterSound(categories, OfKind(Expense));
    FilterComplete(categories, OfKind(Expense));
    FilterSound(categories, OfKind(Income));
    FilterComplete(categories, OfKind(Income));
  }

  /** The lists keep the store's order: a category added last shows last in its own list only. */
  lemma CategoryListsAppend(categories: seq<Category>, c: Category)
    ensures ExpenseCategories(categories + [c]) ==
      ExpenseCategories(categories) + (if c.kind == Expense then [c] else [])
    ensures IncomeCategories(categories + [c]) ==
      IncomeCategories(categories) + (if c.kind == Income then [c] else [])
  {
    FilterSnoc(categories, c, OfKind(Expense));
    FilterSnoc(categories, c, OfKind(Income));
  }

  /** `type === 'expense' ? expenseType : undefined`. */
  function SavedExpenseType(kind: TransactionType, expenseType: ExpenseType): Option<ExpenseType> {
    if kind == Expense then Some(expenseType) else None
  }

  /** The object `handleSubmit` passes to `onAddCategory`; the store gives it its id. */
  function FormCategory(name: string, kind: TransactionType, expenseType: ExpenseType, icon: string): Category {
    Category("", name, icon, SavedExpenseType(kind, expenseType), kind)
  }

  /** The same object as the update passed to `onUpdateCategory`: every key present. */
  function FormPatch(name: string, kind: TransactionType, expenseType: ExpenseType, icon: string): CategoryPatch {
    CategoryPatch(Some(name), Some(icon), Some(SavedExpenseType(kind, expenseType)), Some(kind))
  }

  /**
   * Either way the saved category holds the form's name, type and icon, and an expense
   * type exactly when it is an expense category; an edit keeps the category's id.
   */
  lemma SavedCategory(c: Category, name: string, kind: TransactionType, expenseType: ExpenseType, icon: string)
    ensures PatchCategory(FormPatch(name, kind, expenseType, icon))(c) == FormCategory(name, kind, expenseType, icon).(id := c.id)
    ensures var s := FormCategory(name, kind, expenseType, icon);
      s.name == name && s.kind == kind && s.icon == icon
      && (s.expenseType.Some? <==> kind == Expense)
      && (kind == Expense ==> s.expenseType == Some(expenseType))
  {
  }

  /**
   * Opening the edit form on a category and saving it untouched leaves the category as it
   * was, provided it is consistent (an expense type exactly on expense categories).  An
   * expense category stored without an expense type comes back as variable.
   */
  lemma EditUntouchedKeepsCategory(c: Category)
    requires c.expenseType.Some? <==> c.kind == Expense
    ensures PatchCategory(FormPatch(c.name, c.kind, c.expenseType.GetOr(Variable), c.icon))(c) == c
  {
  }

  lemma EditAddsVariable(c: Category)
    requires c.kind == Expense && c.expenseType.None?
    ensures PatchCategory(FormPatch(c.name, c.kind, c.expenseType.GetOr(Variable), c.icon))(c) == c.(expenseType := Some(Variable))
  {
  }

  class CategoriesPage {
    /** The store the page's callbacks act on. */
    const store: Store
    var showForm: bool
    var editingCategory: Option<Category>
    var deleteId: Option<string>
    var name: string
    var kind: TransactionType
    var expenseType: ExpenseType
    var icon: string

    constructor (store: Store)
      ensures this.store == store
      ensures AtDefaults() && deleteId.None?
    {
      this.store := store;
      showForm, editingCategory, deleteId := false, None, None;
      name, kind, expenseType, icon := "", Expense, Variable, DefaultIcon;
    }

    /** The form's initial state: empty name, expense, variable, the default icon, hidden, no edit. */
    predicate AtDefaults()
      reads this
    {
      name == "" && kind == Expense && expenseType == Variable && icon == DefaultIcon
      && !showForm && editingCategory.None?
    }

    /** `openEditForm`: the form shows the category's fields; a missing expense type reads as variable. */
    method OpenEditForm(c: Category)
      modifies this
      ensures editingCategory == Some(c) && showForm
      ensures name == c.name && kind == c.kind && expenseType == c.expenseType.GetOr(Variable) && icon == c.icon
      ensures deleteId == old(deleteId)
    {
      editingCategory := Some(c);
      name, kind, expenseType, icon := c.name, c.kind, c.expenseType.GetOr(Variable), c.icon;
      showForm := true;
    }

    /** `openNewForm`: the defaults, shown, with nothing being edited. */
    method OpenNewForm()
      modifies this
      ensures editingCategory.None? && showForm
      ensures name == "" && kind == Expense && expenseType == Variable && icon == DefaultIcon
      ensures deleteId == old(deleteId)
    {
      editingCategory := None;
      name, kind, expenseType, icon := "", Expense, Variable, DefaultIcon;
      showForm := true;
    }

    /** `resetForm`. */
    method ResetForm()
      modifies this
      ensures AtDefaults()
      ensures deleteId == old(deleteId)
    {
      name, kind, expenseType, icon := "", Expense, Variable, DefaultIcon;
      showForm := false;
      editingCategory := None;
    }

    /**
     * `handleSubmit`: nothing happens without a name; otherwise the edited category is
     * updated (or a new one added with the id `cat-<stamp>`) and the form is reset.
     */
    method Submit(stamp: string)
      modifies this, store
      ensures old(name) == "" ==> unchanged(this) && unchanged(store)
      ensures old(name) != "" && old(editingCategory).Some? ==>
        store.categories == UpdateKey(old(store.categories), IdOfCategory, old(editingCategory).value.id,
                                      PatchCategory(FormPatch(old(name), old(kind), old(expenseType), old(icon))))
      ensures old(name) != "" && old(editingCategory).None? ==>
        store.categories == old(store.categories)
                            + [FormCategory(old(name), old(kind), old(expenseType), old(icon)).(id := "cat-" + stamp)]
      ensures old(name) != "" ==> AtDefaults() && deleteId == old(deleteId)
      ensures store.transactions == old(store.transactions) && store.paymentMethods == old(store.paymentMethods)
      ensures store.selectedMonth == old(store.selectedMonth)
    {
      if name == "" {
        return;
      }
      if editingCategory.Some? {
        store.UpdateCategory(editingCategory.value.id, FormPatch(name, kind, expenseType, icon));
      } else {
        store.AddCategory(FormCategory(name, kind, expenseType, icon), stamp);
      }
      ResetForm();
    }

    /** The trash button: `setDeleteId(category.id)` opens the confirmation. */
    method AskDelete(id: string)
      modifies this
      ensures deleteId == Some(id)
      ensures name == old(name) && kind == old(kind) && expenseType == old(expenseType) && icon == old(icon)
      ensures showForm == old(showForm) && editingCategory == old(editingCategory)
    {
      deleteId := Some(id);
    }

    /** Closing the dialog without confirming. */
    method DismissDelete()
      modifies this
      ensures deleteId.None?
      ensures name == old(name) && kind == old(kind) && expenseType == old(expenseType) && icon == old(icon)
      ensures showForm == old(showForm) && editingCategory == old(editingCategory)
    {
      deleteId := None;
    }

    /** `handleDelete`: with an id chosen, the category is deleted and the choice cleared; else nothing. */
    method ConfirmDelete()
      modifies this, store
      ensures !IsTruthy(old(deleteId)) ==> unchanged(this) && unchanged(store)
      ensures IsTruthy(old(deleteId)) ==>
        store.categories == RemoveKey(old(store.categories), IdOfCategory, old(deleteId).value)
        && store.GetCategoryById(old(deleteId).value).None? && deleteId.None?
      ensures name == old(name) && kind == old(kind) && expenseType == old(expenseType) && icon == old(icon)
      ensures showForm == old(showForm) && editingCategory == old(editingCategory)
      ensures store.transactions == old(store.transactions) && store.paymentMethods == old(store.paymentMethods)
      ensures store.selectedMonth == old(store.selectedMonth)
    {
      if IsTruthy(deleteId) {
        store.DeleteCategory(deleteId.value);
        deleteId := None;
      }
    }
  }
}
