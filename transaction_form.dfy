/**
 * The transaction form (src/components/transaction/TransactionForm.tsx): the state
 * behind its inputs, the amount field's sanitiser, the reset that follows a change of
 * type, and the rules `handleSubmit` applies before it hands a transaction to the store.
 */
module TransactionForms {
  import opened Options
  import opened Seqs
  import opened Finance
  import opened Decimal
  import opened ReceiptItems

  /** `item.categoryId` is truthy: present and not empty. */
  predicate HasCategory(item: TransactionItem) {
    item.categoryId.Some? && item.categoryId.value != ""
  }

  predicate AllCategorised(items: seq<TransactionItem>) {
    forall i :: 0 <= i < |items| ==> HasCategory(items[i])
  }

  /** `itemsValid`: an income needs nothing; an expense needs a line, and a category on every line. */
  predicate ItemsValid(kind: TransactionType, items: seq<TransactionItem>) {
    kind == Income || (|items| > 0 && AllCategorised(items))
  }

  /**
   * `mainCategoryId`: an expense takes the category of its first line, or the form's own
   * category when that line has none; an income takes the form's category.
   */
  function MainCategoryId(kind: TransactionType, items: seq<TransactionItem>, categoryId: string): (r: string)
    ensures kind == Income ==> r == categoryId
    ensures kind == Expense && |items| > 0 && HasCategory(items[0]) ==> r == items[0].categoryId.value
    ensures kind == Expense && !(|items| > 0 && HasCategory(items[0])) ==> r == categoryId
  {
    if kind == Expense && |items| > 0 && HasCategory(items[0]) then items[0].categoryId.value else categoryId
  }

  /**
   * The early returns of `handleSubmit`, in the source's order: an expense without lines
   * or with an uncategorised line, an income without a category, and an empty
   * description, amount or payment method all stop the submit.
   */
  predicate SubmitGuard(kind: TransactionType, items: seq<TransactionItem>, categoryId: string,
                        description: string, amount: string, paymentMethodId: string) {
    (kind == Expense ==> |items| > 0 && AllCategorised(items))
    && (kind == Income ==> categoryId != "")
    && description != "" && amount != "" && paymentMethodId != ""
  }

  /**
   * The submit button is enabled exactly by `itemsValid`, and the guard of `handleSubmit`
   * needs it: the guard holds exactly when `itemsValid` and the field checks do.
   */
  lemma GuardNeedsItemsValid(kind: TransactionType, items: seq<TransactionItem>, categoryId: string,
                             description: string, amount: string, paymentMethodId: string)
    ensures SubmitGuard(kind, items, categoryId, description, amount, paymentMethodId) ==> ItemsValid(kind, items)
    ensures ItemsValid(kind, items) && (kind == Income ==> categoryId != "")
            && description != "" && amount != "" && paymentMethodId != ""
            ==> SubmitGuard(kind, items, categoryId, description, amount, paymentMethodId)
  {
  }

  /**
   * The guard passes an amount of "." (the sanitiser keeps it: one point, an empty second
   * part), yet `parseFloat(".")` is NaN, so the source would save a NaN amount.
   */
  lemma LonePointPassesGuard()
    ensures Sanitize(".") == "." && AmountAccepted(".")
    ensures SubmitGuard(Income, [], "cat-50", "Salário", ".", "pm-1")
    ensures ParseDecimal(".") == None
  {
    assert AllAmountChars(".") by { assert "."[0] == '.'; }
    ParseDecimalRejects();
    assert "." == "" + ['.'] + "";
    SplitAtSeparator("", "", '.');
  }

  /** What the amount field holds after the sanitiser accepted it or `toFixed(2)` wrote it. */
  predicate AmountShape(amount: string) {
    AllAmountChars(amount) && AtMostTwoDecimals(amount)
  }

  /** Whatever the sanitiser lets into the amount field has only digits and at most one point, with at most two digits after it. */
  lemma AcceptedAmountShape(value: string)
    requires AmountAccepted(Sanitize(value))
    ensures AmountShape(Sanitize(value))
  {
    AmountAcceptedMeaning(Sanitize(value));
  }

  /** What `toFixed(2)` writes for a non-negative total has the same shape. */
  lemma FixedAmountShape(total: real)
    requires total >= 0.0
    ensures AmountShape(ToFixed2(total))
  {
    ToFixed2Accepted(total);
    AmountAcceptedMeaning(ToFixed2(total));
  }

  class TransactionForm {
    var kind: TransactionType
    var description: string
    var amount: string
    var categoryId: string
    var paymentMethodId: string
    var date: Date
    var notes: string
    var items: seq<TransactionItem>

    /**
     * The form opened on `existing` (or on nothing, for a new transaction), followed by the
     * type effect's first run.  `amountText` stands for `existing.amount.toString()`.
     */
    constructor (existing: Option<Transaction>, today: Date, amountText: string, categories: seq<Category>)
      ensures existing.None? ==> kind == Expense && description == "" && amount == "" && paymentMethodId == ""
                                 && date == today && notes == "" && items == [] && categoryId == ""
      ensures existing.Some? ==> var t := existing.value;
        kind == t.kind && description == t.description && amount == amountText
        && paymentMethodId == t.paymentMethodId && date == t.date && notes == t.notes.GetOr("")
        && items == (if t.kind == Income then [] else t.items.GetOr([]))
      ensures existing.Some? ==> var t := existing.value;
        var found := FindFirst(categories, CategoryWithId(t.categoryId));
        categoryId == if found.Some? && found.value.kind != t.kind then "" else t.categoryId
      ensures TypeConsistent(categories)
    {
      if existing.Some? {
        var t := existing.value;
        kind, description, amount, categoryId := t.kind, t.description, amountText, t.categoryId;
        paymentMethodId, date, notes, items := t.paymentMethodId, t.date, t.notes.GetOr(""), t.items.GetOr([]);
      } else {
        kind, description, amount, categoryId := Expense, "", "", "";
        paymentMethodId, date, notes, items := "", today, "", [];
      }
      new;
      RunTypeEffect(categories);
    }

    /** No selected category of the other type, and no lines on an income. */
    predicate TypeConsistent(categories: seq<Category>)
      reads this
    {
      var found := FindFirst(categories, CategoryWithId(categoryId));
      (categoryId == "" || found.None? || found.value.kind == kind)
      && (kind == Income ==> items == [])
    }

    /** The effect on `[type, categoryId, categories]`. */
    method RunTypeEffect(categories: seq<Category>)
      modifies this
      ensures var found := FindFirst(categories, CategoryWithId(old(categoryId)));
        categoryId == if found.Some? && found.value.kind != kind then "" else old(categoryId)
      ensures items == if kind == Income then [] else old(items)
      ensures kind == old(kind) && description == old(description) && amount == old(amount)
      ensures paymentMethodId == old(paymentMethodId) && date == old(date) && notes == old(notes)
      ensures TypeConsistent(categories)
    {
      var current := FindFirst(categories, CategoryWithId(categoryId));
      if current.Some? && current.value.kind != kind {
        categoryId := "";
      }
      if kind == Income {
        items := [];
      }
    }

    /** The type toggle: `setType`, then the effect. */
    method SetType(t: TransactionType, categories: seq<Category>)
      modifies this
      ensures kind == t
      ensures t == Income ==> items == []
      ensures t == Expense ==> items == old(items)
      ensures var found := FindFirst(categories, CategoryWithId(old(categoryId)));
        categoryId == if found.Some? && found.value.kind != t then "" else old(categoryId)
      ensures description == old(description) && amount == old(amount)
      ensures paymentMethodId == old(paymentMethodId) && date == old(date) && notes == old(notes)
      ensures TypeConsistent(categories)
    {
      kind := t;
      RunTypeEffect(categories);
    }

    /** The category select: `setCategoryId`, then the effect. */
    method SelectCategory(id: string, categories: seq<Category>)
      modifies this
      ensures var found := FindFirst(categories, CategoryWithId(id));
        categoryId == if found.Some? && found.value.kind != kind then "" else id
      ensures kind == old(kind) && description == old(description) && amount == old(amount)
      ensures paymentMethodId == old(paymentMethodId) && date == old(date) && notes == old(notes)
      ensures items == if kind == Income then [] else old(items)
      ensures TypeConsistent(categories)
    {
      categoryId := id;
      RunTypeEffect(categories);
    }

    /** `setItems`, the items editor's `onChange`. */
    method SetItems(newItems: seq<TransactionItem>)
      modifies this
      ensures items == newItems
      ensures kind == old(kind) && description == old(description) && amount == old(amount)
      ensures categoryId == old(categoryId) && paymentMethodId == old(paymentMethodId)
      ensures date == old(date) && notes == old(notes)
    {
      items := newItems;
    }

    /** `parseFloat(amount) || 0`, the declared total the items editor compares against. */
    function TotalAmount(): real
      reads this
    {
      NumberOr(ParseDecimal(amount), 0.0)
    }

    /**
     * `handleAmountChange`: the typed text with every character other than a digit or '.'
     * removed is taken when it has at most one point and at most two characters after it;
     * otherwise the field keeps its old text.
     */
    method AmountChange(value: string)
      modifies this
      ensures AmountAccepted(Sanitize(value)) ==> amount == Sanitize(value)
      ensures !AmountAccepted(Sanitize(value)) ==> amount == old(amount)
      ensures old(AmountShape(amount)) ==> AmountShape(amount)
      ensures kind == old(kind) && description == old(description) && categoryId == old(categoryId)
      ensures paymentMethodId == old(paymentMethodId) && date == old(date) && notes == old(notes)
      ensures items == old(items)
    {
      var cleaned := Sanitize(value);
      var parts := Split(cleaned, '.');
      if |parts| > 2 {
        return;
      }
      if |parts| >= 2 && |parts[1]| > 2 {
        return;
      }
      AcceptedAmountShape(value);
      amount := cleaned;
    }

    /**
     * `handleTotalChange`: the total written with two decimals; read back, the declared
     * total is the given total rounded to the cent.
     */
    method TotalChange(total: real)
      modifies this
      ensures amount == ToFixed2(total)
      ensures total >= 0.0 ==> TotalAmount() == RoundCents(total) as real / 100.0
      ensures total < 0.0 ==> TotalAmount() == -(RoundCents(-total) as real / 100.0)
      ensures total >= 0.0 ==> AmountShape(amount)
      ensures kind == old(kind) && description == old(description) && categoryId == old(categoryId)
      ensures paymentMethodId == old(paymentMethodId) && date == old(date) && notes == old(notes)
      ensures items == old(items)
    {
      amount := ToFixed2(total);
      ToFixed2RoundTrip(total);
      if total >= 0.0 {
        FixedAmountShape(total);
      }
    }

    /**
     * `handleSubmit`: the transaction handed to `onSave` (without an id), or nothing when a
     * rule refuses it.  Besides the source's own checks, an amount that does not read as a
     * number is refused.  The amount is negative only when its text starts with '-' (an
     * edit form opened on a negative amount); text the amount field accepted never does.
     */
    method Submit() returns (r: Option<Transaction>)
      ensures r.Some? <==> SubmitGuard(kind, items, categoryId, description, amount, paymentMethodId)
                           && ParseDecimal(amount).Some?
      ensures r.Some? ==> r.value.description == description && r.value.kind == kind && r.value.date == date
                          && r.value.paymentMethodId == paymentMethodId && r.value.amount == ParseDecimal(amount).value
      ensures r.Some? ==> r.value.notes == NonEmpty(notes)
      ensures r.Some? && kind == Expense ==> r.value.items == Some(items) && r.value.categoryId == items[0].categoryId.value
      ensures r.Some? && kind == Income ==> r.value.items == None && r.value.categoryId == categoryId
      ensures r.Some? ==> r.value.categoryId != ""
      ensures r.Some? && AllAmountChars(amount) ==> r.value.amount >= 0.0
      ensures r.Some? && r.value.amount < 0.0 ==> amount != "" && amount[0] == '-'
    {
      var isExpense := kind == Expense;
      if isExpense {
        if |items| == 0 {
          return None;
        }
        if !AllCategorised(items) {
          return None;
        }
      }
      if !isExpense && categoryId == "" {
        return None;
      }
      if description == "" || amount == "" || paymentMethodId == "" {
        return None;
      }
      var parsed := ParseDecimal(amount);
      if parsed.None? {
        return None;
      }
      var main := MainCategoryId(kind, items, categoryId);
      r := Some(Transaction("", description, parsed.value, kind, date, main, paymentMethodId,
                            NonEmpty(notes), if isExpense && |items| > 0 then Some(items) else None));
    }
  }
}
