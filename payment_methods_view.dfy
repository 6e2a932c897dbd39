/**
 * The payment methods page (src/pages/PaymentMethodsView.tsx): the credit-card and
 * other lists, the type labels, and the form and delete dialog that add, edit and
 * remove payment methods in the store.
 */
module PaymentMethodsViews {
  import opened Options
  import opened Seqs
  import opened Records
  import opened Finance
  import opened FinanceStore

  function IsCreditCard(m: PaymentMethod): bool { m.kind == CreditCard }

  function IsNotCreditCard(m: PaymentMethod): bool { m.kind != CreditCard }

  /** `creditCards`. */
  function CreditCards(methods: seq<PaymentMethod>): seq<PaymentMethod> {
    Filter(methods, IsCreditCard)
  }

  /** `otherMethods`. */
  function OtherMethods(methods: seq<PaymentMethod>): seq<PaymentMethod> {
    Filter(methods, IsNotCreditCard)
  }

  /** Every payment method is listed exactly once: with the cards if it is one, with the others if not. */
  lemma MethodListsPartition(methods: seq<PaymentMethod>)
    ensures multiset(CreditCards(methods)) + multiset(OtherMethods(methods)) == multiset(methods)
    ensures forall m :: m in CreditCards(methods) <==> m in methods && m.kind == CreditCard
    ensures forall m :: m in OtherMethods(methods) <==> m in methods && m.kind != CreditCard
  {
    FilterPartition(methods, IsCreditCard, IsNotCreditCard);
    FilterSound(methods, IsCreditCard);
    FilterComplete(methods, IsCreditCard);
    FilterSound(methods, IsNotCreditCard);
    FilterComplete(methods, IsNotCreditCard);
  }

  /** The lists keep the store's order: a method added last shows last in its own list only. */
  lemma MethodListsAppend(methods: seq<PaymentMethod>, m: PaymentMethod)
    ensures CreditCards(methods + [m]) == CreditCards(methods) + (if m.kind == CreditCard then [m] else [])
    ensures OtherMethods(methods + [m]) == OtherMethods(methods) + (if m.kind != CreditCard then [m] else [])
  {
    FilterSnoc(methods, m, IsCreditCard);
    FilterSnoc(methods, m, IsNotCreditCard);
  }

  /** `getTypeLabel`. */
  function TypeLabel(kind: PaymentMethodType): string {
    match kind
    case CreditCard => "Cartão de Crédito"
    case Cash => "Dinheiro"
    case BankAccount => "Conta/PIX"
  }

  /** Each type has its own, non-empty label. */
  lemma TypeLabelsDistinct(a: PaymentMethodType, b: PaymentMethodType)
    ensures TypeLabel(a) != ""
    ensures TypeLabel(a) == TypeLabel(b) <==> a == b
  {
    if a != b {
      assert TypeLabel(a)[0] != TypeLabel(b)[0] || TypeLabel(a)[1] != TypeLabel(b)[1];
    }
  }

  /** `type === 'credit_card' && text ? read(text) : undefined`. */
  function CardNumber<T>(kind: PaymentMethodType, text: string, read: string -> T): Option<T> {
    if kind == CreditCard && text != "" then Some(read(text)) else None
  }

  /** `methodData` of `handleSubmit`; the store gives it its id. */
  function MethodData(name: string, kind: PaymentMethodType, limit: string, closingDay: string, dueDay: string,
                      readFloat: string -> real, readInt: string -> int): PaymentMethod
  {
    PaymentMethod("", name, kind, CardNumber(kind, limit, readFloat), CardNumber(kind, closingDay, readInt),
                  CardNumber(kind, dueDay, readInt))
  }

  /** The same object as the update passed to `onUpdatePaymentMethod`: every key present. */
  function MethodPatch(name: string, kind: PaymentMethodType, limit: string, closingDay: string, dueDay: string,
                       readFloat: string -> real, readInt: string -> int): PaymentMethodPatch
  {
    var d := MethodData(name, kind, limit, closingDay, dueDay, readFloat, readInt);
    PaymentMethodPatch(Some(d.name), Some(d.kind), Some(d.limit), Some(d.closingDay), Some(d.dueDay))
  }

  /**
   * A saved method has a limit, closing day or due day exactly when it is a credit card
   * and the matching input was filled in, holding what that input reads as; an edit
   * overwrites every field but the id.
   */
  lemma SavedMethod(m: PaymentMethod, name: string, kind: PaymentMethodType, limit: string, closingDay: string,
                    dueDay: string, readFloat: string -> real, readInt: string -> int)
    ensures PatchMethod(MethodPatch(name, kind, limit, closingDay, dueDay, readFloat, readInt))(m)
            == MethodData(name, kind, limit, closingDay, dueDay, readFloat, readInt).(id := m.id)
    ensures var d := MethodData(name, kind, limit, closingDay, dueDay, readFloat, readInt);
      d.name == name && d.kind == kind
      && (d.limit.Some? <==> kind == CreditCard && limit != "")
      && (d.closingDay.Some? <==> kind == CreditCard && closingDay != "")
      && (d.dueDay.Some? <==> kind == CreditCard && dueDay != "")
      && (d.limit.Some? ==> d.limit.value == readFloat(limit))
      && (d.closingDay.Some? ==> d.closingDay.value == readInt(closingDay))
      && (d.dueDay.Some? ==> d.dueDay.value == readInt(dueDay))
  {
  }

  /** `x?.toString() || ''`. */
  function Shown<T>(x: Option<T>, show: T -> string): string {
    if x.Some? then show(x.value) else ""
  }

  /**
   * Opening the edit form on a method and saving it untouched leaves the method as it was,
   * provided only a credit card has card numbers and each number is read back from its
   * own text unchanged (which `parseFloat`/`parseInt` do for what `toString` writes).
   */
  lemma EditUntouchedKeepsMethod(m: PaymentMethod, readFloat: string -> real, readInt: string -> int,
                                 showFloat: real -> string, showInt: int -> string)
    requires m.kind != CreditCard ==> m.limit.None? && m.closingDay.None? && m.dueDay.None?
    requires m.limit.Some? ==> showFloat(m.limit.value) != "" && readFloat(showFloat(m.limit.value)) == m.limit.value
    requires m.closingDay.Some? ==> showInt(m.closingDay.value) != "" && readInt(showInt(m.closingDay.value)) == m.closingDay.value
    requires m.dueDay.Some? ==> showInt(m.dueDay.value) != "" && readInt(showInt(m.dueDay.value)) == m.dueDay.value
    ensures PatchMethod(MethodPatch(m.name, m.kind, Shown(m.limit, showFloat), Shown(m.closingDay, showInt),
                                    Shown(m.dueDay, showInt), readFloat, readInt))(m) == m
  {
  }

  class PaymentMethodsPage {
    /** The store the page's callbacks act on. */
    const store: Store
    /** `parseFloat` and `parseInt` on the text of a filled number input. */
    const readFloat: string -> real
    const readInt: string -> int
    /** `toString` of a number. */
    const showFloat: real -> string
    const showInt: int -> string
    var showForm: bool
    var editingMethod: Option<PaymentMethod>
    var deleteId: Option<string>
    var name: string
    var kind: PaymentMethodType
    var limit: string
    var closingDay: string
    var dueDay: string

    constructor (store: Store, readFloat: string -> real, readInt: string -> int,
                 showFloat: real -> string, showInt: int -> string)
      ensures this.store == store && this.readFloat == readFloat && this.readInt == readInt
      ensures this.showFloat == showFloat && this.showInt == showInt
      ensures AtDefaults() && deleteId.None?
    {
      this.store, this.readFloat, this.readInt := store, readFloat, readInt;
      this.showFloat, this.showInt := showFloat, showInt;
      showForm, editingMethod, deleteId := false, None, None;
      name, kind, limit, closingDay, dueDay := "", BankAccount, "", "", "";
    }

    /** The form's initial state: empty name and numbers, bank account, hidden, no edit. */
    predicate AtDefaults()
      reads this
    {
      name == "" && kind == BankAccount && limit == "" && closingDay == "" && dueDay == ""
      && !showForm && editingMethod.None?
    }

    /** `openEditForm`: the form shows the method's fields, an absent number as an empty input. */
    method OpenEditForm(m: PaymentMethod)
      modifies this
      ensures editingMethod == Some(m) && showForm
      ensures name == m.name && kind == m.kind
      ensures limit == Shown(m.limit, showFloat) && closingDay == Shown(m.closingDay, showInt)
      ensures dueDay == Shown(m.dueDay, showInt)
      ensures m.limit.None? ==> limit == ""
      ensures m.closingDay.None? ==> closingDay == ""
      ensures m.dueDay.None? ==> dueDay == ""
      ensures deleteId == old(deleteId)
    {
      editingMethod := Some(m);
      name, kind := m.name, m.kind;
      limit := if m.limit.Some? then showFloat(m.limit.value) else "";
      closingDay := if m.closingDay.Some? then showInt(m.closingDay.value) else "";
      dueDay := if m.dueDay.Some? then showInt(m.dueDay.value) else "";
      showForm := true;
    }

    /** `openNewForm`: the defaults, shown, with nothing being edited. */
    method OpenNewForm()
      modifies this
      ensures editingMethod.None? && showForm
      ensures name == "" && kind == BankAccount && limit == "" && closingDay == "" && dueDay == ""
      ensures deleteId == old(deleteId)
    {
      editingMethod := None;
      name, kind, limit, closingDay, dueDay := "", BankAccount, "", "", "";
      showForm := true;
    }

    /** `resetForm`. */
    method ResetForm()
      modifies this
      ensures AtDefaults()
      ensures deleteId == old(deleteId)
    {
      name, kind, limit, closingDay, dueDay := "", BankAccount, "", "", "";
      showForm := false;
      editingMethod := None;
    }

    /**
     * `handleSubmit`: nothing happens without a name; otherwise the edited method is
     * updated (or a new one added with the id `pm-<stamp>`) and the form is reset.
     */
    method Submit(stamp: string)
      modifies this, store
      ensures old(name) == "" ==> unchanged(this) && unchanged(store)
      ensures old(name) != "" && old(editingMethod).Some? ==>
        store.paymentMethods == UpdateKey(old(store.paymentMethods), IdOfMethod, old(editingMethod).value.id,
          PatchMethod(MethodPatch(old(name), old(kind), old(limit), old(closingDay), old(dueDay), readFloat, readInt)))
      ensures old(name) != "" && old(editingMethod).None? ==>
        store.paymentMethods == old(store.paymentMethods)
          + [MethodData(old(name), old(kind), old(limit), old(closingDay), old(dueDay), readFloat, readInt).(id := "pm-" + stamp)]
      ensures old(name) != "" ==> AtDefaults() && deleteId == old(deleteId)
      ensures store.transactions == old(store.transactions) && store.categories == old(store.categories)
      ensures store.selectedMonth == old(store.selectedMonth)
    {
      if name == "" {
        return;
      }
      var methodData := MethodData(name, kind, limit, closingDay, dueDay, readFloat, readInt);
      if editingMethod.Some? {
        store.UpdatePaymentMethod(editingMethod.value.id, MethodPatch(name, kind, limit, closingDay, dueDay, readFloat, readInt));
      } else {
        store.AddPaymentMethod(methodData, stamp);
      }
      ResetForm();
    }

    /** The trash button: `setDeleteId(method.id)` opens the confirmation. */
    method AskDelete(id: string)
      modifies this
      ensures deleteId == Some(id)
      ensures name == old(name) && kind == old(kind) && limit == old(limit)
      ensures closingDay == old(closingDay) && dueDay == old(dueDay)
      ensures showForm == old(showForm) && editingMethod == old(editingMethod)
    {
      deleteId := Some(id);
    }

    /** Closing the dialog without confirming. */
    method DismissDelete()
      modifies this
      ensures deleteId.None?
      ensures name == old(name) && kind == old(kind) && limit == old(limit)
      ensures closingDay == old(closingDay) && dueDay == old(dueDay)
      ensures showForm == old(showForm) && editingMethod == old(editingMethod)
    {
      deleteId := None;
    }

    /** `handleDelete`: with an id chosen, the method is deleted and the choice cleared; else nothing. */
    method ConfirmDelete()
      modifies this, store
      ensures !IsTruthy(old(deleteId)) ==> unchanged(this) && unchanged(store)
      ensures IsTruthy(old(deleteId)) ==>
        store.paymentMethods == RemoveKey(old(store.paymentMethods), IdOfMethod, old(deleteId).value)
        && store.GetPaymentMethodById(old(deleteId).value).None? && deleteId.None?
      ensures name == old(name) && kind == old(kind) && limit == old(limit)
      ensures closingDay == old(closingDay) && dueDay == old(dueDay)
      ensures showForm == old(showForm) && editingMethod == old(editingMethod)
      ensures store.transactions == old(store.transactions) && store.categories == old(store.categories)
      ensures store.selectedMonth == old(store.selectedMonth)
    {
      if IsTruthy(deleteId) {
        store.DeletePaymentMethod(deleteId.value);
        deleteId := None;
      }
    }
  }
}
