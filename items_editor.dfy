/**
 * The items editor component (src/components/transaction/TransactionItemsEditor.tsx)
 * as an object: its five draft inputs and its expanded flag, working on the form
 * that owns the item list and the declared total.
 */
module ItemsEditors {
  import opened Options
  import opened Finance
  import opened Decimal
  import opened ReceiptItems
  import opened TransactionForms

  class ItemsEditor {
    /** The owning form: `items` and `onChange` are its item list, `onTotalChange` its total setter. */
    const form: TransactionForm
    /** What `parseFloat` reads from a number input (None for NaN). */
    const parse: string -> Option<real>
    var expanded: bool
    var newName: string
    var newQty: string
    var newPrice: string
    var newDiscount: string
    var newCategoryId: string

    constructor (form: TransactionForm, parse: string -> Option<real>)
      ensures this.form == form && this.parse == parse
      ensures expanded == (|form.items| > 0)
      ensures newName == "" && newQty == "1" && newPrice == "" && newDiscount == "" && newCategoryId == ""
    {
      this.form, this.parse := form, parse;
      expanded := |form.items| > 0;
      newName, newQty, newPrice, newDiscount, newCategoryId := "", "1", "", "", "";
    }

    /** Drafts as a fresh editor has them. */
    predicate DraftsCleared()
      reads this
    {
      newName == "" && newQty == "1" && newPrice == "" && newDiscount == "" && newCategoryId == ""
    }

    method ToggleExpanded()
      modifies this
      ensures expanded == !old(expanded)
      ensures newName == old(newName) && newQty == old(newQty) && newPrice == old(newPrice)
      ensures newDiscount == old(newDiscount) && newCategoryId == old(newCategoryId)
    {
      expanded := !expanded;
    }

    /** `Math.abs(difference) > 0.01` for the form's declared total and lines. */
    predicate ShowsMismatch()
      reads this, form
    {
      IsMismatch(Difference(form.TotalAmount(), form.items))
    }

    /**
     * `handleAddItem`: with a name and a price drafted, one line built from the drafts is
     * appended, the drafts are cleared, and the declared total is set to the new line's
     * total only when the list was empty.  Without both drafts nothing changes.
     */
    method AddItem(stamp: string)
      modifies this, form
      ensures !CanAdd(old(newName), old(newPrice)) ==>
        form.items == old(form.items) && form.amount == old(form.amount)
        && newName == old(newName) && newQty == old(newQty) && newPrice == old(newPrice)
        && newDiscount == old(newDiscount) && newCategoryId == old(newCategoryId)
      ensures CanAdd(old(newName), old(newPrice)) ==>
        var item := NewItem("item-" + stamp, old(newName), old(newQty), old(newPrice),
                            old(newDiscount), old(newCategoryId), parse);
        form.items == old(form.items) + [item]
        && DraftsCleared()
        && (|old(form.items)| == 0 ==> form.amount == ToFixed2(item.totalPrice)
                                       && form.TotalAmount() == RoundCents(item.totalPrice) as real / 100.0)
        && (|old(form.items)| > 0 ==> form.amount == old(form.amount))
      ensures old(AllWellFormed(form.items)) ==> AllWellFormed(form.items)
      ensures expanded == old(expanded)
      ensures form.kind == old(form.kind) && form.description == old(form.description)
      ensures form.categoryId == old(form.categoryId) && form.paymentMethodId == old(form.paymentMethodId)
      ensures form.date == old(form.date) && form.notes == old(form.notes)
    {
      if !CanAdd(newName, newPrice) {
        return;
      }
      var item := NewItem("item-" + stamp, newName, newQty, newPrice, newDiscount, newCategoryId, parse);
      var wasEmpty := |form.items| == 0;
      form.SetItems(form.items + [item]);
      newName, newQty, newPrice, newDiscount, newCategoryId := "", "1", "", "", "";
      if wasEmpty {
        form.TotalChange(item.totalPrice);
      }
    }

    /** `handleRemoveItem`. */
    method RemoveItem(id: string)
      modifies form
      ensures form.items == ReceiptItems.RemoveItem(old(form.items), id)
      ensures old(AllWellFormed(form.items)) ==> AllWellFormed(form.items)
      ensures form.amount == old(form.amount) && form.kind == old(form.kind)
      ensures form.description == old(form.description) && form.categoryId == old(form.categoryId)
      ensures form.paymentMethodId == old(form.paymentMethodId)
      ensures form.date == old(form.date) && form.notes == old(form.notes)
    {
      if AllWellFormed(form.items) {
        RemoveKeepsWellFormed(form.items, id);
      }
      form.SetItems(ReceiptItems.RemoveItem(form.items, id));
    }

    /** `handleUpdateItem`. */
    method UpdateItem(id: string, field: ItemField, value: string)
      modifies form
      ensures form.items == ReceiptItems.UpdateItem(old(form.items), id, field, value, parse)
      ensures old(AllWellFormed(form.items)) ==> AllWellFormed(form.items)
      ensures form.amount == old(form.amount) && form.kind == old(form.kind)
      ensures form.description == old(form.description) && form.categoryId == old(form.categoryId)
      ensures form.paymentMethodId == old(form.paymentMethodId)
      ensures form.date == old(form.date) && form.notes == old(form.notes)
    {
      if AllWellFormed(form.items) {
        UpdateKeepsWellFormed(form.items, id, field, value, parse);
      }
      form.SetItems(ReceiptItems.UpdateItem(form.items, id, field, value, parse));
    }

    /**
     * `handleSyncTotal`: the declared total becomes the sum of the lines, written with two
     * decimals; the mismatch warning is then gone, whatever the lines hold.
     */
    method SyncTotal()
      modifies form
      ensures form.amount == ToFixed2(ItemsTotal(form.items))
      ensures form.items == old(form.items)
      ensures !ShowsMismatch()
      ensures form.kind == old(form.kind) && form.description == old(form.description)
      ensures form.categoryId == old(form.categoryId) && form.paymentMethodId == old(form.paymentMethodId)
      ensures form.date == old(form.date) && form.notes == old(form.notes)
    {
      var total := ItemsTotal(form.items);
      form.TotalChange(total);
      ToFixed2RoundTrip(total);
      if total >= 0.0 {
        RoundCentsClose(total);
      } else {
        RoundCentsClose(-total);
      }
    }
  }
}
