/**
 * The receipt-line arithmetic of the transaction items editor
 * (src/components/transaction/TransactionItemsEditor.tsx): the line total, the
 * sums shown under the list, the one-cent mismatch test, and the list transforms
 * behind "add", "remove" and "edit" of a line.
 */
module ReceiptItems {
  import opened Options
  import opened Seqs
  import opened Text
  import opened Finance
  import opened Records

  /** `calculateItemTotal`: quantity times price, less the discount, but never below zero. */
  function ItemTotal(qty: real, price: real, discount: real): (t: real)
    ensures t >= 0.0
    ensures t >= qty * price - discount
    ensures t == 0.0 || t == qty * price - discount
    ensures qty * price - discount >= 0.0 ==> t == qty * price - discount
  {
    var subtotal := qty * price;
    if subtotal - discount > 0.0 then subtotal - discount else 0.0
  }

  /** `item.discount || 0`: an absent discount counts as none. */
  function DiscountOrZero(item: TransactionItem): real {
    item.discount.GetOr(0.0)
  }

  function TotalPrice(item: TransactionItem): real {
    item.totalPrice
  }

  /** `itemsTotal`: the sum of the stored line totals. */
  function ItemsTotal(items: seq<TransactionItem>): real {
    SumOf(items, TotalPrice)
  }

  /** `totalDiscount`: the sum of the stored discounts, an absent one counting as 0. */
  function TotalDiscount(items: seq<TransactionItem>): real {
    SumOf(items, DiscountOrZero)
  }

  /** `difference`: how far the declared total is above the sum of the lines. */
  function Difference(totalAmount: real, items: seq<TransactionItem>): (d: real)
    ensures d + ItemsTotal(items) == totalAmount
  {
    totalAmount - ItemsTotal(items)
  }

  /** `Math.abs(difference) > 0.01`: the warning with the sync button is shown. */
  predicate IsMismatch(difference: real) {
    difference > 0.01 || difference < -0.01
  }

  /** A line whose stored total agrees with its own quantity, price and discount. */
  predicate WellFormed(item: TransactionItem) {
    item.totalPrice == ItemTotal(item.quantity, item.unitPrice, DiscountOrZero(item))
  }

  predicate AllWellFormed(items: seq<TransactionItem>) {
    forall i :: 0 <= i < |items| ==> WellFormed(items[i])
  }

  /**
   * `parseFloat(text) || fallback`: the parsed number unless the parse gives NaN
   * (`None`) or 0, both of which are falsy.
   */
  function NumberOr(parsed: Option<real>, fallback: real): (r: real)
    ensures r == fallback || (parsed == Some(r) && r != 0.0)
    ensures parsed.Some? && parsed.value != 0.0 ==> r == parsed.value
  {
    if parsed.Some? && parsed.value != 0.0 then parsed.value else fallback
  }

  /** `value || undefined` on a string: the empty string becomes absent. */
  function NonEmpty(s: string): (r: Option<string>)
    ensures r.None? <==> s == ""
    ensures r.Some? ==> r.value == s
  {
    if s == "" then None else Some(s)
  }

  /** The add button does something only when both the name and the price drafts are non-empty. */
  predicate CanAdd(name: string, priceText: string) {
    name != "" && priceText != ""
  }

  /**
   * The line `handleAddItem` builds from the drafts, with the discount that decides the
   * total being the discount that is stored: a discount draft that is not positive is
   * dropped from both.
   */
  function NewItem(id: string, name: string, qtyText: string, priceText: string,
                   discountText: string, categoryText: string,
                   parse: string -> Option<real>): (item: TransactionItem)
    ensures item.id == id && item.name == Trim(name)
    ensures item.quantity == NumberOr(parse(qtyText), 1.0) && item.quantity != 0.0
    ensures item.unitPrice == NumberOr(parse(priceText), 0.0)
    ensures item.discount.Some? ==> item.discount.value > 0.0
    ensures NumberOr(parse(discountText), 0.0) > 0.0 ==> item.discount == Some(NumberOr(parse(discountText), 0.0))
    ensures item.categoryId == NonEmpty(categoryText)
    ensures WellFormed(item)
  {
    var qty := NumberOr(parse(qtyText), 1.0);
    var price := NumberOr(parse(priceText), 0.0);
    var discount := NumberOr(parse(discountText), 0.0);
    var stored := if discount > 0.0 then Some(discount) else None;
    TransactionItem(id, Trim(name), qty, price, stored, ItemTotal(qty, price, stored.GetOr(0.0)), NonEmpty(categoryText))
  }

  /**
   * The line exactly as the source builds it: the total is computed with the parsed
   * discount even when that discount is negative and therefore not stored.
   */
  function NewItemAsWritten(id: string, name: string, qtyText: string, priceText: string,
                            discountText: string, categoryText: string,
                            parse: string -> Option<real>): (item: TransactionItem)
    ensures item.discount.Some? ==> item.discount.value > 0.0
    ensures item.totalPrice == ItemTotal(item.quantity, item.unitPrice, NumberOr(parse(discountText), 0.0))
  {
    var qty := NumberOr(parse(qtyText), 1.0);
    var price := NumberOr(parse(priceText), 0.0);
    var discount := NumberOr(parse(discountText), 0.0);
    TransactionItem(id, Trim(name), qty, price, if discount > 0.0 then Some(discount) else None,
                    ItemTotal(qty, price, discount), NonEmpty(categoryText))
  }

  /** A parser that reads the three drafts of the counterexample below. */
  function SampleParse(s: string): Option<real> {
    if s == "1" then Some(1.0) else if s == "10" then Some(10.0) else if s == "-5" then Some(-5.0) else None
  }

  /**
   * A discount draft of "-5" on a line of one item at 10: the source stores no discount
   * but a total of 15, so the line no longer agrees with its own fields.
   */
  lemma NegativeDiscountBreaksLine()
    ensures var item := NewItemAsWritten("item-1", "Arroz", "1", "10", "-5", "", SampleParse);
      item.discount == None && item.totalPrice == 15.0 && !WellFormed(item)
  {
  }

  /** Where the two agree: a discount draft that is not negative gives the same line. */
  lemma NewItemAgreesWithoutNegativeDiscount(id: string, name: string, qtyText: string, priceText: string,
                                             discountText: string, categoryText: string,
                                             parse: string -> Option<real>)
    requires NumberOr(parse(discountText), 0.0) >= 0.0
    ensures NewItem(id, name, qtyText, priceText, discountText, categoryText, parse)
         == NewItemAsWritten(id, name, qtyText, priceText, discountText, categoryText, parse)
  {
  }

  function ItemId(item: TransactionItem): string {
    item.id
  }

  /** `handleRemoveItem`: `items.filter(item => item.id !== id)`. */
  function RemoveItem(items: seq<TransactionItem>, id: string): (r: seq<TransactionItem>)
    ensures |r| <= |items|
  {
    RemoveKey(items, ItemId, id)
  }

  /** After a removal no line has the id, every other line is still there, and nothing is added. */
  lemma RemoveItemSpec(items: seq<TransactionItem>, id: string)
    ensures forall x :: x in RemoveItem(items, id) <==> x in items && x.id != id
    ensures (forall i :: 0 <= i < |items| ==> items[i].id != id) ==> RemoveItem(items, id) == items
  {
    RemoveKeySpec(items, ItemId, id);
  }

  /** The key of `TransactionItem` that an edit names; any other key leaves the line alone. */
  datatype ItemField = Name | Quantity | UnitPrice | Discount | CategoryId | OtherField

  /** The branch of `handleUpdateItem` applied to the matching line. */
  function EditItem(item: TransactionItem, field: ItemField, value: string,
                    parse: string -> Option<real>): (r: TransactionItem)
    ensures r.id == item.id
  {
    match field
    case Name => item.(name := value)
    case Quantity =>
      var q := NumberOr(parse(value), 0.0);
      item.(quantity := q, totalPrice := ItemTotal(q, item.unitPrice, DiscountOrZero(item)))
    case UnitPrice =>
      var p := NumberOr(parse(value), 0.0);
      item.(unitPrice := p, totalPrice := ItemTotal(item.quantity, p, DiscountOrZero(item)))
    case Discount =>
      var d := NumberOr(parse(value), 0.0);
      item.(discount := Some(d), totalPrice := ItemTotal(item.quantity, item.unitPrice, d))
    case CategoryId => item.(categoryId := NonEmpty(value))
    case OtherField => item
  }

  /**
   * What an edit does to one line: a numeric field is re-read (NaN and 0 read as 0) and
   * the total recomputed from the new fields; a name or category edit keeps the total.
   */
  lemma EditItemSpec(item: TransactionItem, field: ItemField, value: string, parse: string -> Option<real>)
    ensures var r := EditItem(item, field, value, parse);
      (field in {Quantity, UnitPrice, Discount} ==> WellFormed(r))
      && (field in {Name, CategoryId, OtherField} ==> r.totalPrice == item.totalPrice)
      && (field == Name ==> r == item.(name := value))
      && (field == Quantity ==> r.quantity == NumberOr(parse(value), 0.0))
      && (field == UnitPrice ==> r.unitPrice == NumberOr(parse(value), 0.0))
      && (field == Discount ==> r.discount == Some(NumberOr(parse(value), 0.0)))
      && (field == CategoryId ==> r == item.(categoryId := NonEmpty(value)))
  {
  }

  /** An edit of a line that agreed with its fields gives a line that still does. */
  lemma EditKeepsWellFormed(item: TransactionItem, field: ItemField, value: string, parse: string -> Option<real>)
    requires WellFormed(item)
    ensures WellFormed(EditItem(item, field, value, parse))
  {
  }

  function Editor(field: ItemField, value: string, parse: string -> Option<real>): TransactionItem -> TransactionItem {
    item => EditItem(item, field, value, parse)
  }

  /** `handleUpdateItem`: the edit applied to the lines with the given id, every other line as it was. */
  function UpdateItem(items: seq<TransactionItem>, id: string, field: ItemField, value: string,
                      parse: string -> Option<real>): (r: seq<TransactionItem>)
    ensures |r| == |items|
    ensures forall i :: 0 <= i < |items| && items[i].id != id ==> r[i] == items[i]
    ensures forall i :: 0 <= i < |items| && items[i].id == id ==> r[i] == EditItem(items[i], field, value, parse)
  {
    UpdateKey(items, ItemId, id, Editor(field, value, parse))
  }

  /** Editing a list whose lines all agree with their fields keeps every line in agreement. */
  lemma UpdateKeepsWellFormed(items: seq<TransactionItem>, id: string, field: ItemField, value: string,
                              parse: string -> Option<real>)
    requires AllWellFormed(items)
    ensures AllWellFormed(UpdateItem(items, id, field, value, parse))
  {
    var r := UpdateItem(items, id, field, value, parse);
    forall i | 0 <= i < |r| ensures WellFormed(r[i]) {
      if items[i].id == id {
        EditKeepsWellFormed(items[i], field, value, parse);
      }
    }
  }

  /** Removing lines keeps every remaining line in agreement with its fields. */
  lemma RemoveKeepsWellFormed(items: seq<TransactionItem>, id: string)
    requires AllWellFormed(items)
    ensures AllWellFormed(RemoveItem(items, id))
  {
    var r := RemoveItem(items, id);
    RemoveItemSpec(items, id);
    forall i | 0 <= i < |r| ensures WellFormed(r[i]) {
      assert r[i] in items;
    }
  }

  /** Lines that agree with their fields have non-negative totals, so their sum is non-negative. */
  lemma ItemsTotalNonNegative(items: seq<TransactionItem>)
    requires AllWellFormed(items)
    ensures ItemsTotal(items) >= 0.0
  {
    forall x | x in items ensures TotalPrice(x) >= 0.0 {
      var i :| 0 <= i < |items| && items[i] == x;
    }
    SumNonNegative(items, TotalPrice);
  }

  /** Appending a line adds its total to the sum of the lines. */
  lemma ItemsTotalAppend(items: seq<TransactionItem>, item: TransactionItem)
    ensures ItemsTotal(items + [item]) == ItemsTotal(items) + item.totalPrice
  {
    assert (items + [item])[..|items|] == items;
  }

  /** Appending a line adds its stored discount, or nothing when it has none, to the discount total. */
  lemma TotalDiscountAppend(items: seq<TransactionItem>, item: TransactionItem)
    ensures TotalDiscount(items + [item]) == TotalDiscount(items) + item.discount.GetOr(0.0)
    ensures item.discount.None? ==> TotalDiscount(items + [item]) == TotalDiscount(items)
  {
    assert (items + [item])[..|items|] == items;
  }

  function HasId(id: string): TransactionItem -> bool {
    (item: TransactionItem) => item.id == id
  }

  /** Removing lines takes exactly their totals off the sum. */
  lemma RemoveItemTotal(items: seq<TransactionItem>, id: string)
    ensures ItemsTotal(RemoveItem(items, id)) + SumOf(Filter(items, HasId(id)), TotalPrice) == ItemsTotal(items)
  {
    SumSplit(items, TotalPrice, KeyIsNot(ItemId, id), HasId(id));
  }
}
