/**
 * The older CEASA purchases page: every line is a quantity times a unit price, the product
 * choice fills the draft from the product's defaults, and the list is filtered without a store.
 */
module CeasaPurchasesLegacy {
  import opened Wrappers
  import opened Text
  import opened Entities
  import opened Tally
  import CeasaPurchases

  /** The line being typed in (`newItem`), the two numbers as typed. */
  datatype Draft = Draft(productId: string, productName: string, quantity: string, unitType: string, unitPrice: string)

  const BlankDraft := Draft("", "", "", "kg", "")

  /** `calculateItemTotal`, on the two numbers as `parseFloat` reads them: a number that does not read counts as 0. */
  function LineTotal(quantity: Option<real>, unitPrice: Option<real>): (t: real)
    ensures quantity.Some? && unitPrice.Some? ==> t == quantity.value * unitPrice.value
    ensures quantity.None? || unitPrice.None? ==> t == 0.0
  {
    OrDefault(quantity, 0.0) * OrDefault(unitPrice, 0.0)
  }

  /** `calculateItemTotal` on the draft. */
  function ItemTotal(d: Draft): real {
    LineTotal(ParseFloat(d.quantity), ParseFloat(d.unitPrice))
  }

  /** `handleAddItem`'s guard: a product, a quantity and a price typed in. */
  predicate Addable(d: Draft) {
    d.productId != "" && d.quantity != "" && d.unitPrice != ""
  }

  /** The line `handleAddItem` builds from draft `d` whose numbers read as `quantity` and `unitPrice`. */
  function NewItem(d: Draft, quantity: Option<real>, unitPrice: Option<real>): (item: Item)
    ensures item.productId == d.productId && item.productName == d.productName && item.unitType == d.unitType
    ensures item.quantity == quantity && item.unitPrice == unitPrice
    ensures item.totalPrice == OrDefault(item.quantity, 0.0) * OrDefault(item.unitPrice, 0.0)
  {
    Item(d.productId, d.productName, "", d.unitType, quantity, unitPrice, None, None, None, None, None,
         LineTotal(quantity, unitPrice), "")
  }

  /**
   * `handleProductChange`: a known product fills in its name, unit and default price (as text,
   * by `toText`, or "" without one); an unknown product leaves the draft as it was.
   */
  function ChooseProduct(d: Draft, products: seq<Product>, productId: string, toText: real -> string): (r: Draft)
    ensures (forall p :: p in products ==> p.id != productId) ==> r == d
    ensures (exists p :: p in products && p.id == productId) ==>
              r.productId == productId && r.quantity == d.quantity
              && exists p :: p in products && p.id == productId && r.productName == p.name && r.unitType == p.unitType
                             && r.unitPrice == (match p.defaultPrice case Some(v) => toText(v) case None => "")
  {
    match ProductById(products, productId)
    case None => d
    case Some(p) =>
      d.(productId := productId, productName := p.name, unitType := p.unitType,
         unitPrice := match p.defaultPrice case Some(v) => toText(v) case None => "")
  }

  /** The purchase being entered. Whenever it has lines, `totalAmount` is their sum. */
  class PurchaseForm {
    var date: string
    var supplierId: string
    var supplierName: string
    var items: seq<Item>
    var totalAmount: real
    var draft: Draft

    ghost predicate Valid()
      reads this
    {
      items != [] ==> totalAmount == Sum(items, TotalPrice)
    }

    constructor (today: string)
      ensures Valid()
      ensures date == today && supplierId == "" && supplierName == ""
      ensures items == [] && totalAmount == 0.0 && draft == BlankDraft
    {
      date, supplierId, supplierName := today, "", "";
      items, totalAmount, draft := [], 0.0, BlankDraft;
    }

    /** `handleSupplierChange`: the lines belong to the old supplier, so the list and the draft start afresh. */
    method ChangeSupplier(id: string, suppliers: seq<Supplier>)
      modifies this
      requires Valid()
      ensures Valid()
      ensures supplierId == id && items == [] && draft == BlankDraft
      ensures supplierName == match SupplierById(suppliers, id) case Some(s) => s.name case None => ""
      ensures date == old(date) && totalAmount == old(totalAmount)
    {
      supplierId := id;
      supplierName := match SupplierById(suppliers, id) case Some(s) => s.name case None => "";
      items := [];
      draft := BlankDraft;
    }

    /** `handleProductChange` on the form's draft. */
    method ChangeProduct(productId: string, products: seq<Product>, toText: real -> string)
      modifies this
      requires Valid()
      ensures Valid()
      ensures draft == ChooseProduct(old(draft), products, productId, toText)
      ensures date == old(date) && supplierId == old(supplierId) && supplierName == old(supplierName)
              && items == old(items) && totalAmount == old(totalAmount)
    {
      draft := ChooseProduct(draft, products, productId, toText);
    }

    /** `handleAddItem`: appends the draft's line and clears the draft, or does nothing when the guard fails. */
    method AddItem()
      modifies this
      requires Valid()
      ensures Valid()
      ensures !Addable(old(draft)) ==> items == old(items) && totalAmount == old(totalAmount) && draft == old(draft)
      ensures Addable(old(draft)) ==>
                items == old(items) + [NewItem(old(draft), ParseFloat(old(draft).quantity), ParseFloat(old(draft).unitPrice))]
                && totalAmount == Sum(items, TotalPrice) && draft == BlankDraft
      ensures date == old(date) && supplierId == old(supplierId) && supplierName == old(supplierName)
    {
      if !Addable(draft) {
        return;
      }
      var newItems := items + [NewItem(draft, ParseFloat(draft.quantity), ParseFloat(draft.unitPrice))];
      var total := CeasaPurchases.TotalOf(newItems);
      items, totalAmount := newItems, total;
      draft := BlankDraft;
    }

    /** `handleRemoveItem`: drops the line at `index` and recomputes the total. */
    method RemoveItem(index: int)
      modifies this
      requires Valid()
      ensures Valid()
      ensures items == CeasaPurchases.RemoveAt(old(items), index) && totalAmount == Sum(items, TotalPrice)
      ensures date == old(date) && supplierId == old(supplierId) && supplierName == old(supplierName)
              && draft == old(draft)
    {
      var newItems := CeasaPurchases.RemoveAt(items, index);
      var total := CeasaPurchases.TotalOf(newItems);
      items, totalAmount := newItems, total;
    }

    /**
     * `handleSave`: refused without a line; otherwise the purchase (with no store) is saved, with
     * a total that is the sum of its lines, and the form starts afresh.
     */
    method Save(today: string) returns (saved: Option<Purchase>)
      modifies this
      requires Valid()
      ensures Valid()
      ensures old(items) == [] ==> saved == None && items == old(items) && totalAmount == old(totalAmount)
                                   && date == old(date) && supplierId == old(supplierId)
                                   && supplierName == old(supplierName)
      ensures old(items) != [] ==>
                saved == Some(Purchase(old(date), old(supplierId), old(supplierName), "", "", old(items), old(totalAmount)))
                && saved.value.totalAmount == Sum(saved.value.items, TotalPrice)
                && items == [] && totalAmount == 0.0 && date == today && supplierId == "" && supplierName == ""
      ensures draft == old(draft)
    {
      if items == [] {
        return None;
      }
      saved := Some(Purchase(date, supplierId, supplierName, "", "", items, totalAmount));
      date, supplierId, supplierName := today, "", "";
      items, totalAmount := [], 0.0;
    }
  }

  /** `filteredPurchases`: the newer page's filter with no store chosen. */
  function FilteredPurchases(purchases: seq<Purchase>, search: string, month: string, supplier: string): (r: seq<Purchase>)
    ensures forall i :: 0 <= i < |r| ==>
              r[i] in purchases
              && (search == "" || ContainsIgnoringCase(r[i].supplierName, search))
              && (month == "" || StartsWith(r[i].date, month))
              && (supplier == "all" || r[i].supplierId == supplier)
    ensures forall i :: 0 <= i < |purchases| ==>
              (search == "" || ContainsIgnoringCase(purchases[i].supplierName, search))
              && (month == "" || StartsWith(purchases[i].date, month))
              && (supplier == "all" || purchases[i].supplierId == supplier)
              ==> purchases[i] in r
  {
    CeasaPurchases.FilteredPurchases(purchases, CeasaPurchases.Filters(search, month, supplier, ""))
  }

  /** `totalPurchases` never goes below 0 when no listed purchase has a negative amount. */
  lemma TotalPurchasesNonNegative(rows: seq<Purchase>)
    requires forall p :: p in rows ==> p.totalAmount >= 0.0
    ensures CeasaPurchases.TotalPurchases(rows) >= 0.0
  {
    SumNonNegative(rows, TotalAmount);
  }
}
