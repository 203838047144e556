/**
 * The CEASA purchases page: line items priced per kilo, per box (with or without a fixed box
 * weight) or per unit, a purchase form whose total follows its items, the list filter, and the
 * grouping of the list by date and supplier.
 */
module CeasaPurchases {
  import opened Wrappers
  import opened Text
  import opened Entities
  import opened Tally
  import Calendar
  import Sorting

  /** The line being typed in (`newItem`), every number as typed. */
  datatype Draft = Draft(
    productId: string,
    productName: string,
    unitType: string,
    quantity: string,
    unitPrice: string,
    boxes: string,
    pricePerBox: string,
    unitCustom: string)

  const BlankDraft := Draft("", "", "kg", "", "", "", "", "")

  /** The draft's four numbers as `parseFloat` reads them; `None` is NaN. */
  datatype Reads = Reads(quantity: Option<real>, unitPrice: Option<real>, boxes: Option<real>, pricePerBox: Option<real>)

  function ReadDraft(d: Draft): (r: Reads)
    ensures r.quantity == ParseFloat(d.quantity) && r.unitPrice == ParseFloat(d.unitPrice)
    ensures r.boxes == ParseFloat(d.boxes) && r.pricePerBox == ParseFloat(d.pricePerBox)
  {
    Reads(ParseFloat(d.quantity), ParseFloat(d.unitPrice), ParseFloat(d.boxes), ParseFloat(d.pricePerBox))
  }

  /**
   * `calculateItemTotal` for a known product: boxes times the box price for a product sold by
   * the box, with or without a fixed box weight; quantity times the unit price for anything
   * else. A number that does not read counts as 0 (`parseFloat(x) || 0`).
   */
  function LineTotal(r: Reads, p: Product): (t: real)
    ensures p.priceType == "per_box" ==> t == OrDefault(r.boxes, 0.0) * OrDefault(r.pricePerBox, 0.0)
    ensures p.priceType != "per_box" ==> t == OrDefault(r.quantity, 0.0) * OrDefault(r.unitPrice, 0.0)
  {
    if p.priceType == "per_kg" then OrDefault(r.quantity, 0.0) * OrDefault(r.unitPrice, 0.0)
    else if p.priceType == "per_box" && p.boxWeightKg != 0.0 then OrDefault(r.boxes, 0.0) * OrDefault(r.pricePerBox, 0.0)
    else if p.priceType == "per_box" then OrDefault(r.boxes, 0.0) * OrDefault(r.pricePerBox, 0.0)
    else OrDefault(r.quantity, 0.0) * OrDefault(r.unitPrice, 0.0)
  }

  /** `calculateItemTotal`: the line total of the draft's product, or 0 for an unknown product. */
  function ItemTotal(d: Draft, products: seq<Product>): (t: real)
    ensures ProductById(products, d.productId).None? ==> t == 0.0
  {
    match ProductById(products, d.productId)
    case None => 0.0
    case Some(p) => LineTotal(ReadDraft(d), p)
  }

  /** `handleAddItem`'s guards: a known product, and the two numbers its price type needs typed in. */
  predicate Addable(d: Draft, products: seq<Product>) {
    d.productId != ""
    && match ProductById(products, d.productId)
       case None => false
       case Some(p) =>
         if p.priceType == "per_box" then d.boxes != "" && d.pricePerBox != ""
         else d.quantity != "" && d.unitPrice != ""
  }

  function Times(x: Option<real>, w: real): Option<real> {
    match x case Some(v) => Some(v * w) case None => None
  }

  function Over(x: Option<real>, w: real): Option<real>
    requires w != 0.0
  {
    match x case Some(v) => Some(v / w) case None => None
  }

  function CustomOrBox(d: Draft): string { if d.unitCustom != "" then d.unitCustom else "CX" }

  /** The unit of a line priced per unit or per dozen, or by the custom unit typed, or "unit". */
  function OtherUnit(priceType: string, d: Draft): string {
    if priceType == "per_unit" then "unit"
    else if priceType == "per_dozen" then "dozen"
    else if d.unitCustom != "" then d.unitCustom
    else "unit"
  }

  /** The line `handleAddItem` builds from draft `d`, read as `r`, for product `p` with total `total`. */
  function NewItem(d: Draft, r: Reads, p: Product, total: real): Item {
    if p.priceType == "per_kg" then
      Item(d.productId, d.productName, "per_kg", "kg", r.quantity, r.unitPrice,
           None, None, None, None, None, total, "")
    else if p.priceType == "per_box" && p.boxWeightKg != 0.0 then
      Item(d.productId, d.productName, "per_box_fixed", "box", r.boxes, r.pricePerBox,
           r.boxes, Some(p.boxWeightKg), Times(r.boxes, p.boxWeightKg), r.pricePerBox, Over(r.pricePerBox, p.boxWeightKg),
           total, CustomOrBox(d))
    else if p.priceType == "per_box" then
      Item(d.productId, d.productName, "per_box", "box", r.boxes, r.pricePerBox,
           r.boxes, None, None, None, None, total, CustomOrBox(d))
    else
      Item(d.productId, d.productName, p.priceType, OtherUnit(p.priceType, d), r.quantity,
           r.unitPrice, None, None, None, None, None, total, d.unitCustom)
  }

  /**
   * A line added from the draft costs its recorded quantity times its recorded unit price, a
   * number that did not read counting as 0; this holds whatever the numbers read.
   */
  lemma AddedItemIsConsistent(d: Draft, r: Reads, p: Product)
    ensures var item := NewItem(d, r, p, LineTotal(r, p));
            item.totalPrice == OrDefault(item.quantity, 0.0) * OrDefault(item.unitPrice, 0.0)
  {
  }

  /** Kilos times cost per kilo is boxes times box price, whatever the (non-zero) box weight. */
  lemma KilosTimesCostPerKilo(boxes: real, pricePerBox: real, weight: real)
    requires weight != 0.0
    ensures (boxes * weight) * (pricePerBox / weight) == boxes * pricePerBox
  {
    assert (boxes * weight) * (pricePerBox / weight) == boxes * (weight * (pricePerBox / weight));
    assert weight * (pricePerBox / weight) == pricePerBox;
  }

  /**
   * A box line of fixed weight whose numbers read is also its kilos times its cost per kilo,
   * and its kilos are its boxes times the box weight.
   */
  lemma FixedBoxIsConsistent(d: Draft, r: Reads, p: Product)
    ensures var item := NewItem(d, r, p, LineTotal(r, p));
            item.priceType == "per_box_fixed" && item.totalKg.Some? && item.costPerKg.Some? ==>
              item.totalPrice == item.totalKg.value * item.costPerKg.value
              && item.totalKg.value == item.boxes.value * p.boxWeightKg
  {
    if p.priceType == "per_box" && p.boxWeightKg != 0.0 && r.boxes.Some? && r.pricePerBox.Some? {
      KilosTimesCostPerKilo(r.boxes.value, r.pricePerBox.value, p.boxWeightKg);
    }
  }

  /** `newItems.reduce((sum, i) => sum + i.total_price, 0)`. */
  method TotalOf(items: seq<Item>) returns (t: real)
    ensures t == Sum(items, TotalPrice)
  {
    t := 0.0;
    for i := 0 to |items|
      invariant t == Sum(items[..i], TotalPrice)
    {
      assert items[..i + 1][..i] == items[..i];
      t := t + items[i].totalPrice;
    }
    assert items[..|items|] == items;
  }

  /** `items.filter((_, i) => i !== index)`: the list without the line at `index`, if there is one. */
  function RemoveAt<T>(xs: seq<T>, index: int): (r: seq<T>)
    ensures 0 <= index < |xs| ==> |r| == |xs| - 1
                                   && (forall j :: 0 <= j < index ==> r[j] == xs[j])
                                   && (forall j :: index <= j < |r| ==> r[j] == xs[j + 1])
    ensures !(0 <= index < |xs|) ==> r == xs
  {
    if 0 <= index < |xs| then xs[..index] + xs[index + 1..] else xs
  }

  /**
   * The purchase being entered. Whenever it has lines, `totalAmount` is their sum: adding and
   * removing recompute it, and the supplier change that empties the list leaves it stale
   * while there is nothing to show or save.
   */
  class PurchaseForm {
    var date: string
    var supplierId: string
    var supplierName: string
    var storeId: string
    var storeName: string
    var items: seq<Item>
    var totalAmount: real
    var draft: Draft

    ghost predicate Valid()
      reads this
    {
      items != [] ==> totalAmount == Sum(items, TotalPrice)
    }

    constructor (today: string)
      ensures Valid()
      ensures date == today && supplierId == "" && supplierName == "" && storeId == "" && storeName == ""
      ensures items == [] && totalAmount == 0.0 && draft == BlankDraft
    {
      date, supplierId, supplierName, storeId, storeName := today, "", "", "", "";
      items, totalAmount, draft := [], 0.0, BlankDraft;
    }

    /** `handleAddItem`: appends the draft's line and clears the draft, or does nothing when a guard fails. */
    method AddItem(products: seq<Product>)
      modifies this
      requires Valid()
      ensures Valid()
      ensures !Addable(old(draft), products) ==> items == old(items) && totalAmount == old(totalAmount) && draft == old(draft)
      ensures Addable(old(draft), products) ==>
                items == old(items) + [NewItem(old(draft), ReadDraft(old(draft)), ProductById(products, old(draft).productId).value,
                                               ItemTotal(old(draft), products))]
                && totalAmount == Sum(items, TotalPrice) && draft == BlankDraft
      ensures date == old(date) && supplierId == old(supplierId) && supplierName == old(supplierName)
              && storeId == old(storeId) && storeName == old(storeName)
    {
      if !Addable(draft, products) {
        return;
      }
      var p := ProductById(products, draft.productId).value;
      var newItems := items + [NewItem(draft, ReadDraft(draft), p, ItemTotal(draft, products))];
      var total := TotalOf(newItems);
      items, totalAmount := newItems, total;
      draft := BlankDraft;
    }

    /** `handleRemoveItem`: drops the line at `index` and recomputes the total. */
    method RemoveItem(index: int)
      modifies this
      requires Valid()
      ensures Valid()
      ensures items == RemoveAt(old(items), index) && totalAmount == Sum(items, TotalPrice)
      ensures date == old(date) && supplierId == old(supplierId) && supplierName == old(supplierName)
              && storeId == old(storeId) && storeName == old(storeName) && draft == old(draft)
    {
      var newItems := RemoveAt(items, index);
      var total := TotalOf(newItems);
      items, totalAmount := newItems, total;
    }

    /** `handleSupplierChange`: the lines belong to the old supplier, so the list and the draft start afresh. */
    method ChangeSupplier(id: string, suppliers: seq<Supplier>)
      modifies this
      requires Valid()
      ensures Valid()
      ensures supplierId == id && items == [] && draft == BlankDraft
      ensures supplierName == match SupplierById(suppliers, id) case Some(s) => s.name case None => ""
      ensures date == old(date) && storeId == old(storeId) && storeName == old(storeName)
              && totalAmount == old(totalAmount)
    {
      supplierId := id;
      supplierName := match SupplierById(suppliers, id) case Some(s) => s.name case None => "";
      items := [];
      draft := BlankDraft;
    }

    /**
     * `handleSave`: refused without a line or a store; otherwise the purchase is saved, with a
     * total that is the sum of its lines, and the form starts afresh.
     */
    method Save(today: string) returns (saved: Option<Purchase>)
      modifies this
      requires Valid()
      ensures Valid()
      ensures old(items) == [] || old(storeId) == "" ==>
                saved == None && items == old(items) && totalAmount == old(totalAmount) && storeId == old(storeId)
                && date == old(date) && supplierId == old(supplierId) && supplierName == old(supplierName)
                && storeName == old(storeName)
      ensures old(items) != [] && old(storeId) != "" ==>
                saved == Some(Purchase(old(date), old(supplierId), old(supplierName), old(storeId), old(storeName),
                                       old(items), old(totalAmount)))
                && saved.value.totalAmount == Sum(saved.value.items, TotalPrice)
                && items == [] && totalAmount == 0.0 && date == today && storeId == ""
                && supplierId == "" && supplierName == "" && storeName == ""
      ensures draft == old(draft)
    {
      if items == [] || storeId == "" {
        return None;
      }
      saved := Some(Purchase(date, supplierId, supplierName, storeId, storeName, items, totalAmount));
      date, supplierId, supplierName, storeId, storeName := today, "", "", "", "";
      items, totalAmount := [], 0.0;
    }
  }

  // ----- The list -----

  datatype Filters = Filters(search: string, month: string, supplier: string, store: string)

  predicate Listed(p: Purchase, f: Filters) {
    && (f.search == "" || ContainsIgnoringCase(p.supplierName, f.search))
    && (f.month == "" || StartsWith(p.date, f.month))
    && (f.supplier == "all" || p.supplierId == f.supplier)
    && (f.store == "" || f.store == "all" || p.storeId == f.store)
  }

  /** `filteredPurchases`: exactly the purchases passing every filter. */
  function FilteredPurchases(purchases: seq<Purchase>, f: Filters): (r: seq<Purchase>)
    ensures forall i :: 0 <= i < |r| ==> r[i] in purchases && Listed(r[i], f)
    ensures forall i :: 0 <= i < |purchases| && Listed(purchases[i], f) ==> purchases[i] in r
  {
    Filter(purchases, (p: Purchase) => Listed(p, f))
  }

  // ----- Grouping by date and supplier -----

  function DateKey(p: Purchase): string { if p.date != "" then p.date else "sem-data" }

  function SupplierKey(p: Purchase): string { if p.supplierId != "" then p.supplierId else "sem-fornecedor" }

  function BucketKey(p: Purchase): (string, string) { (DateKey(p), SupplierKey(p)) }

  function NameOrDefault(name: string): string { if name != "" then name else "Sem fornecedor" }

  datatype SupplierGroup = SupplierGroup(supplierId: string, supplierName: string, total: real, purchases: seq<Purchase>)

  datatype DateGroup = DateGroup(date: string, total: real, suppliers: map<string, SupplierGroup>)

  /** The purchases of one date and supplier, in list order. */
  function Bucket(rows: seq<Purchase>, k: (string, string)): (r: seq<Purchase>)
    ensures forall i :: 0 <= i < |r| ==> r[i] in rows && BucketKey(r[i]) == k
    ensures forall i :: 0 <= i < |rows| && BucketKey(rows[i]) == k ==> rows[i] in r
  {
    if rows == [] then []
    else
      var init, last := rows[..|rows| - 1], rows[|rows| - 1];
      Bucket(init, k) + (if BucketKey(last) == k then [last] else [])
  }

  /** Each purchase lies in the bucket of its own date and supplier and in no other. */
  lemma BucketsPartition(rows: seq<Purchase>, i: int, k: (string, string))
    requires 0 <= i < |rows|
    ensures rows[i] in Bucket(rows, k) <==> k == BucketKey(rows[i])
  {
  }

  /** Each date group of `groups` carries the total of that date's purchases in `rows`. */
  ghost predicate DateTotalsFrom(rows: seq<Purchase>, groups: map<string, DateGroup>) {
    forall k :: k in groups ==> groups[k].date == k && groups[k].total == GroupSum(rows, DateKey, TotalAmount, k)
  }

  /** The supplier bucket `s` of date `k` holds that bucket's purchases, their total and the first one's supplier. */
  ghost predicate BucketFrom(rows: seq<Purchase>, k: string, s: string, sg: SupplierGroup) {
    var b := Bucket(rows, (k, s));
    && sg.purchases == b
    && sg.total == Sum(b, TotalAmount)
    && |b| > 0
    && sg.supplierId == b[0].supplierId
    && sg.supplierName == NameOrDefault(b[0].supplierName)
  }

  /** Every supplier bucket of the date group `g` is built from `rows`. */
  ghost predicate GroupBucketsFrom(rows: seq<Purchase>, g: DateGroup) {
    forall s :: s in g.suppliers ==> BucketFrom(rows, g.date, s, g.suppliers[s])
  }

  ghost predicate BucketsFrom(rows: seq<Purchase>, groups: map<string, DateGroup>) {
    forall k, s :: k in groups && s in groups[k].suppliers ==> BucketFrom(rows, k, s, groups[k].suppliers[s])
  }

  /** The groups built from `rows`: every date's total and every supplier bucket within it. */
  ghost predicate GroupedFrom(rows: seq<Purchase>, groups: map<string, DateGroup>) {
    DateTotalsFrom(rows, groups) && BucketsFrom(rows, groups)
  }

  /** One step of the reduce: `purchase` is added to its date's group and to its supplier's bucket there. */
  function AddPurchase(groups: map<string, DateGroup>, p: Purchase): (r: map<string, DateGroup>)
    ensures r.Keys == groups.Keys + {DateKey(p)}
  {
    var g := if DateKey(p) in groups then groups[DateKey(p)] else DateGroup(DateKey(p), 0.0, map[]);
    var sg := if SupplierKey(p) in g.suppliers then g.suppliers[SupplierKey(p)]
              else SupplierGroup(p.supplierId, NameOrDefault(p.supplierName), 0.0, []);
    var sg' := sg.(total := sg.total + p.totalAmount, purchases := sg.purchases + [p]);
    groups[DateKey(p) := g.(total := g.total + p.totalAmount, suppliers := g.suppliers[SupplierKey(p) := sg'])]
  }

  /** The buckets of one more purchase: its own bucket gains it at the end, the others stay. */
  lemma BucketStep(xs: seq<Purchase>, p: Purchase, k: (string, string))
    ensures Bucket(xs + [p], k) == Bucket(xs, k) + (if BucketKey(p) == k then [p] else [])
  {
    assert (xs + [p])[..|xs|] == xs;
  }

  /** A bucket that no purchase falls into is empty. */
  lemma {:induction false} BucketEmpty(xs: seq<Purchase>, k: (string, string))
    requires forall j :: 0 <= j < |xs| ==> BucketKey(xs[j]) != k
    ensures Bucket(xs, k) == []
  {
    if xs != [] {
      BucketEmpty(xs[..|xs| - 1], k);
    }
  }

  lemma SumStep(xs: seq<Purchase>, p: Purchase)
    ensures Sum(xs + [p], TotalAmount) == Sum(xs, TotalAmount) + p.totalAmount
  {
    assert (xs + [p])[..|xs|] == xs;
  }

  /** Every purchase of `xs` already has its date group and its supplier bucket. */
  predicate Covered(xs: seq<Purchase>, groups: map<string, DateGroup>) {
    forall j :: 0 <= j < |xs| ==> DateKey(xs[j]) in groups && SupplierKey(xs[j]) in groups[DateKey(xs[j])].suppliers
  }

  /** `order` lists the dates of `xs` as they first appear, and they are exactly the keys of `groups`. */
  ghost predicate OrderedBy(xs: seq<Purchase>, groups: map<string, DateGroup>, order: seq<string>) {
    order == Keys(xs, DateKey) && forall k :: k in groups <==> k in order
  }

  lemma OrderStep(xs: seq<Purchase>, p: Purchase, groups: map<string, DateGroup>, order: seq<string>)
    requires OrderedBy(xs, groups, order)
    ensures OrderedBy(xs + [p], AddPurchase(groups, p), if DateKey(p) in groups then order else order + [DateKey(p)])
  {
    KeysStep(xs, p, DateKey);
  }

  lemma CoveredStep(xs: seq<Purchase>, p: Purchase, groups: map<string, DateGroup>)
    requires Covered(xs, groups)
    ensures Covered(xs + [p], AddPurchase(groups, p))
  {
    var after := AddPurchase(groups, p);
    forall j | 0 <= j < |xs + [p]|
      ensures DateKey((xs + [p])[j]) in after && SupplierKey((xs + [p])[j]) in after[DateKey((xs + [p])[j])].suppliers
    {
      if j < |xs| {
        assert (xs + [p])[j] == xs[j];
      }
    }
  }

  lemma DateTotalsStep(xs: seq<Purchase>, p: Purchase, groups: map<string, DateGroup>)
    requires DateTotalsFrom(xs, groups) && Covered(xs, groups)
    ensures DateTotalsFrom(xs + [p], AddPurchase(groups, p))
  {
    var after := AddPurchase(groups, p);
    forall k | k in after
      ensures after[k].date == k && after[k].total == GroupSum(xs + [p], DateKey, TotalAmount, k)
    {
      GroupSumStep(xs, p, DateKey, TotalAmount, k);
      if k == DateKey(p) && k !in groups {
        GroupSumAbsent(xs, DateKey, TotalAmount, k);
      }
    }
  }

  /** An existing bucket gains `p` at its end. */
  lemma ExtendBucket(xs: seq<Purchase>, p: Purchase, sg: SupplierGroup)
    requires BucketFrom(xs, DateKey(p), SupplierKey(p), sg)
    ensures BucketFrom(xs + [p], DateKey(p), SupplierKey(p),
                       sg.(total := sg.total + p.totalAmount, purchases := sg.purchases + [p]))
  {
    var b := Bucket(xs, BucketKey(p));
    BucketStep(xs, p, BucketKey(p));
    SumStep(b, p);
    assert (b + [p])[0] == b[0];
  }

  /** A new bucket holds `p` alone. */
  lemma StartBucket(xs: seq<Purchase>, p: Purchase)
    requires forall j :: 0 <= j < |xs| ==> BucketKey(xs[j]) != BucketKey(p)
    ensures BucketFrom(xs + [p], DateKey(p), SupplierKey(p),
                       SupplierGroup(p.supplierId, NameOrDefault(p.supplierName), 0.0 + p.totalAmount, [] + [p]))
  {
    BucketEmpty(xs, BucketKey(p));
    BucketStep(xs, p, BucketKey(p));
    SumStep([], p);
  }

  /** The bucket that receives `p` still satisfies `BucketFrom`. */
  lemma OwnBucketStep(xs: seq<Purchase>, p: Purchase, groups: map<string, DateGroup>)
    requires BucketsFrom(xs, groups) && Covered(xs, groups)
    ensures var after := AddPurchase(groups, p);
            BucketFrom(xs + [p], DateKey(p), SupplierKey(p), after[DateKey(p)].suppliers[SupplierKey(p)])
  {
    var k, s := DateKey(p), SupplierKey(p);
    var g := if k in groups then groups[k] else DateGroup(k, 0.0, map[]);
    var sg := if s in g.suppliers then g.suppliers[s]
              else SupplierGroup(p.supplierId, NameOrDefault(p.supplierName), 0.0, []);
    assert AddPurchase(groups, p)[k].suppliers[s] == sg.(total := sg.total + p.totalAmount, purchases := sg.purchases + [p]);
    if k in groups && s in groups[k].suppliers {
      ExtendBucket(xs, p, sg);
    } else {
      StartBucket(xs, p);
    }
  }

  lemma BucketsStep(xs: seq<Purchase>, p: Purchase, groups: map<string, DateGroup>)
    requires BucketsFrom(xs, groups) && Covered(xs, groups)
    ensures BucketsFrom(xs + [p], AddPurchase(groups, p))
  {
    var after := AddPurchase(groups, p);
    OwnBucketStep(xs, p, groups);
    forall k, s | k in after && s in after[k].suppliers
      ensures BucketFrom(xs + [p], k, s, after[k].suppliers[s])
    {
      if (k, s) != BucketKey(p) {
        OtherBucketStep(xs, p, groups, k, s);
      }
    }
  }

  /** A bucket other than the purchase's own is carried over unchanged and still matches the longer list. */
  lemma OtherBucketStep(xs: seq<Purchase>, p: Purchase, groups: map<string, DateGroup>, k: string, s: string)
    requires BucketsFrom(xs, groups)
    requires k in AddPurchase(groups, p) && s in AddPurchase(groups, p)[k].suppliers && (k, s) != BucketKey(p)
    ensures BucketFrom(xs + [p], k, s, AddPurchase(groups, p)[k].suppliers[s])
  {
    var after := AddPurchase(groups, p);
    assert k in groups && s in groups[k].suppliers && after[k].suppliers[s] == groups[k].suppliers[s] by {
      if k == DateKey(p) {
        assert s != SupplierKey(p);
      }
    }
    BucketStep(xs, p, (k, s));
    assert BucketFrom(xs, k, s, groups[k].suppliers[s]);
  }

  /** What the reduce has built from `xs`: the date order, every group and bucket, and a bucket for every purchase. */
  ghost predicate Built(xs: seq<Purchase>, groups: map<string, DateGroup>, order: seq<string>) {
    OrderedBy(xs, groups, order) && GroupedFrom(xs, groups) && Covered(xs, groups)
  }

  /** One step of the reduce keeps `Built`. */
  lemma BuildStep(xs: seq<Purchase>, p: Purchase, groups: map<string, DateGroup>, order: seq<string>)
    requires Built(xs, groups, order)
    ensures Built(xs + [p], AddPurchase(groups, p), if DateKey(p) in groups then order else order + [DateKey(p)])
  {
    CoveredStep(xs, p, groups);
    DateTotalsStep(xs, p, groups);
    BucketsStep(xs, p, groups);
    OrderStep(xs, p, groups, order);
  }

  /** The reduce over a whole list: the groups, and their dates in the order they first appear. */
  function Grouped(xs: seq<Purchase>): (map<string, DateGroup>, seq<string>) {
    if xs == [] then (map[], [])
    else
      var (groups, order) := Grouped(xs[..|xs| - 1]);
      var p := xs[|xs| - 1];
      (AddPurchase(groups, p), if DateKey(p) in groups then order else order + [DateKey(p)])
  }

  /** Whatever the list, the reduce builds exactly the groups `GroupedFrom` describes. */
  lemma {:induction false} GroupedIsBuilt(xs: seq<Purchase>)
    ensures Built(xs, Grouped(xs).0, Grouped(xs).1)
  {
    if xs != [] {
      var init, p := xs[..|xs| - 1], xs[|xs| - 1];
      assert init + [p] == xs;
      var (groups, order) := Grouped(init);
      assert Grouped(xs) == (AddPurchase(groups, p), if DateKey(p) in groups then order else order + [DateKey(p)]);
      GroupedIsBuilt(init);
      BuildStep(init, p, groups, order);
    }
  }

  /**
   * The `groupedByDate` reduce: one group per date, in the order dates first appear, each
   * with its total and one bucket per supplier holding that supplier's purchases and total.
   */
  method GroupByDate(rows: seq<Purchase>) returns (groups: map<string, DateGroup>, order: seq<string>)
    ensures order == Keys(rows, DateKey)
    ensures forall k :: k in groups <==> k in order
    ensures GroupedFrom(rows, groups)
    ensures Covered(rows, groups)
  {
    groups, order := map[], [];
    for i := 0 to |rows|
      invariant (groups, order) == Grouped(rows[..i])
    {
      var p := rows[i];
      assert rows[..i + 1][..i] == rows[..i];
      if DateKey(p) !in groups {
        order := order + [DateKey(p)];
      }
      groups := AddPurchase(groups, p);
    }
    assert rows[..|rows|] == rows;
    GroupedIsBuilt(rows);
  }

  /** `totalPurchases`: the amounts of the listed purchases added up, a missing amount counting as 0. */
  function TotalPurchases(rows: seq<Purchase>): real {
    Sum(rows, TotalAmount)
  }

  /** The date groups' own totals, added up in date order. */
  function TotalOfGroups(groups: map<string, DateGroup>, order: seq<string>): real
    requires forall k :: k in order ==> k in groups
  {
    if order == [] then 0.0
    else TotalOfGroups(groups, order[..|order| - 1]) + groups[order[|order| - 1]].total
  }

  lemma {:induction false} TotalOfGroupsIsSumOverKeys(rows: seq<Purchase>, groups: map<string, DateGroup>, order: seq<string>)
    requires DateTotalsFrom(rows, groups)
    requires forall k :: k in order ==> k in groups
    ensures TotalOfGroups(groups, order) == SumOverKeys(rows, DateKey, TotalAmount, order)
  {
    if order != [] {
      TotalOfGroupsIsSumOverKeys(rows, groups, order[..|order| - 1]);
    }
  }

  /** The date groups' totals add up to `totalPurchases`: every purchase is counted in exactly one date. */
  lemma DateTotalsAddUp(rows: seq<Purchase>, groups: map<string, DateGroup>, order: seq<string>)
    requires OrderedBy(rows, groups, order) && GroupedFrom(rows, groups)
    ensures TotalOfGroups(groups, order) == TotalPurchases(rows)
  {
    TotalOfGroupsIsSumOverKeys(rows, groups, order);
    GroupsAddUp(rows, DateKey, TotalAmount);
  }

  /** `new Date(date)` as a number to sort by: the day of an ISO date, 0 for anything else. */
  function DateScore(g: DateGroup): real {
    match Calendar.ParseIso(g.date)
    case Some(d) => Calendar.DayNumber(d) as real
    case None => 0.0
  }

  /** `Object.values(acc)`: the groups in the order of their dates. */
  function GroupsInOrder(groups: map<string, DateGroup>, order: seq<string>): (r: seq<DateGroup>)
    requires forall k :: k in order ==> k in groups
    ensures |r| == |order| && forall i :: 0 <= i < |r| ==> r[i] == groups[order[i]]
  {
    seq(|order|, i requires 0 <= i < |order| => groups[order[i]])
  }

  /**
   * Whatever order `vs` lists the groups of the date order in, each is a group of a date of
   * `rows`, with that date's total.
   */
  lemma GroupsInOrderTotals(rows: seq<Purchase>, groups: map<string, DateGroup>, order: seq<string>, vs: seq<DateGroup>)
    requires OrderedBy(rows, groups, order) && DateTotalsFrom(rows, groups)
    requires forall g :: g in vs <==> g in GroupsInOrder(groups, order)
    ensures forall g :: g in vs ==> g.date in Keys(rows, DateKey) && g.total == GroupSum(rows, DateKey, TotalAmount, g.date)
  {
  }

  /** Each supplier bucket of a listed group holds the purchases of that date and supplier. */
  lemma GroupsInOrderBuckets(rows: seq<Purchase>, groups: map<string, DateGroup>, order: seq<string>, vs: seq<DateGroup>)
    requires OrderedBy(rows, groups, order) && GroupedFrom(rows, groups)
    requires forall g :: g in vs <==> g in GroupsInOrder(groups, order)
    ensures forall g :: g in vs ==> GroupBucketsFrom(rows, g)
  {
    var values := GroupsInOrder(groups, order);
    forall g | g in vs
      ensures GroupBucketsFrom(rows, g)
    {
      var i :| 0 <= i < |values| && values[i] == g;
      assert g == groups[order[i]] && g.date == order[i];
    }
  }

  /** Among `vs` is the group of `p`'s date, and it holds a bucket for `p`'s supplier. */
  predicate HasBucket(vs: seq<DateGroup>, p: Purchase) {
    exists g :: g in vs && g.date == DateKey(p) && SupplierKey(p) in g.suppliers
  }

  /** Every purchase of `rows` has the group of its date, holding a bucket for its supplier, among the listed groups. */
  lemma GroupsInOrderCover(rows: seq<Purchase>, groups: map<string, DateGroup>, order: seq<string>, vs: seq<DateGroup>)
    requires OrderedBy(rows, groups, order) && DateTotalsFrom(rows, groups) && Covered(rows, groups)
    requires forall g :: g in vs <==> g in GroupsInOrder(groups, order)
    ensures forall j :: 0 <= j < |rows| ==> HasBucket(vs, rows[j])
  {
    var values := GroupsInOrder(groups, order);
    forall j | 0 <= j < |rows|
      ensures HasBucket(vs, rows[j])
    {
      var i :| 0 <= i < |order| && order[i] == DateKey(rows[j]);
      assert values[i] in values;
    }
  }

  /**
   * `groupedByDate`: the date groups, latest date first. Each one carries its date's total and
   * its supplier buckets, and every purchase lands in the bucket of its date and supplier.
   */
  method GroupedByDate(rows: seq<Purchase>) returns (r: seq<DateGroup>)
    ensures Sorting.SortedDesc(r, DateScore)
    ensures |r| == |Keys(rows, DateKey)|
    ensures forall g :: g in r ==> g.date in Keys(rows, DateKey) && g.total == GroupSum(rows, DateKey, TotalAmount, g.date)
    ensures forall g :: g in r ==> GroupBucketsFrom(rows, g)
    ensures forall j :: 0 <= j < |rows| ==> HasBucket(r, rows[j])
  {
    var groups, order := GroupByDate(rows);
    var values := GroupsInOrder(groups, order);
    r := Sorting.SortDesc(values, DateScore);
    Sorting.SortKeepsAll(values, DateScore);
    GroupsInOrderTotals(rows, groups, order, r);
    GroupsInOrderBuckets(rows, groups, order, r);
    GroupsInOrderCover(rows, groups, order, r);
  }

}
