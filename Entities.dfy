/**
 * The records the pages receive from the data layer and look up by id. Every id is modelled as
 * text and ids are compared as text, which is what `String(a.id) === String(b)` amounts to.
 */
module Entities {
  import opened Wrappers

  datatype Employee = Employee(
    id: string,
    fullName: string,
    status: string,
    salary: real,
    hireDate: string,
    storeId: string,
    storeName: string)

  datatype Store = Store(id: string, name: string)

  datatype Cashier = Cashier(id: string, name: string, storeId: string, status: string)

  /**
   * A saved absence. `daysOff` is the number of days as saved; a record whose field is
   * missing is read with 0 here, which every reader turns into 1 through `days_off || 1`;
   * `hours` is `None` for `null` (and for a number that did not parse).
   */
  datatype Absence = Absence(
    employeeId: string,
    employeeName: string,
    date: string,
    kind: string,
    hours: Option<real>,
    daysOff: int,
    discountSalary: bool,
    monthReference: string,
    observations: string,
    details: map<string, string>)

  /** An overtime entry; `kind` is "50" or "100" and `hours` is 0 when missing. */
  datatype Overtime = Overtime(
    employeeId: string,
    monthReference: string,
    status: string,
    kind: string,
    hours: real)

  /**
   * A cash-register break (quebra de caixa) as saved: `kind` is "shortage" or "surplus",
   * `paymentType` one of the register's tenders ("cash", "credit", "pos", ...); a lost card
   * receipt carries a count, the receipt's value and whether it was paid. A missing number is
   * read as 0.
   */
  datatype CashBreak = CashBreak(
    date: string,
    storeId: string,
    storeName: string,
    employeeId: string,
    employeeName: string,
    paymentType: string,
    kind: string,
    amount: real,
    voucherLost: bool,
    voucherLostCount: int,
    voucherLostValue: real,
    voucherPaid: bool,
    penaltyAmount: real,
    totalDiscount: real)

  /**
   * The lost-receipt fines of the system configuration; 0 stands for a missing field. Both
   * cash-break pages read `configs[0] || { voucher_lost_penalty: 5, voucher_lost_penalty_additional: 5 }`.
   */
  datatype PenaltyConfig = PenaltyConfig(voucherLostPenalty: real, voucherLostPenaltyAdditional: real)

  function PenaltyConfigOf(configs: seq<PenaltyConfig>): PenaltyConfig {
    if configs == [] then PenaltyConfig(5.0, 5.0) else configs[0]
  }

  /** `config.voucher_lost_penalty || 5`. */
  function BasePenalty(c: PenaltyConfig): real {
    if c.voucherLostPenalty != 0.0 then c.voucherLostPenalty else 5.0
  }

  /** `config.voucher_lost_penalty_additional || 5`. */
  function AdditionalPenalty(c: PenaltyConfig): real {
    if c.voucherLostPenaltyAdditional != 0.0 then c.voucherLostPenaltyAdditional else 5.0
  }

  /** The fine for `count` lost receipts: the base fine, plus the additional fine for each receipt after the first. */
  function LostReceiptFine(c: PenaltyConfig, count: int): real {
    BasePenalty(c) + (if count > 1 then (count - 1) as real * AdditionalPenalty(c) else 0.0)
  }

  datatype Supplier = Supplier(id: string, name: string)

  /**
   * A produce item sold at the CEASA wholesale market. `priceType` is "per_kg", "per_box",
   * "per_unit" or "per_dozen"; `boxWeightKg` is 0 when the box has no fixed weight.
   */
  datatype Product = Product(
    id: string,
    name: string,
    supplierId: string,
    status: string,
    priceType: string,
    unitType: string,
    defaultPrice: Option<real>,
    boxWeightKg: real)

  /**
   * A line of a purchase. The numbers come from `parseFloat` of what was typed, so each is
   * `None` for NaN (or when the line's price type does not have that field); `totalPrice` is
   * always a number.
   */
  datatype Item = Item(
    productId: string,
    productName: string,
    priceType: string,
    unitType: string,
    quantity: Option<real>,
    unitPrice: Option<real>,
    boxes: Option<real>,
    boxWeightKg: Option<real>,
    totalKg: Option<real>,
    pricePerBox: Option<real>,
    costPerKg: Option<real>,
    totalPrice: real,
    unitCustom: string)

  /** A saved purchase from one supplier; `totalAmount` is 0 when missing. */
  datatype Purchase = Purchase(
    date: string,
    supplierId: string,
    supplierName: string,
    storeId: string,
    storeName: string,
    items: seq<Item>,
    totalAmount: real)

  function TotalPrice(i: Item): real { i.totalPrice }

  function TotalAmount(p: Purchase): real { p.totalAmount }

  /** `xs.find(p)`: the first element satisfying `p`, or none. */
  function Find<T>(xs: seq<T>, p: T -> bool): (r: Option<T>)
    ensures r.Some? ==> exists i :: 0 <= i < |xs| && xs[i] == r.value && p(xs[i])
                                    && forall j :: 0 <= j < i ==> !p(xs[j])
    ensures r.None? ==> forall i :: 0 <= i < |xs| ==> !p(xs[i])
  {
    if xs == [] then None
    else if p(xs[0]) then Some(xs[0])
    else
      var r := Find(xs[1..], p);
      assert forall i :: 1 <= i < |xs| ==> xs[i] == xs[1..][i - 1];
      r
  }

  function EmployeeById(es: seq<Employee>, id: string): (r: Option<Employee>)
    ensures r.Some? ==> r.value in es && r.value.id == id
    ensures r.None? ==> forall e :: e in es ==> e.id != id
  {
    Find(es, (e: Employee) => e.id == id)
  }

  function StoreById(ss: seq<Store>, id: string): (r: Option<Store>)
    ensures r.Some? ==> r.value in ss && r.value.id == id
    ensures r.None? ==> forall s :: s in ss ==> s.id != id
  {
    Find(ss, (s: Store) => s.id == id)
  }

  function ProductById(ps: seq<Product>, id: string): (r: Option<Product>)
    ensures r.Some? ==> r.value in ps && r.value.id == id
    ensures r.None? ==> forall p :: p in ps ==> p.id != id
  {
    Find(ps, (p: Product) => p.id == id)
  }

  function SupplierById(ss: seq<Supplier>, id: string): (r: Option<Supplier>)
    ensures r.Some? ==> r.value in ss && r.value.id == id
    ensures r.None? ==> forall s :: s in ss ==> s.id != id
  {
    Find(ss, (s: Supplier) => s.id == id)
  }

  function CashierById(cs: seq<Cashier>, id: string): (r: Option<Cashier>)
    ensures r.Some? ==> r.value in cs && r.value.id == id
    ensures r.None? ==> forall c :: c in cs ==> c.id != id
  {
    Find(cs, (c: Cashier) => c.id == id)
  }
}
