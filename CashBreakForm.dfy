/**
 * The cash-break dialog of the component library. Its form is a record of text fields updated
 * by field name (`{ ...prev, [field]: value }`), so it is modelled as a map from field name to
 * text; a field that is absent reads as the empty text, as `undefined` is falsy.
 */
module CashBreakForm {
  import opened Wrappers
  import opened Text
  import opened Entities
  import Tally

  type Form = map<string, string>

  function Get(form: Form, field: string): string {
    if field in form then form[field] else ""
  }

  /** The fields a change of `field` may write: the field itself and the ones derived from it. */
  function Written(field: string): set<string> {
    if field == "store_id" then {field, "store_name", "cashier_id", "cashier_name"}
    else if field == "cashier_id" then {field, "cashier_name"}
    else if field == "payment_method" then {field, "voucher_status"}
    else {field}
  }

  /** The submit button is enabled when not saving and date, store, cashier and amount are all filled in. */
  predicate SubmitEnabled(form: Form, saving: bool) {
    !saving && Get(form, "date") != "" && Get(form, "store_id") != "" && Get(form, "cashier_id") != ""
    && Get(form, "amount") != ""
  }

  /**
   * `handleChange`: writes the field, then the fields derived from it: a store brings its name
   * and clears the cashier, a cashier brings its name, and a payment method other than cash marks
   * the voucher as not delivered.
   */
  method HandleChange(prev: Form, field: string, value: string, stores: seq<Store>, cashiers: seq<Cashier>)
    returns (next: Form)
    ensures next.Keys == prev.Keys + Written(field)
    ensures forall k :: k in prev && k !in Written(field) ==> next[k] == prev[k]
    ensures next[field] == value
    ensures field == "store_id" ==> next["cashier_id"] == "" && next["cashier_name"] == ""
    ensures field == "store_id" && (forall s :: s in stores ==> s.id != value) ==> next["store_name"] == ""
    ensures field == "store_id" && (exists s :: s in stores && s.id == value) ==>
              exists s :: s in stores && s.id == value && next["store_name"] == s.name
    ensures field == "cashier_id" && (forall c :: c in cashiers ==> c.id != value) ==> next["cashier_name"] == ""
    ensures field == "cashier_id" && (exists c :: c in cashiers && c.id == value) ==>
              exists c :: c in cashiers && c.id == value && next["cashier_name"] == c.name
    ensures field == "payment_method" ==> next["voucher_status"] == (if value == "cash" then "" else "not_delivered")
    ensures field == "store_id" ==> !SubmitEnabled(next, false)
  {
    next := prev[field := value];
    if field == "store_id" {
      var storeName := match StoreById(stores, value) case Some(s) => s.name case None => "";
      next := next["store_id" := value]["store_name" := storeName]["cashier_id" := ""]["cashier_name" := ""];
    }
    if field == "cashier_id" {
      var cashierName := match CashierById(cashiers, value) case Some(c) => c.name case None => "";
      next := next["cashier_id" := value]["cashier_name" := cashierName];
    }
    if field == "payment_method" {
      if value == "cash" {
        next := next["voucher_status" := ""];
      } else {
        next := next["voucher_status" := "not_delivered"];
      }
    }
  }

  /** The cashiers offered: the active ones of the selected store, and none before a store is chosen. */
  function SelectableCashiers(form: Form, cashiers: seq<Cashier>): (r: seq<Cashier>)
    ensures Get(form, "store_id") == "" ==> r == []
    ensures forall i :: 0 <= i < |r| ==> r[i] in cashiers && r[i].storeId == Get(form, "store_id") && r[i].status == "active"
    ensures Get(form, "store_id") != "" ==>
              forall i :: 0 <= i < |cashiers| && cashiers[i].storeId == Get(form, "store_id") && cashiers[i].status == "active"
                          ==> cashiers[i] in r
  {
    var store := Get(form, "store_id");
    if store == "" then []
    else Tally.Filter(cashiers, (c: Cashier) => c.storeId == store && c.status == "active")
  }

  /** What `handleSubmit` sends: the form with both names looked up again, and the amount as a number (`None` for NaN). */
  datatype Submission = Submission(fields: Form, amount: Option<real>)

  /**
   * `handleSubmit`: the amount typed is parsed (0 when empty), but any payment method other
   * than cash stands for a lost receipt and is always saved as 5.
   */
  method Submit(form: Form, stores: seq<Store>, cashiers: seq<Cashier>) returns (data: Submission)
    ensures Get(form, "payment_method") != "cash" ==> data.amount == Some(5.0)
    ensures Get(form, "payment_method") == "cash" && Get(form, "amount") == "" ==> data.amount == Some(0.0)
    ensures Get(form, "payment_method") == "cash" && Get(form, "amount") != "" ==> data.amount == ParseFloat(Get(form, "amount"))
    ensures data.fields.Keys == form.Keys + {"store_name", "cashier_name"}
    ensures forall k :: k in form && k != "store_name" && k != "cashier_name" ==> data.fields[k] == form[k]
    ensures data.fields["store_name"] == (match StoreById(stores, Get(form, "store_id")) case Some(s) => s.name case None => "")
    ensures data.fields["cashier_name"] == (match CashierById(cashiers, Get(form, "cashier_id")) case Some(c) => c.name case None => "")
  {
    var storeName := match StoreById(stores, Get(form, "store_id")) case Some(s) => s.name case None => "";
    var cashierName := match CashierById(cashiers, Get(form, "cashier_id")) case Some(c) => c.name case None => "";
    var amount := if Get(form, "amount") != "" then ParseFloat(Get(form, "amount")) else Some(0.0);
    if Get(form, "payment_method") != "cash" {
      amount := Some(5.0);
    }
    data := Submission(form["store_name" := storeName]["cashier_name" := cashierName], amount);
  }
}
