/**
 * The cash-breaks page: here the form holds numbers, so it is the saved record itself. The
 * penalty effect fines lost card receipts only, and otherwise discounts the amount as typed.
 */
module CashBreaks {
  import opened Wrappers
  import opened Text
  import opened Entities
  import CashBreakManagement

  /** `CARD_TYPES`: the tenders with a receipt that can be lost. */
  const CardTypes: seq<string> := ["credit", "debit", "subsidy", "food_voucher", "pos", "pix"]

  /** Cash and credit sales to customers are not card tenders on this page. */
  lemma CashIsNotCard()
    ensures "cash" !in CardTypes && "customer_credit" !in CardTypes
    ensures forall t :: t in CardTypes ==> t in CashBreakManagement.CardOrPos
  {
  }

  /**
   * The effect's rule: without a lost card receipt there is no fine and the discount is the
   * amount (for a surplus too); with one, the fine grows with the count and an unpaid POS
   * receipt of positive value is added to it.
   */
  predicate PenaltyRule(f: CashBreak, config: PenaltyConfig, penalty: real, total: real) {
    && (!(f.paymentType in CardTypes && f.voucherLost) ==> penalty == 0.0 && total == f.amount)
    && (f.paymentType in CardTypes && f.voucherLost ==>
          penalty == LostReceiptFine(config, f.voucherLostCount)
          && total == if f.paymentType == "pos" && !f.voucherPaid && f.voucherLostValue > 0.0
                      then penalty + f.voucherLostValue else penalty)
  }

  /** The penalty effect: works out the fine and the total discount and writes them into the form. */
  method UpdatePenalty(f: CashBreak, config: PenaltyConfig) returns (g: CashBreak)
    ensures PenaltyRule(f, config, g.penaltyAmount, g.totalDiscount)
    ensures g == f.(penaltyAmount := g.penaltyAmount, totalDiscount := g.totalDiscount)
  {
    var isCardType := f.paymentType in CardTypes;
    var isPos := f.paymentType == "pos";
    var penalty := 0.0;
    var total := f.amount;
    if isCardType && f.voucherLost {
      penalty := BasePenalty(config);
      if f.voucherLostCount > 1 {
        penalty := penalty + (f.voucherLostCount - 1) as real * AdditionalPenalty(config);
      }
      if isPos && !f.voucherPaid && f.voucherLostValue > 0.0 {
        total := penalty + f.voucherLostValue;
      } else {
        total := penalty;
      }
    }
    g := f.(penaltyAmount := penalty, totalDiscount := total);
  }

  /** Choosing a tender starts its lost-receipt details afresh. */
  function ChangePaymentType(f: CashBreak, paymentType: string): (g: CashBreak)
    ensures g.paymentType == paymentType && !g.voucherLost && g.voucherLostCount == 1
            && g.voucherLostValue == 0.0 && !g.voucherPaid
    ensures g == f.(paymentType := g.paymentType, voucherLost := g.voucherLost, voucherLostCount := g.voucherLostCount,
                    voucherLostValue := g.voucherLostValue, voucherPaid := g.voucherPaid)
  {
    f.(paymentType := paymentType, voucherLost := false, voucherLostCount := 1, voucherLostValue := 0.0,
       voucherPaid := false)
  }

  /** After a change of tender no fine is left over: the discount is back to the amount. */
  lemma ChangePaymentTypeClearsFine(f: CashBreak, paymentType: string, config: PenaltyConfig, penalty: real, total: real)
    requires PenaltyRule(ChangePaymentType(f, paymentType), config, penalty, total)
    ensures penalty == 0.0 && total == f.amount
  {
  }

  /** The lost-receipt count input: `parseInt(value) || 1`, so the count is never 0. */
  function CountInput(text: string): (n: int)
    ensures n != 0
    ensures ParseInt(text).None? ==> n == 1
    ensures ParseInt(text).Some? && ParseInt(text).value != 0 ==> n == ParseInt(text).value
  {
    IntOrDefault(ParseInt(text), 1)
  }

  /** `handleEmployeeChange`: a known employee brings their store; an unknown id changes nothing. */
  function HandleEmployeeChange(f: CashBreak, employees: seq<Employee>, employeeId: string): (g: CashBreak)
    ensures (forall e :: e in employees ==> e.id != employeeId) ==> g == f
    ensures (exists e :: e in employees && e.id == employeeId) ==>
              exists e :: e in employees && e.id == employeeId
                          && g == f.(employeeId := e.id, employeeName := e.fullName,
                                     storeId := e.storeId, storeName := e.storeName)
  {
    match EmployeeById(employees, employeeId)
    case None => f
    case Some(e) => f.(employeeId := e.id, employeeName := e.fullName, storeId := e.storeId, storeName := e.storeName)
  }

  /** `handleStoreChange`: a known store is written with its name; an unknown id changes nothing. */
  function HandleStoreChange(f: CashBreak, stores: seq<Store>, storeId: string): (g: CashBreak)
    ensures (forall s :: s in stores ==> s.id != storeId) ==> g == f
    ensures (exists s :: s in stores && s.id == storeId) ==>
              exists s :: s in stores && s.id == storeId && g == f.(storeId := s.id, storeName := s.name)
  {
    match StoreById(stores, storeId)
    case None => f
    case Some(s) => f.(storeId := s.id, storeName := s.name)
  }

  /**
   * The two pages fine a card shortage with lost receipts alike; their discounts part only for
   * an unpaid POS receipt whose value is not positive, which this page leaves out of the total.
   */
  lemma PagesAgreeOnLostReceipts(f: CashBreakManagement.BreakForm, config: PenaltyConfig,
                                 p1: real, d1: real, p2: real, d2: real)
    requires f.kind == "shortage" && f.voucherLost && f.paymentType in CardTypes
    requires CashBreakManagement.PenaltyRule(f, config, p1, d1)
    requires PenaltyRule(CashBreakManagement.SaveRecord(f), config, p2, d2)
    ensures p1 == p2
    ensures d1 != d2 ==> f.paymentType == "pos" && !f.voucherPaid
                         && NumberOrZero(f.voucherLostValue) < 0.0
  {
    CashIsNotCard();
  }

  /** They differ on a surplus: the management page discounts nothing, this page the amount. */
  lemma PagesDifferOnSurplus(f: CashBreakManagement.BreakForm, config: PenaltyConfig,
                             p1: real, d1: real, p2: real, d2: real)
    requires f.kind == "surplus" && !f.voucherLost
    requires CashBreakManagement.PenaltyRule(f, config, p1, d1)
    requires PenaltyRule(CashBreakManagement.SaveRecord(f), config, p2, d2)
    ensures d1 == 0.0 && d2 == NumberOrZero(f.amount)
  {
  }
}
