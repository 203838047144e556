/**
 * The cash-break management page: a form whose amounts are typed text, the penalty it
 * derives from tender, shortage/surplus and lost receipts, the record it saves, the date it
 * loads on edit, and the list filter.
 */
module CashBreakManagement {
  import opened Wrappers
  import opened Text
  import opened Entities
  import Tally

  /** The tenders for which a lost receipt is fined on this page (everything but cash). */
  const CardOrPos: seq<string> := ["credit", "debit", "subsidy", "food_voucher", "pos", "customer_credit", "pix"]

  /** The form state; `amount` and `voucherLostValue` hold what was typed. */
  datatype BreakForm = BreakForm(
    date: string,
    storeId: string,
    storeName: string,
    employeeId: string,
    employeeName: string,
    paymentType: string,
    kind: string,
    amount: string,
    voucherLost: bool,
    voucherLostCount: int,
    voucherLostValue: string,
    voucherPaid: bool,
    penaltyAmount: real,
    totalDiscount: real)

  /**
   * The page's decision table for the penalty and the discount: a surplus costs nothing; a
   * cash shortage is discounted by the typed amount; a card shortage with lost receipts is
   * fined per receipt, and an unpaid POS receipt adds its value; a card shortage without lost
   * receipts is fined the base fine; any other tender costs nothing.
   */
  predicate PenaltyRule(f: BreakForm, config: PenaltyConfig, penalty: real, discount: real) {
    && (f.kind != "shortage" ==> penalty == 0.0 && discount == 0.0)
    && (f.kind == "shortage" && f.paymentType == "cash" ==>
          penalty == 0.0 && discount == NumberOrZero(f.amount))
    && (f.kind == "shortage" && f.paymentType in CardOrPos && f.voucherLost ==>
          penalty == LostReceiptFine(config, f.voucherLostCount)
          && discount == penalty + (if f.paymentType == "pos" && !f.voucherPaid then NumberOrZero(f.voucherLostValue) else 0.0))
    && (f.kind == "shortage" && f.paymentType in CardOrPos && !f.voucherLost ==>
          penalty == BasePenalty(config) && discount == penalty)
    && (f.kind == "shortage" && f.paymentType != "cash" && f.paymentType !in CardOrPos ==>
          penalty == 0.0 && discount == 0.0)
  }

  /** `calculatePenalty`: works out the two amounts and writes them into the form. */
  method CalculatePenalty(f: BreakForm, config: PenaltyConfig) returns (g: BreakForm)
    ensures PenaltyRule(f, config, g.penaltyAmount, g.totalDiscount)
    ensures g == f.(penaltyAmount := g.penaltyAmount, totalDiscount := g.totalDiscount)
  {
    var isCardOrPos := f.paymentType in CardOrPos;
    var penaltyAmount := 0.0;
    var totalDiscount := 0.0;
    if f.kind == "shortage" {
      if f.paymentType == "cash" {
        totalDiscount := NumberOrZero(f.amount);
        penaltyAmount := 0.0;
      } else if isCardOrPos && f.voucherLost {
        penaltyAmount := BasePenalty(config);
        if f.voucherLostCount > 1 {
          penaltyAmount := penaltyAmount + (f.voucherLostCount - 1) as real * AdditionalPenalty(config);
        }
        if f.paymentType == "pos" && !f.voucherPaid {
          totalDiscount := penaltyAmount + NumberOrZero(f.voucherLostValue);
        } else {
          totalDiscount := penaltyAmount;
        }
      } else if isCardOrPos {
        penaltyAmount := BasePenalty(config);
        totalDiscount := penaltyAmount;
      }
    } else {
      penaltyAmount := 0.0;
      totalDiscount := 0.0;
    }
    g := f.(penaltyAmount := penaltyAmount, totalDiscount := totalDiscount);
  }

  /** Only a card shortage is ever fined, and with fines that are not negative the fine is too. */
  lemma PenaltyOnlyOnCardShortage(f: BreakForm, config: PenaltyConfig, penalty: real, discount: real)
    requires PenaltyRule(f, config, penalty, discount)
    ensures penalty != 0.0 ==> f.kind == "shortage" && f.paymentType in CardOrPos
    ensures config.voucherLostPenalty >= 0.0 && config.voucherLostPenaltyAdditional >= 0.0 ==> penalty >= 0.0
  {
  }

  /** Away from cash, the discount includes the whole fine when the lost receipt's value is not negative. */
  lemma DiscountCoversPenalty(f: BreakForm, config: PenaltyConfig, penalty: real, discount: real)
    requires PenaltyRule(f, config, penalty, discount)
    requires f.paymentType != "cash" && NumberOrZero(f.voucherLostValue) >= 0.0
    ensures discount >= penalty
  {
  }

  /** More lost receipts never make the fine smaller when the additional fine is not negative. */
  lemma {:induction false} FineGrowsWithCount(config: PenaltyConfig, m: int, n: int)
    requires m <= n && config.voucherLostPenaltyAdditional >= 0.0
    ensures LostReceiptFine(config, m) <= LostReceiptFine(config, n)
    ensures n >= 1 ==> LostReceiptFine(config, n) == BasePenalty(config) + (n - 1) as real * AdditionalPenalty(config)
  {
    var a := AdditionalPenalty(config);
    assert a > 0.0;
    if m > 1 {
      assert (m - 1) as real * a <= (n - 1) as real * a;
    }
  }

  /** `handleSave`: the record saved, with both typed amounts read as numbers (0 when empty or not a number). */
  function SaveRecord(f: BreakForm): (r: CashBreak)
    ensures r.amount == NumberOrZero(f.amount) && r.voucherLostValue == NumberOrZero(f.voucherLostValue)
    ensures ParseFloat(f.amount).None? ==> r.amount == 0.0
    ensures r.date == f.date && r.storeId == f.storeId && r.employeeId == f.employeeId
            && r.paymentType == f.paymentType && r.kind == f.kind
            && r.penaltyAmount == f.penaltyAmount && r.totalDiscount == f.totalDiscount
  {
    CashBreak(f.date, f.storeId, f.storeName, f.employeeId, f.employeeName, f.paymentType, f.kind,
              NumberOrZero(f.amount), f.voucherLost, f.voucherLostCount, NumberOrZero(f.voucherLostValue), f.voucherPaid,
              f.penaltyAmount, f.totalDiscount)
  }

  /**
   * The date `handleEdit` puts in the form: the saved date up to its first `T` (dropping a time
   * part), or today's date when none was saved.
   */
  function EditDate(saved: string, today: string): (r: string)
    ensures saved == "" ==> r == today
    ensures saved != "" ==> IsPrefix(r, saved) && 'T' !in r && (|r| < |saved| ==> saved[|r|] == 'T')
  {
    if saved == "" then today
    else
      SplitFirstPiece(saved, 'T');
      Split(saved, 'T')[0]
  }

  /** A saved date with no time part comes back as it was. */
  lemma EditDateKeepsPlainDate(saved: string, today: string)
    requires saved != "" && 'T' !in saved
    ensures EditDate(saved, today) == saved
  {
    var r := EditDate(saved, today);
    assert forall i :: 0 <= i < |saved| ==> saved[i] != 'T';
    assert |r| == |saved|;
  }

  predicate Listed(b: CashBreak, search: string, store: string) {
    ContainsIgnoringCase(b.employeeName, search) && (store == "all" || b.storeId == store)
  }

  /** `filteredBreaks`: name contains the search whatever the case, and the store matches unless "all". */
  function FilteredBreaks(breaks: seq<CashBreak>, search: string, store: string): (r: seq<CashBreak>)
    ensures forall i :: 0 <= i < |r| ==> r[i] in breaks && Listed(r[i], search, store)
    ensures forall i :: 0 <= i < |breaks| && Listed(breaks[i], search, store) ==> breaks[i] in r
  {
    Tally.Filter(breaks, (b: CashBreak) => Listed(b, search, store))
  }
}
