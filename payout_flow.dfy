/**
 * The payout as a whole: the dashboard computes the amount from the market
 * value it displays and the backend subtracts that amount from the value it
 * reads, without checking the two agree.
 */
module PayoutFlow {
  import opened Schema
  import opened Backend
  import opened Dashboard

  /** The request the dashboard sends for a row showing `displayed` as its market value. */
  function DashboardRequest(investorId: Id, investmentId: Id, displayed: real): (req: PayoutRequest)
    ensures req.investorId == investorId && req.investmentId == investmentId
    ensures 20.0 * req.payoutAmount == displayed
  {
    PayoutRequest(investorId, investmentId, PayoutAmount(displayed))
  }

  /**
   * When the display is current, a payout that gets past its first write
   * leaves 95% of the market value, so a non-negative value stays
   * non-negative.
   */
  lemma FreshPayoutKeepsNinetyFivePercent(db: Tables, investorId: Id, investmentId: Id, faults: StoreFaults)
    requires investmentId in db.investments
    ensures var mv := db.investments[investmentId].marketValue;
      var o := Payout(db, DashboardRequest(investorId, investmentId, mv), faults);
      (o.exit.SummaryWriteFailed? || o.exit.Completed?) ==>
        && o.tables.investments[investmentId].marketValue == mv * 0.95
        && (mv >= 0.0 ==> o.tables.investments[investmentId].marketValue >= 0.0)
  {
  }

  /**
   * When the display is stale the amount is not re-derived on the server:
   * a row still showing 100 whose stored value has dropped to 1 is driven
   * to -4.
   */
  lemma StalePayoutOverdraws(db: Tables, investorId: Id, investmentId: Id)
    requires investmentId in db.investments && db.investments[investmentId].marketValue == 1.0
    requires investorId in db.summaries
    ensures var o := Payout(db, DashboardRequest(investorId, investmentId, 100.0), NoFaults);
      o.exit == Completed && o.tables.investments[investmentId].marketValue == -4.0
  {
  }
}
