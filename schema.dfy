/**
 * The two tables of the hosted database that the backend reads and writes,
 * `investments` and `investor_summary`, and the row shapes the dashboard
 * receives through the JSON responses.
 */
module Schema {

  /** Identifiers are opaque strings (UUIDs in the deployed database). */
  type Id = string

  /**
   * A row of `investments`. Money, share counts and the ROI percentage are
   * JavaScript numbers; here they are exact reals. `nextDistribution` stands
   * for the instant `new Date(next_distribution_date).getTime()` denotes,
   * in milliseconds, which is all the dashboard ever compares.
   */
  datatype Investment = Investment(
    id: Id,
    investorId: Id,
    projectName: string,
    tokenClass: string,
    sharesOwned: real,
    marketValue: real,
    roiPercent: real,
    nextDistribution: int)

  /** A row of `investor_summary`: one per investor. */
  datatype InvestorSummary = InvestorSummary(
    investorId: Id,
    totalInvestedAmount: real,
    portfolioValue: real,
    distributionsReceived: real,
    outstandingCommitments: real)

  /** `investments`, keyed by its primary key `id`. */
  type InvestmentTable = map<Id, Investment>

  /** `investor_summary`, keyed by `investor_id`. */
  type SummaryTable = map<Id, InvestorSummary>

  /** Every row is stored under its own `id`. */
  predicate InvestmentsKeyed(t: InvestmentTable) {
    forall k :: k in t ==> t[k].id == k
  }

  /** Every summary is stored under its own `investor_id`. */
  predicate SummariesKeyed(t: SummaryTable) {
    forall k :: k in t ==> t[k].investorId == k
  }

  /** The whole store as one value. */
  datatype Tables = Tables(investments: InvestmentTable, summaries: SummaryTable)

  predicate TablesKeyed(db: Tables) {
    InvestmentsKeyed(db.investments) && SummariesKeyed(db.summaries)
  }
}
