/**
 * The backend's three route handlers (backend/src/index.ts, compiled to
 * backend/dist/index.js with the same logic):
 *
 *   GET  /api/investor-summary/:investorId   a single-row equality lookup
 *   GET  /api/investments/:investorId        a multi-row equality filter
 *   POST /api/simulate-payout                read, read, write, write
 *
 * Every store call is an abstract operation on the two tables of Schema.
 * Whether a call reports an error is decided by the hosted store, not by
 * the handler, so it is a parameter here (a `serviceError` flag per call,
 * or a StoreFaults record for the four calls of a payout).
 */
module Backend {
  import opened Wrappers
  import opened Schema

  /** Why a store call failed: `.single()` found no row, or the service erred. */
  datatype StoreError = NotFound | ServiceError

  /** What a handler sends back: status 200 with a JSON body, or 500 with `{ error }`. */
  datatype Response<+T> = Json200(body: T) | Status500(error: string)

  const InvestorSummaryError := "Error fetching investor summary"
  const InvestmentsError := "Error fetching investments"
  const PayoutError := "Error simulating payout"
  const PayoutSuccess := "Payout simulated successfully"

  // ---------------------------------------------------------------------
  // Store operations, as values
  // ---------------------------------------------------------------------

  /** `investor_summary.select(..).eq('investor_id', investorId).single()`. */
  function SummaryLookup(t: SummaryTable, investorId: Id, serviceError: bool): (r: Result<InvestorSummary, StoreError>)
    ensures r.Ok? <==> !serviceError && investorId in t
    ensures r.Ok? ==> r.value == t[investorId]
    ensures r.Err? ==> (r.error == ServiceError <==> serviceError)
  {
    if serviceError then Err(ServiceError)
    else if investorId !in t then Err(NotFound)
    else Ok(t[investorId])
  }

  /** `investments.select('market_value').eq('id', investmentId).single()`. */
  function MarketValueLookup(t: InvestmentTable, investmentId: Id, serviceError: bool): (r: Result<real, StoreError>)
    ensures r.Ok? <==> !serviceError && investmentId in t
    ensures r.Ok? ==> r.value == t[investmentId].marketValue
    ensures r.Err? ==> (r.error == ServiceError <==> serviceError)
  {
    if serviceError then Err(ServiceError)
    else if investmentId !in t then Err(NotFound)
    else Ok(t[investmentId].marketValue)
  }

  /**
   * `investments.update({ market_value: value }).eq('id', investmentId)`
   * when the store accepts it: the matching row, if any, gets the new
   * value; an update that matches no row changes nothing.
   */
  function WithMarketValue(t: InvestmentTable, investmentId: Id, value: real): (r: InvestmentTable)
    ensures r.Keys == t.Keys
    ensures investmentId in t ==> r[investmentId] == t[investmentId].(marketValue := value)
    ensures forall k :: k in t && k != investmentId ==> r[k] == t[k]
  {
    if investmentId in t then t[investmentId := t[investmentId].(marketValue := value)] else t
  }

  /**
   * `investor_summary.update({ distributions_received, portfolio_value })
   * .eq('investor_id', investorId)` when the store accepts it.
   */
  function WithSummaryTotals(t: SummaryTable, investorId: Id, distributions: real, portfolio: real): (r: SummaryTable)
    ensures r.Keys == t.Keys
    ensures investorId in t ==>
      r[investorId] == t[investorId].(distributionsReceived := distributions, portfolioValue := portfolio)
    ensures forall k :: k in t && k != investorId ==> r[k] == t[k]
  {
    if investorId in t
    then t[investorId := t[investorId].(distributionsReceived := distributions, portfolioValue := portfolio)]
    else t
  }

  // ---------------------------------------------------------------------
  // The two read handlers
  // ---------------------------------------------------------------------

  /** GET /api/investor-summary/:investorId: the stored row, unmodified, or 500. */
  function GetInvestorSummary(t: SummaryTable, investorId: Id, serviceError: bool): (r: Response<InvestorSummary>)
    ensures r.Json200? <==> !serviceError && investorId in t
    ensures r.Json200? ==> r.body == t[investorId]
    ensures r.Json200? && SummariesKeyed(t) ==> r.body.investorId == investorId
    ensures r.Status500? ==> r.error == InvestorSummaryError
  {
    match SummaryLookup(t, investorId, serviceError)
    case Ok(row) => Json200(row)
    case Err(_) => Status500(InvestorSummaryError)
  }

  /** `scan` lists every key of `t` exactly once: the order the store returns rows in. */
  predicate IsScanOf(scan: seq<Id>, t: InvestmentTable) {
    && (forall k :: k in t ==> k in scan)
    && (forall k :: k in scan ==> k in t)
    && (forall i, j :: 0 <= i < j < |scan| ==> scan[i] != scan[j])
  }

  /** `.eq('investor_id', investorId)` over the rows named by `scan`, in scan order. */
  function RowsOfInvestor(t: InvestmentTable, scan: seq<Id>, investorId: Id): (rows: seq<Investment>)
    ensures |rows| <= |scan|
    ensures forall row :: row in rows ==> row.investorId == investorId && row in t.Values
    ensures forall k :: k in scan && k in t && t[k].investorId == investorId ==> t[k] in rows
    decreases |scan|
  {
    if scan == [] then []
    else
      var rest := RowsOfInvestor(t, scan[1..], investorId);
      if scan[0] in t && t[scan[0]].investorId == investorId then [t[scan[0]]] + rest else rest
  }

  /**
   * GET /api/investments/:investorId: exactly the rows whose `investor_id`
   * is the path parameter, in whatever order the store scans them, or 500.
   */
  function GetInvestments(t: InvestmentTable, scan: seq<Id>, investorId: Id, serviceError: bool): (r: Response<seq<Investment>>)
    requires IsScanOf(scan, t)
    ensures r.Json200? <==> !serviceError
    ensures r.Json200? ==> forall row :: row in r.body ==> row.investorId == investorId && row in t.Values
    ensures r.Json200? ==> forall k :: k in t && t[k].investorId == investorId ==> t[k] in r.body
    ensures r.Status500? ==> r.error == InvestmentsError
  {
    if serviceError then Status500(InvestmentsError) else Json200(RowsOfInvestor(t, scan, investorId))
  }

  /** With `id` as primary key, every row RowsOfInvestor returns comes from `scan`. */
  lemma {:induction false} RowsOfInvestorFromScan(t: InvestmentTable, scan: seq<Id>, investorId: Id)
    requires InvestmentsKeyed(t)
    ensures forall row :: row in RowsOfInvestor(t, scan, investorId) ==> row.id in scan
    decreases |scan|
  {
    if scan != [] {
      RowsOfInvestorFromScan(t, scan[1..], investorId);
    }
  }

  /** No two rows of `rows` share an `id`. */
  predicate DistinctIds(rows: seq<Investment>) {
    forall i, j :: 0 <= i < j < |rows| ==> rows[i].id != rows[j].id
  }

  /** A scan without repeated keys yields each matching row once. */
  lemma {:induction false} RowsOfInvestorDistinct(t: InvestmentTable, scan: seq<Id>, investorId: Id)
    requires InvestmentsKeyed(t)
    requires forall i, j :: 0 <= i < j < |scan| ==> scan[i] != scan[j]
    ensures DistinctIds(RowsOfInvestor(t, scan, investorId))
    decreases |scan|
  {
    if scan != [] {
      var rest := RowsOfInvestor(t, scan[1..], investorId);
      RowsOfInvestorDistinct(t, scan[1..], investorId);
      RowsOfInvestorFromScan(t, scan[1..], investorId);
      assert scan[0] !in scan[1..] by {
        forall j | 0 <= j < |scan[1..]| ensures scan[1..][j] != scan[0] {
          assert scan[1..][j] == scan[j + 1];
        }
      }
      if scan[0] in t && t[scan[0]].investorId == investorId {
        var rows := [t[scan[0]]] + rest;
        forall i, j | 0 <= i < j < |rows| ensures rows[i].id != rows[j].id {
          if i == 0 {
            assert rows[0].id == scan[0];
            assert rows[j] == rest[j - 1] && rest[j - 1] in rest;
            assert rows[j].id in scan[1..];
          } else {
            assert rows[i] == rest[i - 1] && rows[j] == rest[j - 1];
          }
        }
      }
    }
  }

  /** GET /api/investments lists every investment of the investor exactly once. */
  lemma InvestmentsListedOnce(t: InvestmentTable, scan: seq<Id>, investorId: Id)
    requires InvestmentsKeyed(t)
    requires IsScanOf(scan, t)
    ensures var r := GetInvestments(t, scan, investorId, false);
      r.Json200? && DistinctIds(r.body)
  {
    RowsOfInvestorDistinct(t, scan, investorId);
  }

  // ---------------------------------------------------------------------
  // POST /api/simulate-payout
  // ---------------------------------------------------------------------

  /** The JSON body `{ investorId, investmentId, payoutAmount }`, taken as given. */
  datatype PayoutRequest = PayoutRequest(investorId: Id, investmentId: Id, payoutAmount: real)

  /** Which of the payout's four store calls report an error, in call order. */
  datatype StoreFaults = StoreFaults(
    selectInvestment: bool, selectSummary: bool, updateInvestment: bool, updateSummary: bool)

  const NoFaults := StoreFaults(false, false, false, false)

  /** The step at which the handler left its sequence, or Completed. */
  datatype PayoutExit =
    | InvestmentReadFailed(cause: StoreError)
    | SummaryReadFailed(cause: StoreError)
    | InvestmentWriteFailed
    | SummaryWriteFailed
    | Completed

  datatype PayoutOutcome = PayoutOutcome(exit: PayoutExit, tables: Tables, response: Response<string>)

  /** Both reads find their row when the store does not err. */
  predicate RowsPresent(db: Tables, req: PayoutRequest) {
    req.investmentId in db.investments && req.investorId in db.summaries
  }

  /** Both reads succeed. */
  predicate ReadsSucceed(db: Tables, req: PayoutRequest, faults: StoreFaults) {
    !faults.selectInvestment && !faults.selectSummary && RowsPresent(db, req)
  }

  /** The first of the four steps that fails decides the exit. */
  function PayoutExitOf(db: Tables, req: PayoutRequest, faults: StoreFaults): (e: PayoutExit)
    ensures e.InvestmentReadFailed? <==> faults.selectInvestment || req.investmentId !in db.investments
    ensures e.InvestmentReadFailed? ==> (e.cause == ServiceError <==> faults.selectInvestment)
    ensures e.SummaryReadFailed? <==>
      !faults.selectInvestment && req.investmentId in db.investments
      && (faults.selectSummary || req.investorId !in db.summaries)
    ensures e.SummaryReadFailed? ==> (e.cause == ServiceError <==> faults.selectSummary)
    ensures e.InvestmentWriteFailed? <==> ReadsSucceed(db, req, faults) && faults.updateInvestment
    ensures e.SummaryWriteFailed? <==>
      ReadsSucceed(db, req, faults) && !faults.updateInvestment && faults.updateSummary
    ensures e.Completed? <==>
      ReadsSucceed(db, req, faults) && !faults.updateInvestment && !faults.updateSummary
  {
    match MarketValueLookup(db.investments, req.investmentId, faults.selectInvestment)
    case Err(cause) => InvestmentReadFailed(cause)
    case Ok(_) =>
      match SummaryLookup(db.summaries, req.investorId, faults.selectSummary)
      case Err(cause) => SummaryReadFailed(cause)
      case Ok(_) =>
        if faults.updateInvestment then InvestmentWriteFailed
        else if faults.updateSummary then SummaryWriteFailed
        else Completed
  }

  /**
   * `after` is `before` with exactly one change: the market value of the
   * investment `investmentId` is lowered by `amount`.
   */
  predicate Debited(before: InvestmentTable, after: InvestmentTable, investmentId: Id, amount: real) {
    && investmentId in before
    && after.Keys == before.Keys
    && after[investmentId] == before[investmentId].(marketValue := before[investmentId].marketValue - amount)
    && forall k :: k in before && k != investmentId ==> after[k] == before[k]
  }

  /**
   * `after` is `before` with exactly one change: the summary of `investorId`
   * has `amount` more distributions received and `amount` less portfolio value.
   */
  predicate Credited(before: SummaryTable, after: SummaryTable, investorId: Id, amount: real) {
    && investorId in before
    && after.Keys == before.Keys
    && after[investorId] == before[investorId].(
         distributionsReceived := before[investorId].distributionsReceived + amount,
         portfolioValue := before[investorId].portfolioValue - amount)
    && forall k :: k in before && k != investorId ==> after[k] == before[k]
  }

  /**
   * The specification of one sequential invocation of the payout handler:
   * its exit, the tables it leaves behind and its response. Both writes use
   * the values the two reads returned; nothing is rolled back.
   */
  function Payout(db: Tables, req: PayoutRequest, faults: StoreFaults): (o: PayoutOutcome)
    ensures o.exit == PayoutExitOf(db, req, faults)
    ensures o.response.Json200? <==> o.exit.Completed?
    ensures o.response.Json200? ==> o.response.body == PayoutSuccess
    ensures o.response.Status500? ==> o.response.error == PayoutError
    // a failed read, or a failed first write: nothing changed
    ensures o.exit.InvestmentReadFailed? || o.exit.SummaryReadFailed? || o.exit.InvestmentWriteFailed?
      ==> o.tables == db
    // the first write landed, the second did not: no rollback
    ensures o.exit.SummaryWriteFailed? ==>
      Debited(db.investments, o.tables.investments, req.investmentId, req.payoutAmount)
      && o.tables.summaries == db.summaries
    ensures o.exit.Completed? ==>
      Debited(db.investments, o.tables.investments, req.investmentId, req.payoutAmount)
      && Credited(db.summaries, o.tables.summaries, req.investorId, req.payoutAmount)
    // distributions received plus portfolio value is conserved
    ensures o.exit.Completed? ==>
      o.tables.summaries[req.investorId].distributionsReceived + o.tables.summaries[req.investorId].portfolioValue
      == db.summaries[req.investorId].distributionsReceived + db.summaries[req.investorId].portfolioValue
    ensures TablesKeyed(db) ==> TablesKeyed(o.tables)
  {
    var exit := PayoutExitOf(db, req, faults);
    var investments :=
      if exit.SummaryWriteFailed? || exit.Completed?
      then WithMarketValue(db.investments, req.investmentId,
                           db.investments[req.investmentId].marketValue - req.payoutAmount)
      else db.investments;
    var summaries :=
      if exit.Completed?
      then WithSummaryTotals(db.summaries, req.investorId,
                             db.summaries[req.investorId].distributionsReceived + req.payoutAmount,
                             db.summaries[req.investorId].portfolioValue - req.payoutAmount)
      else db.summaries;
    var response := if exit.Completed? then Json200(PayoutSuccess) else Status500(PayoutError);
    PayoutOutcome(exit, Tables(investments, summaries), response)
  }

  /** The store, with the four calls the payout handler makes and the handler itself. */
  class Database {
    var investments: InvestmentTable
    var summaries: SummaryTable

    /** A store whose rows sit under their primary keys, as the schema enforces. */
    constructor (investments: InvestmentTable, summaries: SummaryTable)
      requires TablesKeyed(Tables(investments, summaries))
      ensures this.investments == investments && this.summaries == summaries
      ensures Valid()
    {
      this.investments := investments;
      this.summaries := summaries;
    }

    function Snapshot(): (db: Tables)
      reads this
    {
      Tables(investments, summaries)
    }

    /** Rows sit under their primary keys. */
    predicate Valid()
      reads this
    {
      TablesKeyed(Snapshot())
    }

    /** Step 1: read the investment's market value. */
    method SelectMarketValue(investmentId: Id, serviceError: bool) returns (r: Result<real, StoreError>)
      requires Valid()
      ensures r.Ok? <==> !serviceError && investmentId in investments
      ensures r.Ok? ==> investments[investmentId].id == investmentId
      ensures r.Ok? ==> r.value == investments[investmentId].marketValue
      ensures r.Err? ==> (r.error == ServiceError <==> serviceError)
    {
      r := MarketValueLookup(investments, investmentId, serviceError);
    }

    /** Step 2: read the investor's summary. */
    method SelectSummary(investorId: Id, serviceError: bool) returns (r: Result<InvestorSummary, StoreError>)
      requires Valid()
      ensures r.Ok? ==> r.value.investorId == investorId
      ensures r.Ok? <==> !serviceError && investorId in summaries
      ensures r.Ok? ==> r.value == summaries[investorId]
      ensures r.Err? ==> (r.error == ServiceError <==> serviceError)
    {
      r := SummaryLookup(summaries, investorId, serviceError);
    }

    /** Step 3: write the investment's market value; a store error writes nothing. */
    method UpdateMarketValue(investmentId: Id, value: real, serviceError: bool) returns (ok: bool)
      requires Valid()
      modifies this
      ensures Valid()
      ensures ok == !serviceError
      ensures investments == if ok then WithMarketValue(old(investments), investmentId, value) else old(investments)
      ensures summaries == old(summaries)
    {
      ok := !serviceError;
      if ok {
        investments := WithMarketValue(investments, investmentId, value);
      }
    }

    /** Step 4: write the summary's two totals; a store error writes nothing. */
    method UpdateSummaryTotals(investorId: Id, distributions: real, portfolio: real, serviceError: bool)
      returns (ok: bool)
      requires Valid()
      modifies this
      ensures Valid()
      ensures ok == !serviceError
      ensures summaries ==
        if ok then WithSummaryTotals(old(summaries), investorId, distributions, portfolio) else old(summaries)
      ensures investments == old(investments)
    {
      ok := !serviceError;
      if ok {
        summaries := WithSummaryTotals(summaries, investorId, distributions, portfolio);
      }
    }

    /** POST /api/simulate-payout: the four steps in order, stopping at the first error. */
    method SimulatePayout(req: PayoutRequest, faults: StoreFaults) returns (response: Response<string>, exit: PayoutExit)
      requires Valid()
      modifies this
      ensures Valid()
      ensures exit == Payout(old(Snapshot()), req, faults).exit
      ensures response == Payout(old(Snapshot()), req, faults).response
      ensures Snapshot() == Payout(old(Snapshot()), req, faults).tables
    {
      var investment := SelectMarketValue(req.investmentId, faults.selectInvestment);
      if investment.Err? {
        return Status500(PayoutError), InvestmentReadFailed(investment.error);
      }
      var summary := SelectSummary(req.investorId, faults.selectSummary);
      if summary.Err? {
        return Status500(PayoutError), SummaryReadFailed(summary.error);
      }
      var ok := UpdateMarketValue(req.investmentId, investment.value - req.payoutAmount, faults.updateInvestment);
      if !ok {
        return Status500(PayoutError), InvestmentWriteFailed;
      }
      ok := UpdateSummaryTotals(req.investorId,
                                summary.value.distributionsReceived + req.payoutAmount,
                                summary.value.portfolioValue - req.payoutAmount,
                                faults.updateSummary);
      if !ok {
        return Status500(PayoutError), SummaryWriteFailed;
      }
      return Json200(PayoutSuccess), Completed;
    }
  }

  // ---------------------------------------------------------------------
  // Properties relating several payouts or particular stores
  // ---------------------------------------------------------------------

  /**
   * The worked example: market value 500, distributions 100, portfolio 1000,
   * payout 25 gives 475, 125 and 975.
   */
  lemma PayoutExample(db: Tables, investorId: Id, investmentId: Id)
    requires investmentId in db.investments && db.investments[investmentId].marketValue == 500.0
    requires investorId in db.summaries
    requires db.summaries[investorId].distributionsReceived == 100.0
    requires db.summaries[investorId].portfolioValue == 1000.0
    ensures var o := Payout(db, PayoutRequest(investorId, investmentId, 25.0), NoFaults);
      && o.exit == Completed
      && o.tables.investments[investmentId].marketValue == 475.0
      && o.tables.summaries[investorId].distributionsReceived == 125.0
      && o.tables.summaries[investorId].portfolioValue == 975.0
  {
  }

  /**
   * The handler checks neither that the investment belongs to the investor
   * nor the amount: another investor's position is debited while this
   * investor is credited, and a negative amount raises the market value.
   */
  lemma PayoutTrustsItsRequest(db: Tables, req: PayoutRequest)
    requires RowsPresent(db, req)
    ensures var o := Payout(db, req, NoFaults);
      && o.exit == Completed
      && o.tables.investments[req.investmentId].marketValue
         == db.investments[req.investmentId].marketValue - req.payoutAmount
      && o.tables.summaries[req.investorId].distributionsReceived
         == db.summaries[req.investorId].distributionsReceived + req.payoutAmount
  {
  }

  /** The exit does not depend on the amount: no validation of it happens. */
  lemma PayoutExitIgnoresAmount(db: Tables, req: PayoutRequest, faults: StoreFaults, amount: real)
    ensures Payout(db, req.(payoutAmount := amount), faults).exit == Payout(db, req, faults).exit
  {
  }

  /**
   * Two payouts in sequence with the same request are not idempotent:
   * both amounts are taken off, even though only the second read sees the
   * first write.
   */
  lemma {:induction false} RepeatedPayoutsAccumulate(db: Tables, req: PayoutRequest)
    requires RowsPresent(db, req)
    ensures var first := Payout(db, req, NoFaults);
      var second := Payout(first.tables, req, NoFaults);
      && second.exit == Completed
      && second.tables.investments[req.investmentId].marketValue
         == db.investments[req.investmentId].marketValue - 2.0 * req.payoutAmount
      && second.tables.summaries[req.investorId].distributionsReceived
         == db.summaries[req.investorId].distributionsReceived + 2.0 * req.payoutAmount
      && second.tables.summaries[req.investorId].portfolioValue
         == db.summaries[req.investorId].portfolioValue - 2.0 * req.payoutAmount
  {
    var first := Payout(db, req, NoFaults);
    assert RowsPresent(first.tables, req);
  }
}
