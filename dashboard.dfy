/**
 * The dashboard page's state and the table it renders
 * (frontend/src/pages/Dashboard.tsx): the sort state machine behind the two
 * sort buttons, the payout trigger that disables its own row while the
 * request is outstanding, the ROI badge and the rows of the table.
 */
module Dashboard {
  import opened Wrappers
  import opened Schema
  import opened DashboardSort

  // ---------------------------------------------------------------------
  // Sorting state
  // ---------------------------------------------------------------------

  /** The sort shown when the page opens: ROI, highest first. */
  const InitialSort := SortState(RoiPercent, Desc)

  function Flip(d: SortDirection): (r: SortDirection)
    ensures r != d
  {
    if d == Asc then Desc else Asc
  }

  /**
   * `handleSort(field)`: the same field flips the direction, another field
   * is selected with the direction reset to descending.
   */
  function NextSort(s: SortState, field: SortField): (r: SortState)
    ensures r.field == field
    ensures field == s.field ==> r.direction != s.direction
    ensures field != s.field ==> r.direction == Desc
  {
    if field == s.field then SortState(s.field, Flip(s.direction)) else SortState(field, Desc)
  }

  /** Pressing the button of the current field twice gives back the state. */
  lemma SortToggleTwice(s: SortState)
    ensures NextSort(NextSort(s, s.field), s.field) == s
  {
  }

  /** From any state, two presses of a new field end ascending on it. */
  lemma SortOtherFieldTwice(s: SortState, field: SortField)
    requires field != s.field
    ensures NextSort(NextSort(s, field), field) == SortState(field, Asc)
  {
  }

  // ---------------------------------------------------------------------
  // Payout amount, ROI badge, table rows
  // ---------------------------------------------------------------------

  /** `marketValue * 0.05`, computed from the market value on display. */
  function PayoutAmount(marketValue: real): (amount: real)
    ensures 20.0 * amount == marketValue
    ensures 0.0 <= marketValue ==> 0.0 <= amount <= marketValue
  {
    marketValue * 0.05
  }

  datatype Badge = Green | Blue | Gray

  /** The colour of the ROI badge. */
  function RoiBadge(roiPercent: real): (b: Badge)
    ensures b == Green <==> roiPercent >= 10.0
    ensures b == Blue <==> 5.0 <= roiPercent < 10.0
    ensures b == Gray <==> roiPercent < 5.0
  {
    if roiPercent >= 10.0 then Green else if roiPercent >= 5.0 then Blue else Gray
  }

  function BadgeRank(b: Badge): (rank: nat) {
    match b
    case Gray => 0
    case Blue => 1
    case Green => 2
  }

  /** A higher ROI never gets a lower badge. */
  lemma RoiBadgeMonotone(lower: real, higher: real)
    requires lower <= higher
    ensures BadgeRank(RoiBadge(lower)) <= BadgeRank(RoiBadge(higher))
  {
  }

  const NoInvestmentsText := "No investments found"
  const PayoutButtonText := "Simulate 5% Payout"
  const ProcessingText := "Processing..."

  /** One rendered row of the investments table. */
  datatype RowView =
    | NoInvestmentsRow(text: string)
    | InvestmentRow(investment: Investment, badge: Badge, payoutDisabled: bool, buttonText: string)

  function RowFor(row: Investment, inProgress: Option<Id>): (v: RowView)
    ensures v.InvestmentRow? && v.investment == row && v.badge == RoiBadge(row.roiPercent)
    ensures v.payoutDisabled <==> inProgress == Some(row.id)
    ensures v.buttonText == if v.payoutDisabled then ProcessingText else PayoutButtonText
  {
    var busy := inProgress == Some(row.id);
    InvestmentRow(row, RoiBadge(row.roiPercent), busy, if busy then ProcessingText else PayoutButtonText)
  }

  /**
   * The table body for `sorted`: the single placeholder row when there is
   * nothing to show, else one row per investment, in order, whose payout
   * button is disabled exactly when its id is the payout in progress.
   */
  function TableRows(sorted: seq<Investment>, inProgress: Option<Id>): (rows: seq<RowView>)
    ensures sorted == [] <==> rows == [NoInvestmentsRow(NoInvestmentsText)]
    ensures sorted != [] ==> |rows| == |sorted|
    ensures sorted != [] ==> forall i :: 0 <= i < |rows| ==>
      && rows[i].InvestmentRow?
      && rows[i].investment == sorted[i]
      && rows[i].badge == RoiBadge(sorted[i].roiPercent)
      && (rows[i].payoutDisabled <==> inProgress == Some(sorted[i].id))
  {
    if sorted == [] then [NoInvestmentsRow(NoInvestmentsText)]
    else
      var rows := seq(|sorted|, i requires 0 <= i < |sorted| => RowFor(sorted[i], inProgress));
      assert rows[0].InvestmentRow?;
      rows
  }

  /** Every investment of a rearrangement `sorted` of `all` gets a row of its own. */
  lemma EveryInvestmentShown(sorted: seq<Investment>, all: seq<Investment>, inProgress: Option<Id>)
    requires multiset(sorted) == multiset(all)
    ensures var rows := TableRows(sorted, inProgress);
      forall row :: row in all ==>
        exists i :: 0 <= i < |rows| && rows[i].InvestmentRow? && rows[i].investment == row
  {
    var rows := TableRows(sorted, inProgress);
    forall row | row in all
      ensures exists i :: 0 <= i < |rows| && rows[i].InvestmentRow? && rows[i].investment == row
    {
      assert row in multiset(all);
      assert row in sorted;
      var i :| 0 <= i < |sorted| && sorted[i] == row;
      assert rows[i].investment == row;
    }
  }

  /** With distinct ids, at most one payout button is disabled at a time. */
  lemma AtMostOneDisabled(sorted: seq<Investment>, inProgress: Option<Id>)
    requires forall i, j :: 0 <= i < j < |sorted| ==> sorted[i].id != sorted[j].id
    ensures var rows := TableRows(sorted, inProgress);
      forall i, j :: 0 <= i < j < |rows| && rows[i].InvestmentRow? && rows[j].InvestmentRow?
        ==> !(rows[i].payoutDisabled && rows[j].payoutDisabled)
  {
  }

  /** Investor summary and investments, as the two GET responses deliver them. */
  datatype Snapshot = Snapshot(summary: InvestorSummary, investments: seq<Investment>)

  // ---------------------------------------------------------------------
  // The page's state
  // ---------------------------------------------------------------------

  /** The React state of the page that the table depends on. */
  class DashboardState {
    var summary: Option<InvestorSummary>
    var investments: seq<Investment>
    var sortField: SortField
    var sortDirection: SortDirection
    var showPayoutAnimation: Option<Id>

    /** The initial `useState` values. */
    constructor ()
      ensures summary == None && investments == []
      ensures CurrentSort() == InitialSort
      ensures showPayoutAnimation == None
    {
      summary := None;
      investments := [];
      sortField := RoiPercent;
      sortDirection := Desc;
      showPayoutAnimation := None;
    }

    function CurrentSort(): (s: SortState)
      reads this
    {
      SortState(sortField, sortDirection)
    }

    /** `sortedInvestments`, recomputed from the state; `investments` is left as it is. */
    function Sorted(): (r: seq<Investment>)
      reads this
      ensures multiset(r) == multiset(investments)
      ensures |r| == |investments|
    {
      SortedInvestments(investments, CurrentSort())
    }

    /**
     * The table body as rendered from the current state: the placeholder
     * row exactly when there are no investments, else one row per
     * investment in the current sort order, whose button is disabled
     * exactly while that investment's payout is in progress.
     */
    function Rows(): (rows: seq<RowView>)
      reads this
      ensures investments == [] <==> rows == [NoInvestmentsRow(NoInvestmentsText)]
      ensures investments != [] ==> |rows| == |investments|
      ensures investments != [] ==> forall i :: 0 <= i < |rows| ==>
        && rows[i].InvestmentRow?
        && rows[i].investment == Sorted()[i]
        && (rows[i].payoutDisabled <==> showPayoutAnimation == Some(rows[i].investment.id))
      ensures forall row :: row in investments ==>
        exists i :: 0 <= i < |rows| && rows[i].InvestmentRow? && rows[i].investment == row
    {
      EveryInvestmentShown(Sorted(), investments, showPayoutAnimation);
      TableRows(Sorted(), showPayoutAnimation)
    }

    /** `setSummary`/`setInvestments` with a fetched snapshot. */
    method Show(data: Snapshot)
      modifies this
      ensures summary == Some(data.summary) && investments == data.investments
      ensures CurrentSort() == old(CurrentSort()) && showPayoutAnimation == old(showPayoutAnimation)
    {
      summary := Some(data.summary);
      investments := data.investments;
    }

    /** `handleSort(field)`. */
    method HandleSort(field: SortField)
      modifies this
      ensures CurrentSort() == NextSort(old(CurrentSort()), field)
      ensures investments == old(investments) && summary == old(summary)
      ensures showPayoutAnimation == old(showPayoutAnimation)
    {
      if field == sortField {
        sortDirection := if sortDirection == Asc then Desc else Asc;
      } else {
        sortField := field;
        sortDirection := Desc;
      }
    }

    /**
     * The start of `handlePayout`: mark the row busy and compute the amount
     * the request carries.
     */
    method BeginPayout(investmentId: Id, marketValue: real) returns (payoutAmount: real)
      modifies this
      ensures showPayoutAnimation == Some(investmentId)
      ensures payoutAmount == PayoutAmount(marketValue)
      ensures investments == old(investments) && summary == old(summary) && CurrentSort() == old(CurrentSort())
    {
      showPayoutAnimation := Some(investmentId);
      payoutAmount := PayoutAmount(marketValue);
    }

    /**
     * The end of `handlePayout`: on success (`refreshed` holds the re-fetched
     * data) the data is replaced, on failure it is kept; either way the
     * busy marker is cleared.
     */
    method EndPayout(refreshed: Option<Snapshot>)
      modifies this
      ensures showPayoutAnimation == None
      ensures refreshed.Some? ==>
        summary == Some(refreshed.value.summary) && investments == refreshed.value.investments
      ensures refreshed.None? ==> summary == old(summary) && investments == old(investments)
      ensures CurrentSort() == old(CurrentSort())
    {
      if refreshed.Some? {
        Show(refreshed.value);
      }
      showPayoutAnimation := None;
    }
  }
}
