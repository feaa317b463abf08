# Investor dashboard: payout mutator, read handlers and dashboard sort

This project models the small amount of logic in an investor-dashboard web
application and proves properties of it. The application has two parts:

- an HTTP backend whose three route handlers read and write two tables of a
  hosted database, `investments` and `investor_summary`;
- a single-page dashboard that shows one investor's summary and
  investments, sorts the investments client-side and triggers simulated
  payouts.

The model covers four pieces.

- **Schema** (`schema.dfy`). The two tables are maps. `investments` is keyed
  by its `id` and `investor_summary` by its `investor_id`. `Tables` is the
  whole store as a value.
- **Backend** (`backend.dfy`). It models backend/src/index.ts and
  backend/dist/index.js, which is the compiled form of the same file. The
  handlers' line ranges match as follows: summary 51-73 / 55-75,
  investments 75-96 / 76-95, payout 99-161 / 97-151.
  - Each store call is a function over the tables. Whether the hosted store
    reports an error is decided outside the handler, so it is a parameter:
    a flag per call, or a `StoreFaults` record for the payout's four calls.
    A `.single()` read that finds no row fails with `NotFound`.
  - The two GET handlers are functions, `GetInvestorSummary` and
    `GetInvestments`.
  - `POST /api/simulate-payout` is specified by the function `Payout`. That
    function gives the exit (the step at which the handler stopped), the
    tables left behind and the response, separately for each of the five
    exits.
  - `Database` is a class holding the two tables. Its `SimulatePayout`
    method runs read, read, write, write and stops at the first error. Its
    contract ties the new tables, the exit and the response to `Payout`.
- **DashboardSort** (`dashboard_sort.dfy`). `sortedInvestments` copies the
  list and sorts it with a comparator that subtracts the keys and
  multiplies by ±1. `Array.prototype.sort` is stable, so the result is the
  stable ordering under that comparator. The model computes that ordering
  by insertion sort. It proves the result is a permutation of the input,
  ordered by the key in the chosen direction, and stable: rows with equal
  keys keep their input order.
- **Dashboard** (`dashboard.dfy`). It covers frontend/src/pages/Dashboard.tsx:
  - the sort state machine (`NextSort`, and the class `DashboardState`
    holding the page's React state);
  - the payout amount;
  - the ROI badge;
  - the rendered rows of the table, including the "No investments found"
    row and the per-row disable rule.

  `PayoutFlow` (`payout_flow.dfy`) links the amount the dashboard computes
  to the backend's subtraction.

Money, share counts and ROI are exact `real`s.

The model follows the code wherever one might expect something else:

- One might expect `payoutAmount` to be non-negative. The handler accepts
  any number (`PayoutTrustsItsRequest`, `PayoutExitIgnoresAmount`).
- One might expect the handler to check that the investment belongs to the
  investor being credited. It does not.
- One might expect sorting ascending and then descending to reverse the
  list. With a stable sort this holds only when no two rows share a key.
  `DescendingReversesAscending` proves it under that condition, and
  `TiesAreNotReversed` shows that two tied rows come out in the same order
  both ways.

## Model

| member | source | states |
|---|---|---|
| `Backend.SummaryLookup` | backend/src/index.ts:117-126 | the single-row summary read succeeds exactly when the store does not err and the investor has a row, returning that row; a failure is `ServiceError` exactly when the store erred, else `NotFound` |
| `Backend.MarketValueLookup` | backend/src/index.ts:105-114 | the investment read succeeds exactly when the store does not err and the id exists, returning its `market_value`; otherwise the error says whether the row was missing or the store erred |
| `Backend.WithMarketValue` | backend/src/index.ts:129-134 | the `market_value` update keeps the key set, replaces only that field of the row with the given id, and leaves every other row as it was |
| `Backend.WithSummaryTotals` | backend/src/index.ts:142-148 | the summary update keeps the key set, replaces only `distributions_received` and `portfolio_value` of that investor's row, and leaves every other row as it was |
| `Backend.GetInvestorSummary` | backend/src/index.ts:51-73 | 200 exactly when the store does not err and the row exists, with the stored row unmodified as body (its `investor_id` is the path parameter); otherwise 500 with "Error fetching investor summary" |
| `Backend.RowsOfInvestor` | backend/src/index.ts:80-83 | the equality filter on `investor_id`: every returned row is a table row of that investor, and every table row of that investor named by the scan is returned |
| `Backend.GetInvestments` | backend/src/index.ts:75-96 | 200 exactly when the store does not err, with exactly the rows whose `investor_id` is the path parameter; otherwise 500 with "Error fetching investments" |
| `Backend.RowsOfInvestorFromScan` | backend/dist/index.js:80-83 | with `id` as primary key, every row the filter returns has its id among the scanned keys |
| `Backend.RowsOfInvestorDistinct` | backend/dist/index.js:80-83 | a scan with no repeated key returns no two rows with the same id |
| `Backend.InvestmentsListedOnce` | backend/src/index.ts:80-91 | GET /api/investments lists each investment of the investor once |
| `Backend.PayoutExitOf` | backend/src/index.ts:105-153 | the first failing step decides the exit: a failed or empty investment read, then a failed or empty summary read, then the investment write, then the summary write; `Completed` exactly when both rows exist and no call errs |
| `Backend.Payout` | backend/src/index.ts:99-161 | 200 with "Payout simulated successfully" exactly on `Completed`, else 500 with "Error simulating payout". After a failed read or a failed first write both tables are unchanged. After a failed summary write only the investment is debited: no rollback. On completion the market value is the value read minus the amount, distributions rise by the amount, portfolio value falls by it, their sum is conserved, and no other row or field changes. Primary keys are preserved. |
| `Backend.Database.SelectMarketValue` | backend/dist/index.js:102-110 | step 1 on the stored table, whose rows sit under their own `id`: the market value of the row whose `id` equals the request's, or `NotFound` / `ServiceError` |
| `Backend.Database.SelectSummary` | backend/dist/index.js:112-120 | step 2 on the stored table, whose rows sit under their own `investor_id`: the summary row whose `investor_id` equals the request's, or `NotFound` / `ServiceError` |
| `Backend.Database.UpdateMarketValue` | backend/dist/index.js:122-131 | step 3: on success the investments table becomes `WithMarketValue` of the old one; on a store error nothing changes; the summaries are untouched; rows stay under their primary keys |
| `Backend.Database.UpdateSummaryTotals` | backend/dist/index.js:133-143 | step 4: on success the summaries become `WithSummaryTotals` of the old ones; on a store error nothing changes; the investments are untouched; rows stay under their primary keys |
| `Backend.Database.SimulatePayout` | backend/dist/index.js:97-151 | the handler run step by step leaves exactly the tables, exit and response `Payout` specifies for the old tables; rows stay under their primary keys |
| `Backend.PayoutExample` | backend/src/index.ts:129-148 | market value 500, distributions 100, portfolio 1000 and payout 25 give 475, 125 and 975 |
| `Backend.PayoutTrustsItsRequest` | backend/src/index.ts:101-134 | whenever both rows exist and no call errs the payout completes, whatever the amount's sign and whoever owns the investment |
| `Backend.PayoutExitIgnoresAmount` | backend/src/index.ts:101-153 | the exit does not depend on `payoutAmount`: it is never validated |
| `Backend.RepeatedPayoutsAccumulate` | backend/src/index.ts:105-148 | two payouts in sequence with the same request take the amount off twice (the handler is not idempotent) |
| `DashboardSort.InOrderMeaning` | frontend/src/pages/Dashboard.tsx:94-99 | the comparator puts `a` first or ties exactly when `a`'s key is ≤ `b`'s (ascending) or ≥ (descending); it returns 0 exactly on equal keys |
| `DashboardSort.Compare` | frontend/src/pages/Dashboard.tsx:94-99 | the comparator is negative exactly when `a`'s key is smaller (ascending) or larger (descending) than `b`'s, and zero exactly on equal keys |
| `DashboardSort.Sort` | frontend/src/pages/Dashboard.tsx:93-100 | the sort of the copied list returns a permutation of its input, of the same length, with every earlier row in order with every later one under the comparator |
| `DashboardSort.SortStable` | frontend/src/pages/Dashboard.tsx:93-100 | for every key value, the rows with that key appear in the result in their input order |
| `DashboardSort.SortedByKey` | frontend/src/pages/Dashboard.tsx:94-99 | a list in comparator order has non-decreasing keys when ascending and non-increasing keys when descending |
| `DashboardSort.SortedInvestments` | frontend/src/pages/Dashboard.tsx:93-100 | `sortedInvestments` is a permutation of `investments`, with ROI or distribution instant non-decreasing when ascending and non-increasing when descending, and is stable |
| `DashboardSort.StrictlySortedUnique` | frontend/src/pages/Dashboard.tsx:93-100 | two strictly ordered arrangements of the same rows are equal |
| `DashboardSort.DescendingReversesAscending` | frontend/src/pages/Dashboard.tsx:93-100 | when no two rows share the key, the descending sort is the ascending sort reversed |
| `DashboardSort.TiesAreNotReversed` | frontend/src/pages/Dashboard.tsx:93-100 | two rows with equal ROI come out in input order in both directions, so the descending order is not the reverse of the ascending one |
| `Dashboard.Flip` | frontend/src/pages/Dashboard.tsx:61 | flipping always changes the direction |
| `Dashboard.NextSort` | frontend/src/pages/Dashboard.tsx:59-66 | `handleSort(f)` always selects `f`; on the current field it changes the direction, on another field it resets it to descending |
| `Dashboard.SortToggleTwice` | frontend/src/pages/Dashboard.tsx:59-66 | pressing the current field's button twice restores the state |
| `Dashboard.SortOtherFieldTwice` | frontend/src/pages/Dashboard.tsx:59-66 | pressing another field's button twice leaves it selected and ascending |
| `Dashboard.PayoutAmount` | frontend/src/pages/Dashboard.tsx:71 | the amount is one twentieth (5%) of the displayed market value, between 0 and the value when the value is non-negative |
| `Dashboard.RoiBadge` | frontend/src/pages/Dashboard.tsx:221-225 | green exactly when ROI ≥ 10, blue exactly when 5 ≤ ROI < 10, gray exactly when ROI < 5 |
| `Dashboard.RoiBadgeMonotone` | frontend/src/pages/Dashboard.tsx:221-225 | a higher ROI never gets a lower badge |
| `Dashboard.RowFor` | frontend/src/pages/Dashboard.tsx:214-246 | a table row shows its investment and its ROI badge; its payout button is disabled exactly when its id is the payout in progress, and then reads "Processing..." instead of "Simulate 5% Payout" |
| `Dashboard.TableRows` | frontend/src/pages/Dashboard.tsx:207-248 | an empty list renders exactly the single "No investments found" row; otherwise one row per investment in sorted order, each disabled exactly when its id is in progress |
| `Dashboard.EveryInvestmentShown` | frontend/src/pages/Dashboard.tsx:207-248 | every investment of the list gets a row of the table showing it |
| `Dashboard.AtMostOneDisabled` | frontend/src/pages/Dashboard.tsx:233 | with distinct ids, no two rows are disabled at once |
| `Dashboard.DashboardState.constructor` | frontend/src/pages/Dashboard.tsx:28-34 | the page starts with no data, sort (ROI, descending) and no payout in progress |
| `Dashboard.DashboardState.Sorted` | frontend/src/pages/Dashboard.tsx:93 | the sorted view holds the same rows as the state's `investments`, which it does not change |
| `Dashboard.DashboardState.Rows` | frontend/src/pages/Dashboard.tsx:207-248 | the table body rendered from the page state: the "No investments found" row exactly when the state holds no investments, else one row per investment in the current sort order, each investment shown, each button disabled exactly while that investment's payout is in progress |
| `Dashboard.DashboardState.Show` | frontend/src/pages/Dashboard.tsx:83-84 | a fetched snapshot replaces summary and investments and nothing else |
| `Dashboard.DashboardState.HandleSort` | frontend/src/pages/Dashboard.tsx:59-66 | the new sort state is `NextSort` of the old one; data and payout marker are unchanged |
| `Dashboard.DashboardState.BeginPayout` | frontend/src/pages/Dashboard.tsx:68-71 | the row's id becomes the payout in progress and the request amount is `PayoutAmount` of the displayed value; nothing else changes |
| `Dashboard.DashboardState.EndPayout` | frontend/src/pages/Dashboard.tsx:78-90 | the in-progress marker is cleared; on success the re-fetched data replaces the old, on failure the old data stays |
| `PayoutFlow.DashboardRequest` | frontend/src/pages/Dashboard.tsx:68-76 | the request carries the row's ids and one twentieth of the displayed market value |
| `PayoutFlow.FreshPayoutKeepsNinetyFivePercent` | backend/src/index.ts:129-134 | when the displayed value is current, a payout that passes its first write leaves 95% of the market value, so a non-negative value stays non-negative |
| `PayoutFlow.StalePayoutOverdraws` | backend/src/index.ts:101-134 | when the display is stale the server does not recompute the amount: a row showing 100 whose stored value is 1 ends at -4 |

## Left out

- Express, CORS, the `.env` loading and the start-up check that exits when credentials are missing (backend/src/index.ts:9-48, 164-172). This is framework and process plumbing.
- Logging (`console.log`, `console.error`). It is output only.
- The Supabase client. Each query is modelled as an operation on the two maps. The store's error decisions are parameters. The order in which rows come back is a parameter `scan`, which lists each key of the table once.
- A `.single()` read that matches several rows. The tables are maps keyed by `id` and `investor_id`, so at most one row matches.
- Backend.Database.UpdateMarketValue and Backend.Database.UpdateSummaryTotals: a write that reports an error is taken to have written nothing. A write that commits but whose reply is lost or reports an error is not modelled, so the unchanged tables after `InvestmentWriteFailed` and the unchanged summaries after `SummaryWriteFailed` hold only under that assumption.
- Concurrent payouts and the lost updates they cause. Only one sequential invocation is modelled. `RepeatedPayoutsAccumulate` covers two invocations one after the other.
- Floating-point rounding of `* 0.05` and of the money arithmetic. These are exact reals in the model.
- NaN results of the comparator and unparsable dates. Each row carries the instant that `new Date(next_distribution_date).getTime()` yields, and date parsing is not modelled.
- A request body whose `payoutAmount` is not a number. In that case JavaScript's `+` would concatenate strings. Here the amount is always a number.
- React rendering except the table rows, the initial `useEffect` fetch with its loading and error screens, the axios calls, `alert`, `window.location.reload`, `toLocaleString` and `toFixed`. These are UI and network concerns. `Show` covers the state update these fetches end in.
- frontend/src/pages/Login.tsx. It waits one second and navigates, so it has no logic to model.
