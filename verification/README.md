# Community-tourism revenue ledger

A Dafny model of the revenue tracker's ledger. The tracker is a browser page.
A user records revenue from four kinds of community-tourism activity: homestay,
guided tour, local food and handicraft. Each entry is split into an
individual share and a community-fund share by a fixed percentage table and
appended to an in-memory list of transactions. From that list the page
derives the dashboard totals, the per-activity chart, the
individual-versus-community chart and the table of the ten most recent entries.

With the page plumbing removed, the logic is one guarded append plus a few
reductions over the list. The model states it that way:

- `shares.dfy` (module `Shares`): the activity types, the revenue-share
  table, the share arithmetic in exact `real`s, the table keys and the
  display labels.
- `text.dfy` (module `Text`): JavaScript's `String.prototype.trim`, which
  is applied to the beneficiary name. It strips the WhiteSpace and
  LineTerminator code points of section 22.1.3.32 of ECMA-262.
- `ledger.dfy` (module `Ledger`): the transaction record and the
  per-record invariant. It also holds `addRevenue` as a pure function from
  the ledger and the already-read form values to the new ledger plus the
  alert raised, if any, and the replay of a whole session of submissions.
- `totals.dfy` (module `Totals`): the three dashboard sums, the
  distribution-chart data and a loop-based `reduce`.
- `breakdown.dfy` (module `Breakdown`): the `activityTotals` object, kept
  as an association list in property order, and the activity-chart data
  built from it.
- `recent.dfy` (module `Recent`): `slice(-10).reverse()`.
- `wrappers.dfy` (module `Wrappers`): `Option` and `Result`.

The inputs that come from the host are parameters. The parsed amount is an
`Option<real>`, where `None` stands for `NaN`. The transaction id
(`Date.now()`) and the date string (`toLocaleDateString()`) are passed in
as given.

The activity totals are an association list because the source's object
keys are the four non-numeric strings `homestay`, `guided-tour`, `food` and
`handicraft`. For such keys JavaScript enumerates properties in insertion
order, so `Object.keys` and `Object.values` list the activities in order of
first occurrence.

Notes on the source's behaviour:

- The amount guard `!amount || amount <= 0` rejects `NaN`, zero and negative
  amounts. It does not reject `Infinity`.
- The page has no storage calls. The ledger lives only in memory.
- `addRevenue` returns nothing. On bad input it raises an alert with the
  text "Please enter a valid amount" or "Please enter beneficiary name".
- The recent list shows at most 10 entries. The limit is the constant 10 in
  `slice(-10)` (`RecentLimit`), not a parameter.

## Model

| member | source | states |
|---|---|---|
| Shares.ShareOf | revenuetracker/script.js:5-10 | every activity's individual and community percentages add up to 100, both lie strictly between 0 and 100, and the community part is the smaller one |
| Shares.SplitIdentity | revenuetracker/script.js:45-47 | for a positive amount, the individual share plus the community share equals the amount exactly, and each share is positive and smaller than the amount |
| Shares.FromKey | revenuetracker/script.js:5-10 | a lookup among the table's own keys succeeds only for a key that is the key of the activity it returns |
| Shares.KeyRoundTrip | revenuetracker/script.js:5-10 | looking up an activity's key finds that activity, and only that key finds it |
| Shares.LabelInjective | revenuetracker/script.js:12-17 | two activities have the same label only if they are the same activity |
| Text.Trim | revenuetracker/script.js:36 | the trimmed name is no longer than the input and neither starts nor ends with whitespace |
| Text.TrimIsSlice | revenuetracker/script.js:36 | the trimmed name is a contiguous piece of the input, and everything cut away on either side is whitespace |
| Text.TrimPadded | revenuetracker/script.js:36 | a name without surrounding whitespace (possibly empty), typed with one space on each side, trims back to the bare name |
| Text.TrimEmptyIffBlank | revenuetracker/script.js:36 | trimming gives the empty string exactly when the input is all whitespace |
| Text.TrimOfTrimmed | revenuetracker/script.js:36 | trimming leaves a string with no whitespace at either end unchanged |
| Text.TrimIdempotent | revenuetracker/script.js:36 | trimming twice is the same as trimming once |
| Ledger.NewTransaction | revenuetracker/script.js:35-56 | a missing, NaN, zero or negative amount is refused as an invalid amount, whatever the beneficiary. With a valid amount, an all-whitespace beneficiary is refused as missing. Otherwise the record carries the given activity, amount, id, date and trimmed name, satisfies the record invariant, and its shares add up to the amount |
| Ledger.AddRevenue | revenuetracker/script.js:33-57 | a refused submission leaves the ledger exactly as it was and raises the matching alert. An accepted one appends exactly one record at the end, keeps every earlier record, and preserves the ledger invariant |
| Ledger.AppendValid | revenuetracker/script.js:57 | pushing a valid record keeps every earlier record in place and keeps a valid ledger valid |
| Ledger.ReplayAppendOnly | revenuetracker/script.js:2-57 | over any session of submissions the ledger only grows, by one record per accepted submission, keeps its starting contents as a prefix, and every ledger reachable from the empty one is valid |
| Ledger.GuidedTourScenario | revenuetracker/script.js:45-56 | a guided tour of 2000 for Alice records 1400 for Alice and 600 for the community |
| Ledger.HandicraftScenario | revenuetracker/script.js:45-56 | a handicraft sale of 100 for Bob records 80 for Bob and 20 for the community |
| Ledger.RefusalScenarios | revenuetracker/script.js:37-44 | a zero amount with a blank name is an invalid amount, a NaN amount is an invalid amount, and a positive amount with a blank name is a missing beneficiary |
| Totals.SumAppend | revenuetracker/script.js:67-69 | appending a transaction adds exactly its value to a running sum |
| Totals.AppendTotals | revenuetracker/script.js:67-69 | appending a transaction raises the total revenue by its amount, the community fund by its community share and the individual earnings by its individual share |
| Totals.SplitTotals | revenuetracker/script.js:67-69 | over a valid ledger, the total community fund plus the total individual earnings equals the total revenue, with 0 <= community <= individual <= revenue, and the community fund is positive once anything is recorded |
| Totals.UpdateDashboard | revenuetracker/script.js:66-69 | the three left-to-right loops compute the dashboard's total revenue, community fund and individual earnings |
| Totals.DistributionData | revenuetracker/script.js:165-167 | the distribution chart gets two values: the dashboard's individual earnings, then its community fund |
| Totals.AddRevenueTotals | revenuetracker/script.js:33-69 | an accepted submission raises total revenue by its amount and each share total by its share; a refused one changes no total |
| Totals.ReplayRevenue | revenuetracker/script.js:33-67 | after any session started from the empty ledger, the total revenue equals the sum of the accepted amounts |
| Breakdown.Credit | revenuetracker/script.js:159 | crediting an activity keeps an existing key in place or appends a new key at the end. That key's value grows by the amount, no other key's value changes, and the grand total grows by the amount |
| Breakdown.ActivityTotalsKeys | revenuetracker/script.js:157-160 | the keys of the activity totals are exactly the activities that occur in the ledger, each appearing once |
| Breakdown.ActivityTotalsOrder | revenuetracker/script.js:157-161 | the keys are ordered by where each activity first occurs in the ledger |
| Breakdown.ActivityTotalsValues | revenuetracker/script.js:157-160 | the value under each activity equals the sum of the amounts of that activity's transactions, and 0 when it has none |
| Breakdown.ActivityTotalsGrand | revenuetracker/script.js:157-160 | the activity totals add up to the total revenue |
| Breakdown.ActivityChart | revenuetracker/script.js:157-162 | the activity chart has one distinct label per occurring activity, the value beside each label is that activity's revenue, and the values add up to the total revenue |
| Breakdown.UpdateActivityTotals | revenuetracker/script.js:157-160 | the forEach loop builds exactly the activity totals |
| Breakdown.ActivityTotalsScenario | revenuetracker/script.js:157-160 | a homestay of 1000 followed by food of 500 gives homestay 1000, then food 500 |
| Breakdown.FirstIndexAppend | revenuetracker/script.js:159 | appending a transaction does not move the first occurrence of an activity already in the ledger |
| Recent.Reverse | revenuetracker/script.js:82 | the reversal has the same length, and element i is element n-1-i of the input |
| Recent.Last | revenuetracker/script.js:82 | `slice(-n)` keeps the last min(n, length) elements in their order |
| Recent.RecentTransactions | revenuetracker/script.js:82 | the table has min(10, n) rows, and row i is ledger entry n-1-i, so the newest comes first |
| Recent.RecentAfterAppend | revenuetracker/script.js:57-82 | after a record is appended it heads the table, the earlier rows move down one place, and the oldest row is dropped once there are ten |

## Left out

- Page plumbing is not modelled: reading and clearing the form fields, `alert`, `showSection`, `setTimeout`, the `DOMContentLoaded` hook and the HTML of the table rows (lines 19-31, 34-36, 38, 42, 58-63, 70-72, 76-81, 83-91, 171-173). The form values are parameters. The alert is the `alert` field of the outcome, and `Message` gives its text.
- The "No transactions yet" placeholder for an empty table (lines 78-80) is presentation. The model's recent list for an empty ledger is simply empty.
- Chart.js creation, destruction and `update` calls (lines 94-152, 163, 168) are not modelled, because Chart.js is an outside library. Only the data arrays handed to it are modelled.
- The early return of `updateCharts` when the charts do not exist yet (line 155) is not modelled. It depends on chart handles outside the ledger and changes only whether a chart is redrawn, not the values computed. The modelled chart data is what `updateCharts` would assign, which is not always what is on screen: `showSection('tracker')` (lines 25-29) calls `initCharts` and `updateDashboard` but not `updateCharts`, so after entering the tracker section the charts show the empty data set up by `initCharts` (lines 102, 104, 126) until the next accepted submission.
- `parseFloat` is not modelled, because it is a host library call. Its result is an `Option<real>`, with `None` for `NaN`.
- `Infinity` is not modelled, because `real` has no infinite value. The source's guard accepts it.
- Floating-point rounding is not modelled. Amounts and shares are exact `real`s, so the split identity holds exactly rather than up to rounding.
- `Date.now()` ids and `toLocaleDateString` dates are not generated by the model, because they are wall-clock values. They are taken as given, so two transactions recorded in the same millisecond can share an id exactly as in the source.
- Activity keys outside the table are not modelled: `addRevenue` takes an `Activity`. This assumes the form's select offers only the four table keys; the form markup is not part of this model, so that assumption cannot be checked here. An unknown key such as `"bike"` makes line 46 throw before anything is appended. A name inherited from `Object.prototype` (`"toString"`, `"constructor"`, `"__proto__"`) does not throw: lines 46-47 give `NaN` shares, line 57 appends the record. From then on the community-fund and individual-earnings totals (lines 68-69, 165-166) are `NaN`. Total revenue is unaffected, because the amount passed the guard at line 37. For `"toString"` and `"constructor"`, line 159 also finds the inherited function in `activityTotals`. `|| 0` keeps that function, so the value stored under that key is a concatenated string, not a number.
- `toLocaleString` currency formatting is not modelled, because it is presentation.
- The injected challenge-platform iframe script (lines 176-188) is not modelled, because it is third-party code unrelated to the ledger.
