# Bill tracker core, modelled in Dafny

This project models the bill-record logic of a small personal utility-bill
tracker, a Flask web application kept in one file, `app.py`. A user records
water, electricity and gas bills. The application validates and stores them,
edits and deletes them, filters them by ranges, shows per-kind averages and
years on a dashboard, charts a monthly series, and exports every bill as CSV.

The model keeps the application's own structure:

- `bills.dfy` (module `Bills`) holds the three bill kinds, dates and months,
  one bill row, and the amount rule. The amount is `usage * rate / 100` for
  water and electricity, whose rates are in cents, and `usage * rate` for gas.
  It also holds the reading of a bill form, which the add and edit paths
  share.
- `store.dfy` (module `Store`) holds the three bill tables as a class,
  `BillStore`, with one `seq<Bill>` field per table. Its methods add, edit
  and delete bills as `BillManager` does. The invariant `Valid()` says that
  keys are positive and strictly ascending and that every stored amount was
  derived by its kind's rule.
- `filter.dfy` (module `Filter`) holds the range filter. `Select` is the
  reference definition. `RunQuery` narrows the user's rows one bound at a
  time, as the source reassigns its query. `FilterBills` adds the
  bill-type lookup and assembles the dashboard view.
- `dashboard.dfy` (module `Dashboard`) holds the year filter, the means with
  0 for no bills, the descending distinct-years list and the dashboard view.
- `rollup.dfy` (module `Rollup`) holds the monthly series behind the chart.
  `IsRollupOf` is the declarative specification: one point per month, months
  ascending, usage and amount summed, the first rate kept. `MonthlyRollup` is
  the one-pass grouping that meets it. Lemmas show the series is unique and
  that its months and sums do not depend on the order of the bills.
- `export.dfy` (module `Export`) holds the CSV row projection: water rows,
  then electricity rows, then gas rows, each group in table order.

Modelling choices:

- Numbers are `real`. Dates are `(year, month, day)` records, ordered
  chronologically.
- "Today" is a parameter.
- A form field that is not a number arrives as `None`.
- Each table keeps its rows in key order. A table column that is an
  `INTEGER PRIMARY KEY` in SQLite aliases the rowid, so a new row receives
  one more than the largest key present, and an unordered query returns rows
  in key order.

Behaviours of the code that the model keeps:

- `edit_bill` re-reads usage, rate and month and re-derives the amount. It
  does not check that usage and rate are positive or that the month is not
  in the future. `EditAcceptsWhatAddRefuses` exhibits both gaps.
- A chart request whose selection holds no bills fails. Building the frame
  of an empty list has no `Date` column, and the generic error handler
  reports the failure. The model returns `NothingToPlot` instead of an empty
  series.
- The filtered dashboard replaces only the filtered kind's bill list. Its
  means and year lists are computed over all of the user's bills, not over
  the filtered ones.
- A numeric filter bound whose text is not a number is dropped silently,
  because `request.args.get(..., type=float)` yields `None`. Only the two
  date bounds are refused when malformed, and the start date is checked
  first.

## Model

| member | source | states |
|---|---|---|
| `Bills.CategoryNamed` | app.py:323-332 | a bill-type name resolves to a kind exactly when it is "water", "electricity" or "gas", and to the kind of that name |
| `Bills.FirstOfMonth` | app.py:175-176 | an entered month becomes a date exactly when the year is 1..9999 and the month 1..12; the date is day 1 of that month |
| `Bills.ParseEntry` | app.py:173-182 | the form parses exactly when usage, rate and month all parse; the entry keeps usage and rate, dates the bill on day 1 of the month, and derives the amount as usage×rate for gas and usage×rate/100 otherwise |
| `Bills.CheckNew` | app.py:170-191 | a new bill is refused as invalid input exactly when the form does not parse; otherwise as non-positive exactly when usage or rate is ≤ 0; otherwise as future-dated exactly when its month starts after today; an accepted entry has positive usage, rate and amount and a day-1 date not after today |
| `Store.NextId` | app.py:139-145 | a new bill's key exceeds every key in its table; it is 1 in an empty table and otherwise one more than the largest key present |
| `Store.IndexOf` | app.py:229-235 | looking a key up finds the position of the row with that key, or reports that no row has it |
| `Store.UserBills` | app.py:78-80 | a user's listing holds exactly that user's rows of the table |
| `Store.BillStore.constructor` | app.py:21-22 | the store starts with three empty, well-formed tables |
| `Store.BillStore.AddBill` | app.py:170-211 | on any validation error nothing is stored and the error is that of `CheckNew`; on success exactly one row is appended to that kind's table, under the next key, with the validated usage, rate, day-1 date and derived amount; the other tables are unchanged and the invariant holds |
| `Store.BillStore.EditBill` | app.py:228-256 | a missing key gives NotFound and an unparsable form gives InvalidInput, both with no change; otherwise the row keeps its position, key and owner and takes the new usage, rate, day-1 date and re-derived amount, with no positivity or date check; the owner is returned |
| `Store.BillStore.DeleteBill` | app.py:213-226 | a missing key gives NotFound with no change; otherwise exactly that row is removed, the others keep their order, and its owner is returned |
| `Store.AddedKeyIsFresh` | app.py:195-203 | appending a row under the next key keeps keys ascending, and looking the new key up finds the new row |
| `Store.IndexOfAt` | app.py:229-235 | in a table with ascending keys, looking up a row's key finds that row |
| `Store.EditAcceptsWhatAddRefuses` | app.py:237-248 | a form that the add path refuses (negative usage, or a month after today) still parses on the edit path |
| `Dashboard.YearFilter` | app.py:83-87 | the year filter keeps exactly the bills dated in the selected year |
| `Dashboard.InSelectedYear` | app.py:82-87 | the "all time" selection keeps every bill; a year selection keeps exactly the bills of that year |
| `Dashboard.MeanOf` | app.py:89-99 | the mean of a column is 0 for no bills and otherwise times the count equals the column's sum |
| `Dashboard.MeanWithinBounds` | app.py:90-91 | a mean rate or usage lies between any lower and upper bound of the averaged values |
| `Dashboard.SumAtLeast` | app.py:90-91 | a sum of n values each at least lo is at least n×lo |
| `Dashboard.SumAtMost` | app.py:90-91 | a sum of n values each at most hi is at most n×hi |
| `Dashboard.InsertYear` | app.py:102 | adding a year to a strictly descending list keeps it strictly descending and adds exactly that year |
| `Dashboard.DistinctYears` | app.py:101-104 | the years list is strictly descending (so without duplicates) and holds exactly the years of the bills' dates |
| `Dashboard.Summarise` | app.py:82-104 | a kind's summary lists exactly the bills of the selected year, averages rate and usage over those, and lists the years of all the user's bills, whatever year is selected |
| `Dashboard.DashboardView.With` | app.py:394-396 | replacing one kind's summary leaves the other two unchanged |
| `Dashboard.DashboardOf` | app.py:66-104 | for every kind, the listed bills are exactly that user's rows of that kind's table in the selected year, and the year list is the distinct years of all that user's rows of the kind, whatever year is selected |
| `Dashboard.DashboardContents` | app.py:77-104 | each kind's listing is exactly the user's bills of the selected year, and its years list is the same as with no selection |
| `Filter.Narrow` | app.py:340-353 | one narrowing step keeps exactly the bills that meet its bound |
| `Filter.Select` | app.py:335-371 | the filter result holds exactly the user's rows that meet every supplied bound, inclusively |
| `Filter.NarrowSelect` | app.py:340-365 | narrowing the selection by one more bound equals selecting by the bounds that include it |
| `Filter.SelectAllWithin` | app.py:335-371 | when every row meets the bounds, the result is all of the user's rows, in table order |
| `Filter.SelectNoBounds` | app.py:337-353 | with no bound supplied, the result is all of the user's rows, in table order |
| `Filter.SelectIdempotent` | app.py:335-371 | filtering the result again with the same bounds changes nothing |
| `Filter.UsageMinExample` | app.py:340-341 | a usage minimum of 10 over usages 5, 15, 10 keeps the bills with 15 and 10, in that order |
| `Filter.NarrowPair` | app.py:340-353 | narrowing by a column's minimum and then its maximum, each only when supplied, gives the selection that adds both bounds |
| `Filter.NarrowByNumbers` | app.py:339-353 | narrowing by the supplied usage, rate and amount bounds in turn gives the selection by those bounds |
| `Filter.RunQuery` | app.py:334-371 | a malformed start date refuses the query; otherwise a malformed end date refuses it; otherwise the result is the selection by all bounds |
| `Filter.FilterBills` | app.py:310-409 | an unknown bill type is refused before any query; date errors as in `RunQuery`; on success the filtered kind lists exactly the selection, its means and years cover all of the user's bills of that kind, and the other kinds are shown unfiltered |
| `Rollup.InsertMonth` | app.py:455-462 | adding a month to an ascending list keeps it ascending and adds exactly that month |
| `Rollup.OccursAppend` | app.py:442-448 | a month occurs in a list with one more bill exactly when it occurred before or is that bill's month |
| `Rollup.FirstRateAppend` | app.py:457 | appending a bill does not change the first rate of a month that already has a bill; it sets the rate of a month that had none |
| `Rollup.MonthSumAbsent` | app.py:456-458 | a month with no bills totals 0 |
| `Rollup.MonthlyRollup` | app.py:441-462 | the series has one point per month that has a bill, in strictly ascending month order; each point's usage and amount are the sums over that month's bills and its rate is the rate of that month's first bill |
| `Rollup.AscendingUnique` | app.py:462 | two ascending month lists with the same members are equal |
| `Rollup.RollupDeterministic` | app.py:455-462 | the series of a list of bills is unique |
| `Rollup.MonthSumConcat` | app.py:456-458 | a month's total over two lists joined is the sum of the two totals |
| `Rollup.MonthSumPermutation` | app.py:456-458 | a month's usage or amount total does not depend on the order of the bills |
| `Rollup.MonthSumRemove` | app.py:456-458 | removing one bill from a list subtracts that bill's share from the month's total |
| `Rollup.RollupOrderIndependent` | app.py:455-462 | reordering the bills changes neither the months of the series nor any usage or amount total |
| `Rollup.JanuaryExample` | app.py:455-459 | two January water bills, 10 and 5 units at 200 cents, make one January point with usage 15, rate 200 and amount 30 |
| `Rollup.ChartData` | app.py:417-462 | an unknown bill type is refused; a selection with no bills is refused; otherwise the result is the non-empty monthly series of the user's bills of that kind in the selected year range |
| `Export.AppendRows` | app.py:568-573 | one kind's loop appends one row per bill, labelled with the kind, in order, after the rows already built |
| `Export.ExportRows` | app.py:557-573 | the export has one row per bill of the user: the water rows first, then electricity, then gas, each group in table order |

## Left out

- HTTP routing, form and query-string access, flash messages, redirects and
  templates: the model takes the inputs as parameters and returns results
  or errors.
- Login and registration: bcrypt is a foreign library. The `User` table is
  not modelled; outside the two routes named below it plays no part in the
  bill logic.
- FilterBills and DashboardOf: both routes look the user up first
  (app.py:68 for the dashboard, app.py:393 for the filtered view) and fail
  for a user id with no `User` row, a 404 on the dashboard and a reported
  error on the filtered view. The model has no `User` table, so both give a
  view for every user id, listing whatever bills carry that id (none, unless
  bills were added under it).
- The SQL database, its session and commit, and `get_or_404`: the tables are
  sequences in memory, and a missing key is the `NotFound` error.
- Parsing text into numbers and dates: `float(...)` and `strptime` are
  replaced by their outcome, a value or `None`. `FirstOfMonth` keeps only
  the range check of `%Y` and `%m`. The text shapes that `strptime` accepts
  are not modelled.
- Floating-point behaviour: numbers are exact reals. Rounding, NaN and
  infinity are not modelled. In particular, `float('nan')` passing the
  positivity check is not modelled.
- The year parameter of the dashboard and of the chart is taken as already
  converted. A value that `int(...)` rejects raises an uncaught error on the
  dashboard and a reported error on the chart; neither is modelled.
- Stripping surrounding whitespace from the chart's bill-type parameter is
  not modelled. The parameter is taken as stripped.
- The chart drawing, the least-squares trend line (`np.polyfit`) and the PNG
  response: these are floating-point library code and image output.
- CSV serialisation (`DataFrame.to_csv`, the header row, the `bills.csv`
  download): the model stops at the ordered row tuples. The date column
  keeps the date itself, not its `YYYY-MM-DD` text.
- The sort and order query parameters of the dashboard: the source passes
  them to the template only.
- The catch-all `except Exception` branches, apart from the empty-chart
  failure named above. (An unknown bill type is refused by explicit checks
  in the filter and chart routes, and those are modelled.)
- ChartData: promises a series for every non-empty selection, but the chart
  route converts month labels with `pd.to_datetime`, whose nanosecond
  timestamps span roughly September 1677 to April 2262. A bill dated outside
  that span, which the add path (years 1 up to today, so years before 1677)
  and the edit path (years 1 to 9999, future months included) both store, makes the chart fail through the generic error handler;
  the model has no such failure.
- Ownership checks: the source does not check that the owner exists when
  adding a bill, nor that the caller owns a bill it edits or deletes, so the
  model has no such checks either.
