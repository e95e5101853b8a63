# Weekly travel tracker and travel prediction dashboard, in Dafny

The repository holds two small applications. The model takes the table and
record logic out of each and leaves the user interface behind.

- **Weekly travel tracker** (`code.py`, module `WeeklyTracker`). The page keeps
  a table of exactly seven day entries, Monday to Sunday. Each entry has
  `day, traveled, destination, km, cost, emission`. On every run of the page,
  each day tab rewrites its own entry in place by one of three rules:
  - travelled with km > 0: the entry is replaced, with cost = 75·km and
    emission = 125·km;
  - travelled with km = 0: only `traveled` and `destination` change;
  - did not travel: the entry goes back to blank.

  The summary (total km, cost and emission, days travelled), the chart data
  (the travelled entries) and the detailed log rows are derived from the
  table. The table is the class `Tracker`. Its field `travelData` is empty
  before the first run and after a reset. Otherwise it holds the seven
  entries. `Valid()` states the invariant every update keeps: each entry is
  for its own weekday, 0 ≤ km ≤ 1000, cost = 75·km, emission = 125·km, and an
  entry not travelled is blank.
- **Travel prediction dashboard** (`code1.py`, modules `TravelRecords` and
  `TravelPrediction`). `TravelPredictionApp` keeps a list of `{date, distance,
  cost}` records. The add form validates its input and appends a record.
  The delete operation removes a record by index. The history view lists the
  records newest first. The prediction refuses to run with fewer than three
  records. Otherwise it builds the regression inputs: the records in
  ascending date order, x = whole days since the earliest date, and
  y = distance. It then evaluates the fitted line at today + 8 days and
  prices the result at the store's average cost per kilometre.

Dates are whole day numbers. Distances and costs are `real`. The current day
is the parameter `today`. The fitted regression line is the parameter `fit`:
it takes the x and y columns and an offset and returns the predicted
distance. Form parsing is given as `Option` values (`None` where `strptime`
or `float` failed). Python's `sorted` is stable, also with `reverse=True`.
`SortByDate` is a stable insertion sort, and `SortIsStable` proves that
records sharing a date keep their relative order.

The delete handler's index is the row's tag. The tag is a position in the
newest-first view, yet the handler applies it to the list as stored.
`RowTagIndexesSortedStore` proves that the two agree when the list is
already stored newest first. `RowTagCanMissShownRecord` shows a two-record
list where deleting row 0 removes a record that row 0 does not show.

A reader might expect some behaviours that the code does not have. The
model follows the code in each case:
- A negative predicted distance is not clamped to zero.
- There is no degenerate-fit error when all records share a date.
- The store is not saved atomically: the pickle file is written directly.
- The delete indexes the stored list, not the displayed order (see above).

## Model

| member | source | states |
|---|---|---|
| `WeeklyTracker.InitialWeek` | code.py:120-125 | the fresh table has seven well-formed entries in Monday..Sunday order, none travelled |
| `WeeklyTracker.InitialWeekIsEmpty` | code.py:121-125 | a freshly initialised table counts no days travelled, has zero km, cost and emission totals, and an empty chart |
| `WeeklyTracker.Recorded` | code.py:141-191 | after a tab's update the entry is travelled exactly when the tab said so, carries the given destination when travelled, and keeps the entry invariant (0..1000 km, cost = 75·km, emission = 125·km, blank when not travelled) |
| `WeeklyTracker.Tracker.constructor` | code.py:63-64 | the session starts with an empty table |
| `WeeklyTracker.Tracker.ResetUserInfo` | code.py:106-109 | a reset empties the table |
| `WeeklyTracker.Tracker.InitialiseIfEmpty` | code.py:120-125 | an empty table becomes the seven blank entries; a full table is kept unchanged |
| `WeeklyTracker.Tracker.UpdateDay` | code.py:141-192 | updating day i with km > 0 sets traveled, destination, km, cost = 75·km and emission = 125·km; with km = 0 it sets only traveled and destination and keeps km, cost and emission; when not travelled it resets the entry to blank; the other six entries are unchanged, the length stays 7 and the invariant holds |
| `WeeklyTracker.Tracker.ProcessWeek` | code.py:120-192 | one run of the page initialises an empty table and then applies every tab's input to its own day, in weekday order, keeping the invariant |
| `WeeklyTracker.TotalKm` | code.py:198 | the total distance; with every entry within 0..1000 km, it lies within 0..1000 per entry |
| `WeeklyTracker.TotalCost` | code.py:199 | the total cost; when every entry has cost = 75·km it is 75·total km |
| `WeeklyTracker.TotalEmission` | code.py:200 | the total emission; when every entry has emission = 125·km it is 125·total km |
| `WeeklyTracker.BlankWeekTotals` | code.py:198-201 | entries nobody travelled on contribute no days and no km, cost or emission |
| `WeeklyTracker.DaysTraveled` | code.py:201 | the number of travelled entries lies between 0 and the number of entries |
| `WeeklyTracker.WeekSummary` | code.py:198-207 | for a well-formed week, total cost = 75·total km, total emission = 125·total km, total km is within 0..7000, and days travelled is within 0..7 |
| `WeeklyTracker.TraveledOnly` | code.py:220-223 | the chart filter keeps only travelled entries of the table, never more entries than the table has |
| `WeeklyTracker.TraveledPositions` | code.py:220-223 | lists, in strictly increasing order, exactly the positions of the travelled entries |
| `WeeklyTracker.ChartIsTraveledSubsequence` | code.py:220-223 | the chart data is the travelled entries in table order: its j-th element is the entry at the j-th travelled position, and its length equals the days-travelled count |
| `WeeklyTracker.ChartData` | code.py:220-223 | the chart loop yields exactly the traveled-only subsequence of the table |
| `WeeklyTracker.ToDisplayRow` | code.py:275-282 | a log row copies the day and the figures; it is labelled "Yes" exactly when the day was travelled and "No" otherwise; it shows the destination when there is one and "-" when it is empty |
| `WeeklyTracker.DisplayTable` | code.py:273-282 | the log has one row per entry, in table order |
| `TravelRecords.SortByDate` | code1.py:138 | sorting by date gives a permutation of the records in ascending or descending date order |
| `TravelRecords.SortIsStable` | code1.py:204 | for every date, the records with that date keep their original relative order after sorting |
| `TravelPrediction.TravelPredictionApp.constructor` | code1.py:118-123 | the app starts with the stored list if there is one, not validated, and otherwise with no records |
| `TravelPrediction.TravelPredictionApp.AddTravelRecord` | code1.py:150-175 | the add succeeds exactly when the date, distance and cost all parse and both numbers are positive; on success exactly the new record is appended and earlier records are unchanged; on failure the list is unchanged and the error names the first field that failed, or non-positive values; every record stays positive when it was before |
| `TravelPrediction.TravelPredictionApp.DeleteRecord` | code1.py:177-185 | once confirmed, the delete removes exactly the element at the index, and the rest keep their relative order; the removed record is returned; when declined, or when the index is out of range, the list is unchanged; every record stays positive when it was before |
| `TravelPrediction.HistoryRows` | code1.py:130-146 | the history view holds every record once, newest first, and the row at position k carries tag k |
| `TravelPrediction.SortOfSortedIsIdentity` | code1.py:138 | sorting a list already in date order leaves it as it is |
| `TravelPrediction.RowTagIndexesSortedStore` | code1.py:177-183 | when the list is stored newest first, the record a row shows is the stored record at that row's tag, which is the one the delete removes |
| `TravelPrediction.RowTagCanMissShownRecord` | code1.py:177-183 | for an app holding a day-1 record stored before a day-2 record, row 0 shows the day-2 record, yet a confirmed `DeleteRecord` of row 0's tag removes the day-1 record and leaves only the one shown |
| `TravelPrediction.PrepareRegression` | code1.py:204-209 | the regression inputs hold the records in ascending date order, a permutation of the store; the first date is the earliest; x[0] = 0; every x[k] is the record's date minus the first date, at least 0 and non-decreasing; y[k] is the same record's distance; all columns have one entry per record |
| `TravelPrediction.AverageCostPerKm` | code1.py:222-224 | the average cost per km times the total distance is the total cost |
| `TravelPrediction.PredictFutureTravel` | code1.py:187-225 | the prediction is refused exactly when there are fewer than 3 records; with 3 or more it fails exactly when the total distance is zero (the source divides by it); otherwise the target is today + 8, its offset is (today + 8) − the earliest date, the distance is the fitted line at that offset on the regression inputs, and the predicted cost is that distance times the average cost per km |
| `TravelPrediction.TotalDistance` | code1.py:222 | the distance total of the store; positive for a non-empty store of positive records |
| `TravelPrediction.TotalCost` | code1.py:223 | the cost total of the store; positive for a non-empty store of positive records |
| `TravelPrediction.ValidStoreAlwaysPredicts` | code1.py:222-225 | with at least 3 records, all positive, the prediction is always made (no division by zero) and the average cost per km is positive |
| `TravelPrediction.UniformRateTotals` | code1.py:222-223 | when every record costs `rate` per km, the cost total is `rate` times the distance total |
| `TravelPrediction.ProportionalAverage` | code1.py:222-224 | when the cost total is `rate` times the distance total, the average cost per km is `rate` |
| `TravelPrediction.UniformRateAverage` | code1.py:222-224 | when every record costs `rate` per km, the average cost per km is `rate` |
| `TravelPrediction.ThreeTripScenario` | code1.py:204-225 | trips of 10, 20 and 30 km on consecutive days at 10 rupees per km, stored out of order, give x = [0, 1, 2] and y = [10, 20, 30]; the exact line through them at offset 5 predicts 60 km, priced at 10 per km, so 600 rupees |

## Left out

- The user interface is not modelled: Streamlit page setup, CSS, tabs, radios, metrics and messages, `st.rerun`, Tkinter widgets and message boxes, Treeview rendering, and the plotly and matplotlib charts. They are presentation only.
- The user-profile form (code.py:69-93) is not modelled. It checks that three strings are non-empty and toggles UI state. Of the profile code, only the reset's effect on the table is modelled (`ResetUserInfo`).
- Widget defaults are not modelled. Each tab's answer is given as a `DayInput`. The kilometre widget's integer range 0..1000 is the `InputOk` precondition.
- The dictionaries are not modelled as shared objects. The km = 0 rule mutates an entry's dictionary in place, and the model replaces the entry's value instead. Nothing else holds those dictionaries while the tabs run, because the chart list is built afterwards. So nothing observable differs.
- The chart guard `if total_km > 0` (code.py:216) is not modelled. `ChartData` models the loop under it. When every travelled day has 0 km, the source builds no chart data at all, while `ChartData` still returns the travelled entries.
- The environmental comparisons (code.py:292-293) are not modelled. They are floating-point divisions with `round`.
- The CSV export (code.py:303-323) is not modelled. It is file output.
- Pickle persistence (code1.py:118-128) is not modelled. Loading is the constructor's `stored` argument, which the source does not validate. Saving after add and delete is a no-op here.
- Date and number parsing are not modelled. `strptime` and `float` are oracles whose results arrive as `Option` values. `float` also accepts `nan` and `inf`, which pass the source's `<= 0` check; the model's reals have neither value.
- Floating-point rounding of the sums, the division and the product is not modelled. The model uses exact reals. Text formatting (`strftime`, `.1f`, `.2f`) is left out too.
- The regression fit is not modelled. sklearn's `LinearRegression` fit and predict (code1.py:212-213, 219) form the opaque `fit` parameter. The model adds no clamping and no degenerate-fit error, because the source has neither. The regression chart (code1.py:249-260) is left out.
- The wall clock is not modelled. `datetime.now()` is the day number `today`. The stored dates come from `strptime` and fall at midnight, so `(now + 8 days − first).days` is the day difference (today + 8) − first whatever the time of day. Datetimes with a time of day, for example in an unvalidated pickle, are not represented.
- The delete event wiring (code1.py:148) is not modelled. It binds the tag "delete", which no row carries. `DeleteRecord` models the handler's body, with the row's tag as `index` and the confirmation dialog's answer as `confirmed`. The source's `IndexError` and `ZeroDivisionError` escape into the UI toolkit. In the model they are the outcomes `IndexOutOfRange` and `ZeroTotalDistance`, and the store is left unchanged.
