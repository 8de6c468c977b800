# Identity Reporting dashboard: data selection and derived metrics

The dashboard shows identity-resolution metrics for a time range chosen in a
dropdown. This project models its only logic, which is pure:

- `get_data` (module `DashboardData`) picks one of three fixed aggregate
  records from the selected time range. Each record has three parts:
  - the `total_profiles` group: three counts and a duplicate rate kept as
    text;
  - the `channel_distribution` of Address, Email and Phone, each as
    `[total, unique, reachPercent]`;
  - the `coreid_reach` triple that feeds the gauges.
- The data part of the `update_dashboard` callback (module `DashboardView`)
  turns the record into plain data:
  - the summary tiles;
  - the three parallel channel series;
  - the three columns of the grouped bar chart;
  - the two gauge percentages.
- `round(num / den * 100)` (module `Rounding`) is computed exactly with
  integers. It gives the integer nearest to 100·num/den, and a tie goes to
  the even neighbour, as Python's `round` does.

Some modelling choices:

- The selection is an `Option<string>`. `None` is a cleared dropdown.
- The source selects with an if/elif/else on the text. So every value other
  than "1 Month" and "3 Months" gets the six-month record. That includes the
  empty text, `None` and a differently cased "1 month". The model keeps this
  fallback rather than a closed three-valued selector. A closed selector
  would describe the intended design, but this follows the code.
- The `total_profiles` dictionary is a sequence of (label, value) pairs in
  insertion order. That is the order in which `.items()` yields them, and so
  the order of the tiles.
- The tile "Matched csCoreID" and the gauge's `coreid_reach["Matched CoreID"]`
  stay separate values. They differ in every shipped record, for example
  140000 and 120000 for one month.
- A division by zero in the source raises an exception and does not give an
  error value. So `Derive` requires positive denominators and every listed
  channel present (`Derivable`). `DeriveWellFormed` shows that every record
  `get_data` returns meets this. `UpdateDashboard` is therefore total.
- The callback is a function of the dropdown value alone. Being Dafny
  functions, `UpdateDashboard` and `Derive` give the same view whenever they
  are called with the same input.

## Model

| member | source | states |
|---|---|---|
| `Rounding.RoundPercent` | Script.py:155 | the gauge value is a correctly rounded percentage: no integer lies nearer to 100·num/den, and an exact tie gives the even neighbour |
| `Rounding.RoundPercentUnique` | Script.py:163 | any integer that is nearest to 100·num/den, with ties going to the even neighbour, is the one `RoundPercent` computes, so the rounding is fully determined |
| `Rounding.RoundPercentExact` | Script.py:163 | when 100·num/den is a whole number k, the gauge shows exactly k |
| `Rounding.RoundPercentBounds` | Script.py:155-158 | a share 0 ≤ num ≤ den rounds to a value within the gauge axis range 0..100 |
| `Rounding.RoundPercentMonotone` | Script.py:153-167 | with a fixed denominator, a larger numerator never gives a smaller gauge reading |
| `DashboardData.GetData` | Script.py:13-43 | every returned record is well formed: four tiles in order, with the matched counts at most the total and the last value "NN%" text; exactly the three channels, each with unique ≤ total and reach in 0..100; 0 < actual reach ≤ matched CoreID ≤ total profiles; the tile total equal to the gauge total. The six-month record is returned exactly when the selection is neither "1 Month" nor "3 Months", and those two return their own records |
| `DashboardData.OneMonthWellFormed` | Script.py:15-23 | the one-month record keeps every record invariant, including unique ≤ total per channel, reach in 0..100 and 0 < 108000 ≤ 120000 ≤ 180000 |
| `DashboardData.ThreeMonthsWellFormed` | Script.py:25-33 | the three-month record keeps every record invariant, including 0 < 117000 ≤ 130000 ≤ 200000 |
| `DashboardData.SixMonthsWellFormed` | Script.py:35-43 | the six-month record keeps every record invariant, including 0 < 125000 ≤ 140000 ≤ 220000 |
| `DashboardData.RecordsDistinct` | Script.py:14-43 | the three records differ, so the fallback is observable |
| `DashboardData.OneMonthLiterals` | Script.py:14-23 | the one-month record holds Total Profiles 180000, Address [170000, 160000, 95], Email [160000, 150000, 93], Phone [150000, 135000, 89], coreid_reach (180000, 120000, 108000) and a "Matched csCoreID" tile of 140000 |
| `DashboardData.FallbackToSixMonths` | Script.py:34-43 | the empty text, a cleared dropdown, "6 Months" and the lower-case "1 month" all select the six-month record |
| `DashboardView.Tiles` | Script.py:112-118 | one tile per item of `total_profiles`, in the same order, each with that item's label and value |
| `DashboardView.Column` | Script.py:122-123 | `[dist[c][k] for c in cs]` has one entry per channel, and entry i is component k of channel i's list |
| `DashboardView.Repeat` | Script.py:127-129 | the list repetition `s * n` has n times the length of s, and element i is element (i mod length of s) of s |
| `DashboardView.Derive` | Script.py:109-163 | the tiles follow the record's items one for one; the channels are [Address, Email, Phone]; totals, unique identifiers and reach percentages have length 3 and hold components 0, 1 and 2 of each channel; the chart columns have length 6: Channel = channels ++ channels, Count = totals ++ uniques, Type = three "Total Identifiers" then three "Unique Identifiers"; both gauges are correctly rounded percentages of matched/total and reach/matched |
| `DashboardView.DeriveWellFormed` | Script.py:112-163 | deriving from a well-formed record raises no KeyError or ZeroDivisionError; the view has the four tile labels in order, the first three values counts and the last text, each unique count at most its total, and all reach percentages and both gauges in 0..100 |
| `DashboardView.UpdateDashboard` | Script.py:108-169 | for any selection: four tiles with the labels Total Profiles, Matched csCoreID, Matched csHHId, Duplicate Records in that order, the first three counts and the last text; three-entry channel series and six-row chart columns; each unique count at most its total; reach percentages and both gauges within 0..100 |
| `DashboardView.ChartRowsConsistent` | Script.py:126-130 | in every one of the six bar-chart rows, the channel is a key of the record, and the count is that channel's total when the type is "Total Identifiers" and its unique count otherwise |
| `DashboardView.ShippedGauges` | Script.py:155-163 | the gauges read 67 and 90 for "1 Month", 65 and 90 for "3 Months", and 64 and 89 for "6 Months" |
| `DashboardView.OneMonthGauges` | Script.py:22 | for "1 Month", 120000 of 180000 is shown as 67 and 108000 of 120000 as 90 |
| `DashboardView.ThreeMonthsGauges` | Script.py:32 | for "3 Months", 130000 of 200000 is shown as 65 and 117000 of 130000 as 90 |
| `DashboardView.SixMonthsGauges` | Script.py:42 | for "6 Months", 140000 of 220000 is shown as 64 and 125000 of 140000 as 89 |
| `DashboardView.OneMonthSelected` | Script.py:109 | selecting "1 Month" derives the view from the one-month record |
| `DashboardView.OneMonthTiles` | Script.py:16-22 | the one-month tiles are (Total Profiles, 180000), (Matched csCoreID, 140000), (Matched csHHId, 120000), (Duplicate Records, "22%") in that order, while the gauge's matched count is 120000 |
| `DashboardView.OneMonthSeries` | Script.py:18-20 | the one-month totals are [170000, 160000, 150000], the unique identifiers [160000, 150000, 135000] and the reach percentages [95, 93, 89] |

## Left out

- The Dash application object, the layout tree and the callback registration (Script.py:8, 48-93, 98-107) are not modelled. They are UI framework set-up with no behaviour of their own.
- The Plotly figures are not modelled. This covers `px.bar`, `go.Indicator`, trace and layout updates, titles, axis ranges and the bar text labels `f"{p}%"` (Script.py:132-167, apart from the `value=` expressions). They are calls into a charting library. The model keeps the data passed to them.
- The pandas `DataFrame` (Script.py:126) is not modelled. Only the three plain columns it is built from are kept.
- The HTML markup and inline styles of the tiles (Script.py:113-116) are not modelled. Each tile is kept as its (label, value) pair.
- `app.run_server` (Script.py:174-175) is not modelled. It is server I/O.
- `RoundPercent`: computes 100·num/den exactly, not through floating-point `num / den * 100`. For a gauge share 0 ≤ num ≤ den the value is at most 100, so the float result can differ only within about 1e-14 of a .5 tie, and no shipped constant comes near one.
- `RoundPercent`: accepts any integer `num`, but the source's float arithmetic does not. Once 100·num/den reaches about 2^52 in size, the float no longer holds the integer part exactly, and Python's `round` can differ from the exact result even far from a tie. When `num / den` or its product with 100 leaves the float range, the source raises OverflowError. The model leaves both cases out; no gauge input comes near them.
- `Derive`: requires every listed channel present and both gauge denominators positive. With a missing channel the source raises KeyError, and with a zero denominator it raises ZeroDivisionError. With a negative denominator Python would divide and show a negative gauge, but the model excludes that case. No record `get_data` returns has a missing channel or a denominator that is zero or negative.
- `Dashboard - Identity/app.py` is not part of this model. It is an earlier copy of the same dashboard with the same data and derivation.
