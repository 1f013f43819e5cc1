# Sustainable home energy tracker: the summary pipeline

This project models the computation at the heart of the energy tracker
page, `energy_tracker.py`, and proves properties of it. The page takes a
table of usage records. Each record holds a device type, a wattage and a
status. The page does the following:

- It keeps the records whose status is exactly `"on"`. If none is left, it
  shows a warning and nothing else.
- It sums the wattage per device type and counts the records per device
  type. It inner-joins the two groupings on device type.
- It assigns three columns in turn: the kWh figure (wattage / 1000), the
  cost (kWh times the rate entered on the page, at least 0), and a tip.
  The tip comes from a fixed seven-entry table, looked up by the lower-case
  device type, with a fallback tip for every other device type.
- It shows two totals: the sum of the kWh column and the sum of the cost
  column.

The model is made of these modules:

- `RealSums` (`sums.dfy`): the sum of a column, and how it behaves under
  scaling.
- `EnergyTips` (`energy_tips.dfy`): the tip table and the case-insensitive
  lookup.
- `Aggregation` (`aggregation.dfy`): the records, the `"on"` filter and the
  two groupings. Each grouping has an independent reference definition per
  device type: `PowerOf` for the summed wattage and `CountOf` for the
  record count.
- `Summary` (`summary.dfy`): the whole pipeline as a function,
  `Summarize`, from records and a rate to a `Report`. A `Report` is either
  the warning or the summary rows with the two totals. This module also
  holds the lemmas about the rows, the totals and the rate.
- `MergedFrame` (`merged_frame.dfy`): the merged table as the page builds
  it. It is a class with one sequence field per column. The join is its
  constructor. The kWh, cost and tip columns are methods that each assign
  one field. `Analyze` runs the steps in the page's order and is proved to
  yield `Summarize`.
- `SummaryExamples` (`summary_examples.dfy`): worked inputs.

Numbers are `real`. Strings are sequences of characters. Each tip keeps
its exact text, including its emoji, written as `\U{...}` escapes.

The lower-casing of the lookup changes only the ASCII letters A-Z. For
this table it still picks the same tip as Python's full `str.lower`:

- Every key is a plain ASCII lower-case word.
- The only non-ASCII characters that Python lower-cases to an ASCII letter
  are the Kelvin sign, which becomes `k`, and the dotted capital I, which
  becomes `i` followed by a combining dot.
- No key contains a `k`, and no key contains a combining dot.

## Model

| member | source | states |
|---|---|---|
| EnergyTips.LowerChar | energy_tracker.py:47 | An ASCII capital letter becomes its lower-case letter and every other character is left as it is, so the result is never an ASCII capital. |
| EnergyTips.Lower | energy_tracker.py:47 | The lower-case form has the same letters as the device type up to ASCII case, contains no ASCII capital, and is the device type itself when that has no capital. |
| EnergyTips.LowerEqualIff | energy_tracker.py:47 | Two device types have the same lower-case form exactly when they are equal up to ASCII case, so the lookup key identifies exactly the spellings that differ only in case. |
| EnergyTips.Tip | energy_tracker.py:46-48 | The lookup is total: every device type gets either one of the seven table tips or the fallback tip, and never an empty string. |
| EnergyTips.LowerIdempotent | energy_tracker.py:47 | Lower-casing a lower-cased string changes nothing. |
| EnergyTips.TipIgnoresCase | energy_tracker.py:47 | Two device types with the same lower-case form get the same tip, and a device type gets the same tip as its lower-case form. |
| EnergyTips.TipsDistinct | energy_tracker.py:6-14 | The seven table tips are pairwise distinct, and the fallback tip is not one of them. |
| EnergyTips.TipOfKnownDevice | energy_tracker.py:6-14 | A device type gets a key's tip exactly when its lower-case form is that key. |
| EnergyTips.TipOfUnknownDevice | energy_tracker.py:47 | A device type gets the fallback tip exactly when its lower-case form is not a key of the table. |
| EnergyTips.LightInAnyCase | energy_tracker.py:47 | "Light", "LIGHT" and "light" all get the LED tip. |
| Aggregation.Active | energy_tracker.py:29 | A record survives the filter exactly when it is in the input and its status is exactly "on", and the filtered table is no longer than the input. |
| Aggregation.ActiveMultiplicity | energy_tracker.py:29 | The filter keeps every "on" record exactly as many times as it occurs in the input, duplicates included, and no other record. |
| Aggregation.ActiveIgnoresInactive | energy_tracker.py:29 | Inserting a record that is not "on" anywhere in the input leaves the filtered records unchanged. |
| Aggregation.ActiveConcat | energy_tracker.py:29 | Filtering a concatenation is the concatenation of the filtered parts. |
| Aggregation.CountOf | energy_tracker.py:36 | The number of "on" records of a device type is at most the number of records, and it is positive exactly when the device type has an "on" record. |
| Aggregation.GroupSum | energy_tracker.py:35 | The sum grouping has one entry for each device type of the table and no other entry. |
| Aggregation.GroupCount | energy_tracker.py:36 | The count grouping has one entry for each device type of the table, and no count is below one. |
| Aggregation.DeviceOrder | energy_tracker.py:35 | The key column lists each device type of the table exactly once and nothing else. |
| Aggregation.ActiveDeviceTypes | energy_tracker.py:29-35 | The device types of the filtered records are exactly the device types that have an "on" record. |
| Aggregation.GroupSumOfActive | energy_tracker.py:29-35 | After the filter, the sum grouping has exactly the on-devices as keys, and each entry is the summed wattage of that device's "on" records. |
| Aggregation.GroupCountOfActive | energy_tracker.py:29-37 | After the filter, the count grouping has exactly the on-devices as keys, and each entry is the number of that device's "on" records. |
| Aggregation.PowerOfNonNegative | energy_tracker.py:35 | Without negative wattage in the input, no device type has a negative summed wattage. |
| Aggregation.PowerOfAbsent | energy_tracker.py:35 | A device type without an "on" record contributes no wattage. |
| Aggregation.PowerColumnPartition | energy_tracker.py:35-39 | Summing the per-device wattage over a key column that holds every on-device exactly once gives the wattage of all "on" records. |
| Summary.Summarize | energy_tracker.py:29-66 | The warning is given exactly when no record is "on", that is, exactly when no device type has an "on" record. |
| Summary.SummaryRow | energy_tracker.py:38-48 | A device type's row belongs to that device type and carries its summed wattage and count, and its kWh figure times 1000 gives back the wattage. |
| Summary.SummaryRows | energy_tracker.py:38-48 | The table has one row per key, its device column is the key column in the same order, and every row's cost is its kWh figure times the rate. |
| Summary.CostNonNegative | energy_tracker.py:42-43 | A non-negative amount of kWh at a rate of at least 0, the widget's minimum, never costs less than nothing. |
| Summary.TotalsNonNegative | energy_tracker.py:65-66 | A table without negative kWh figures has a total usage that is not negative, and one without negative costs a total cost that is not negative. |
| Summary.TotalsConcat | energy_tracker.py:65-66 | The totals of two stacked tables are the sums of their totals: each row adds its own kWh figure and cost once. |
| Summary.RowFigures | energy_tracker.py:35-48 | Every summary row carries its device's summed "on" wattage, its number of "on" records (at least one), that wattage over 1000, that figure times the rate, and the tip of its device type. |
| Summary.OneRowPerDevice | energy_tracker.py:35-38 | The summary has no repeated device type and has a row for a device type exactly when that device type has an "on" record. |
| Summary.RowsTotalCost | energy_tracker.py:43-66 | Rows whose costs are their kWh figures times the rate have a total cost equal to the total usage times the rate. |
| Summary.RowsTotalUsage | energy_tracker.py:39-65 | Rows holding each on-device once, with its summed wattage over 1000, have a total usage equal to the wattage of all "on" records over 1000. |
| Summary.TotalUsageIsOnPower | energy_tracker.py:35-65 | The total usage is the wattage of all "on" records over 1000: no record is lost or counted twice across the rows. |
| Summary.TotalCostIsRateTimesUsage | energy_tracker.py:43-66 | The total cost is the rate times the total usage. |
| Summary.SummaryNonNegative | energy_tracker.py:39-66 | With no negative wattage in the input, no row shows a negative kWh figure or cost, and neither total is negative. |
| Summary.ZeroRate | energy_tracker.py:42-43 | At a zero rate every row's cost is zero, and so is the total cost. |
| Summary.RowsAtZeroRate | energy_tracker.py:43-66 | At a zero rate, rows whose costs are their kWh figures times the rate all cost zero, and so does their total. |
| Summary.SummaryRowScaled | energy_tracker.py:43 | A row built at the rate times k is the row built at the rate with only its cost multiplied by k. |
| Summary.SummaryRowsScaled | energy_tracker.py:43 | A table built at the rate times k is the table built at the rate with only its costs multiplied by k. |
| Summary.RowsScaledTotals | energy_tracker.py:65-66 | Rows that differ only in costs multiplied by k have the same total usage, and their total costs differ by the factor k. |
| Summary.RateScaling | energy_tracker.py:42-66 | Multiplying the rate by k keeps whether the warning is given and keeps every row except its cost, which is multiplied by k; the total usage stays and the total cost is multiplied by k. |
| Summary.DoubledRate | energy_tracker.py:42-66 | Doubling the rate doubles every row's cost and the total cost and keeps the total usage. |
| Summary.InactiveRecordIgnored | energy_tracker.py:29 | Inserting a record whose status is not "on" anywhere in the input leaves the whole report unchanged. |
| MergedFrame.JoinKeys | energy_tracker.py:38 | A key is in the join exactly when it is a left key that occurs in the right table, and the join is no longer than the left table. |
| MergedFrame.JoinConcat | energy_tracker.py:38 | Joining two stacked key columns stacks their joins, so the kept keys stay in the left table's order. |
| MergedFrame.JoinMultiplicity | energy_tracker.py:38 | The join keeps each left key found in the right table as many times as it occurs on the left, and no other key. |
| MergedFrame.JoinKeepsEveryRow | energy_tracker.py:35-38 | When every left key occurs in the right table, as it does for two groupings of the same filtered records, the join loses no row. |
| MergedFrame.JoinDropsUnmatched | energy_tracker.py:38 | A left key missing from the right table loses its row, so the joined table is shorter. |
| MergedFrame.Frame.Merge | energy_tracker.py:35-38 | The joined table holds the joined keys, and each row has its key's summed wattage and count; the derived columns are still empty. |
| MergedFrame.Frame.DeriveMonthlyKWh | energy_tracker.py:39 | Only the kWh column is assigned: one entry per row, that row's wattage over 1000. |
| MergedFrame.Frame.DeriveEstimatedCost | energy_tracker.py:43 | Only the cost column is assigned: one entry per row, that row's kWh figure times the rate. |
| MergedFrame.Frame.AttachTips | energy_tracker.py:46-48 | Only the tip column is assigned: one entry per row, the tip of that row's device type. |
| MergedFrame.Frame.Rows | energy_tracker.py:52 | Read row by row, the table's kWh and cost columns are the frame's own kWh and cost columns. |
| MergedFrame.Frame.UsageTotal | energy_tracker.py:65 | The kWh column summed is the total usage of the frame's rows. |
| MergedFrame.Frame.CostTotal | energy_tracker.py:66 | The cost column summed is the total cost of the frame's rows. |
| MergedFrame.BuildTable | energy_tracker.py:38-48 | Joining and then assigning the three derived columns gives, row for row, the summary rows of the key column. |
| MergedFrame.Analyze | energy_tracker.py:29-66 | Running the page's steps in order, with the totals summed from the table's columns, gives exactly the report of the functional model. |
| SummaryExamples.LightsOnFanOff | energy_tracker.py:29-66 | Records (light, 60, on), (light, 40, on) and (fan, 75, off) at rate 10 give one light row of 100 W over two records, 0.1 kWh costing 1.0 with the LED tip, and totals 0.1 and 1.0. |
| SummaryExamples.AllOff | energy_tracker.py:29-32 | Input whose records are all "off" gives only the warning. |
| SummaryExamples.CapitalisedStatusIsNotOn | energy_tracker.py:29 | A record with status "On" is not active, so it gives only the warning. |
| SummaryExamples.GroupingIsCaseSensitive | energy_tracker.py:35-47 | "Light" and "light" give two separate rows, and both carry the LED tip. |

## Left out

- The Streamlit page is left out: page set-up, title, file upload, the
  raw-data preview, the tables, the messages and the rate widget. The rate
  is a parameter. The widget's minimum of 0 becomes the precondition
  `rate >= 0.0` of `Summarize` and `Analyze`.
- Reading the CSV file is left out, because it is I/O and a foreign library.
  The model starts from parsed, well-typed records. A missing column or a
  non-numeric wattage makes the page fail, and that is not modelled.
- Missing device types are left out. A blank `device_type` cell, or one
  holding a default missing-value marker such as `NA` or `null`, is parsed
  as a missing value. Such a record still passes the `"on"` filter, but
  both groupings drop it. An input whose only "on" records have a missing
  device type therefore gets no warning, an empty table and chart, and
  totals of 0. The string-typed `Record` cannot express a missing device
  type.
- Summary.Summarize: the warning is given exactly when no record is "on"
  only for records whose device type is present; with missing device types
  the page can show an empty table instead.
- Summary.TotalUsageIsOnPower: no "on" record is lost only for records
  whose device type is present; the page drops the others from both
  totals.
- The bar chart is left out, because it only presents figures the model
  already computes.
- The two-decimal formatting of the totals is left out, because it is
  string formatting.
- Floating point is left out. Wattage, kWh, cost and the totals are exact
  `real` numbers, so rounding, NaN and infinities are not modelled.
- Row order is left out. The library sorts the device types when it
  groups them. The model lists them in the order in which they first occur
  among the "on" records. Every property above holds for either order.
- EnergyTips.Lower: lowers only the ASCII letters A-Z, not the full
  Unicode case mapping of Python's `str.lower`. As argued above, this
  gives the same tip for every string with this table.
- Summary.RateScaling: takes the scaled rate as a second parameter, with
  the precondition that it equals the rate times k.
