# Shipment SLA dashboard — a verified model of its record logic

`sla.py` is a Streamlit dashboard over a spreadsheet of invoices ("notas
fiscais") and their shipments. Between its widgets and charts sits a small
layer of record logic:

- ordering month-indexed series in calendar order;
- placing bar labels inside or outside the bars;
- counting business days and calendar days between dates;
- building the five-stage delivery timeline of one invoice, and the lookup
  tab's detail formatters. `format_date` (`Details.DetailDate`) is defined
  there but never called; only `format_romaneio` is shown (line 1275);
- the sidebar's business-unit, invoice-date and carrier filters;
- the SLA attainment rate, its status band, the per-carrier on-time table and
  the pending/overdue list;
- the invoice-number lookup over the unfiltered table.

This project models that layer in Dafny and proves what it computes.

A row of the sheet is a `Records.Record` that holds only the columns the logic
reads. A date cell is a `Dates.DateCell`:

- `Blank` (NaN or None);
- `Text(text, parsed)`, where `parsed` stands for what `pd.to_datetime(text,
  errors='coerce')` yields;
- `Stamp(date)`, a parsed timestamp.

Dates are civil `(year, month, day)` triples. `Dates.Ordinal` maps them to day
numbers (days since 1970-01-01); weekdays and day differences come from those
numbers. Every boolean-mask selection is `Records.Filter`. The script's shared
table and its unfiltered copy are the fields of the class
`Dashboard.Session`. Its methods make the script's in-place changes in the
script's order.

Modules: `Wrappers`, `Numerals` (decimal rendering and reading back), `Dates`,
`Months`, `Labels`, `Records`, `Timeline`, `Details`, `Filters`, `Metrics`,
`Lookup`, `Dashboard`.

Where the code and its documentation disagree, the model follows the code:

- `ajustar_posicao_texto` uses 1 as the maximum only for an empty list. A list of
  counts whose maximum is 0 (all zero) gets threshold 0, so no bar is
  `outside`.
- The business-day count exceeds the calendar-day difference when the start
  is two or more days after the end: it is then -1, and the difference is
  below -1. `Dates.BusinessNotAfterCalendar` is stated for start <= end, and
  `Dates.ReversedRangeExceedsCalendar` exhibits the other case.
- The timeline's total adds the calendar days from invoice to dispatch and
  then the calendar days from invoice to delivery, so the dispatch interval is
  counted twice. The model computes the sum as written.
- The business-unit exclusion list is empty, although the help text names
  three excluded units.

## Model

| member | source | states |
|---|---|---|
| Months.OrderMonthsCorrect | sla.py:20-34 | The result holds exactly the input's keys that are month names, each paired with its own value, in January-to-December order, and has at most 12 entries |
| Months.OrderMonthsIdempotent | sla.py:20-34 | Ordering an already ordered series returns it unchanged |
| Months.PresentFromOrdered | sla.py:25 | The kept names appear in the order of the month list |
| Labels.MaxOf | sla.py:41 | `max(valores)` is an element of the list and no element exceeds it |
| Labels.PlaceLabels | sla.py:36-55 | Both output lists are as long as the input. Entry i is outside exactly when value i is below the threshold. Black goes with outside and white with inside. The tallest non-negative bar is inside when the percentage is between 0 and 100. Equal non-negative bars are all inside |
| Labels.TallestBarInside | sla.py:41-48 | With a percentage between 0 and 100 and a non-negative maximum, the maximum is never below the threshold |
| Labels.EqualBarsInside | sla.py:41-53 | When all values are equal and non-negative, and the percentage is at most 100, no value is below the threshold |
| Dates.OrdinalNextDay | sla.py:113 | Day numbers grow by exactly one from each calendar day to the next, so their differences count calendar days like `(fim - inicio).days` |
| Dates.MarchYearLength | sla.py:113 | A year counted from 1 March has 366 days exactly when the year ending it is a leap year |
| Dates.BusinessSteps | sla.py:75 | The count is at least -1. It is -1 when the start is after the end. For a single day it is 0 on a weekday and -1 on a weekend |
| Dates.BusinessDaysBetween | sla.py:57-77 | Present exactly when both dates parse, and then equal to the business-day count between them |
| Dates.CalendarDaysBetween | sla.py:101-115 | Present exactly when both dates parse, and then equal to the difference of their day numbers |
| Dates.WeekdaysAtMostDays | sla.py:75 | An inclusive range holds no more weekdays than days |
| Dates.WeekdaysSplit | sla.py:75 | The weekdays of a range are the weekdays of its two halves |
| Dates.FullWeek | sla.py:75 | Any seven consecutive days hold exactly five weekdays |
| Dates.WeekLater | sla.py:75 | Moving the end a week later adds exactly five business days |
| Dates.BusinessNotAfterCalendar | sla.py:75 | When start <= end, the business-day count is at most the calendar-day difference |
| Dates.ReversedRangeExceedsCalendar | sla.py:75 | When the start is two days after the end, the count (-1) exceeds the calendar difference (-2) |
| Dates.FridayToMonday | sla.py:75 | From a Friday to the next Monday is one business day |
| Dates.FridayToMondayExample | sla.py:75 | 19 January 2024 is a Friday, and the count from it to 22 January is 1 |
| Dates.FormatDateReadsBack | sla.py:96 | A date formatted with `%d/%m/%Y` (or `-` as separator) is ten characters long and reads back as the same date |
| Dates.Normalized | sla.py:314 | Parsing a cell in place leaves a blank or a timestamp and does not change the date it stands for |
| Numerals.IntToStringParses | sla.py:132 | The decimal text of any integer reads back as that integer |
| Numerals.ZeroPadReadsBack | sla.py:96 | A zero-padded field is exactly `width` digits long and reads back as the number |
| Numerals.Truncate | sla.py:132 | `int(x)` drops the fraction, rounding toward zero |
| Timeline.TimelineDate | sla.py:84-98 | A date is shown exactly when the cell is not blank, `''` or `'N/A'` and it parses. The text shown reads back as DD/MM/YYYY of the parsed date |
| Timeline.OptionalLabel | sla.py:132 | A duration label is present exactly when its number is. It reads back as that number, followed by the unit |
| Timeline.MakeStage | sla.py:162-198 | A stage keeps its title, date and duration. Its status is done exactly when its date is shown, and its icon follows its status |
| Timeline.StagesOfShape | sla.py:118-122 | There are exactly five stages with the fixed titles. Each stage's date is its own column formatted, and each is done exactly when it has a date |
| Timeline.StagesOfDurations | sla.py:131-154 | The order stage has no duration. The invoice stage shows the truncated billing days, in days. The dispatch stage shows the calendar days from invoice to dispatch, in days. The forecast stage shows the truncated lead time, in business days. The delivery stage shows the business days from invoice to delivery, in business days |
| Timeline.DeliveryTimeline | sla.py:79-200 | Fails exactly when the billing days are present but the dispatch interval is not (the UnboundLocalError at line 158). Otherwise it returns five well-formed stages with the dates and durations above |
| Timeline.TimelineTotal | sla.py:156-159 | The total is present exactly when the billing days and the invoice, dispatch and delivery dates are. It is then the truncated billing days plus the calendar days from invoice to dispatch plus those from invoice to delivery |
| Timeline.ExampleShipment | sla.py:79-200 | A January 2024 shipment: the order stage is pending, dispatch shows "2 dias", and delivery shows 19/01/2024 and "7 dias úteis". The total is 14 |
| Details.DetailDate | sla.py:1145-1160 | Blank, `''` and `'N/A'` give "N/A". An unparseable text is shown as it is. A parsed date is shown as DD-MM-YYYY and reads back as the same date |
| Details.DetailRomaneio | sla.py:1163-1172 | A missing or empty romaneio gives "N/A". A text is shown as it is. An integer is shown as its decimal text. A float is truncated to an integer before printing |
| Filters.PresentValues | sla.py:322 | The values kept from a column are distinct |
| Filters.PresentValuesMembers | sla.py:322 | A value is kept exactly when some non-missing cell holds it |
| Filters.AvailableOptions | sla.py:319-323 | The offered business units and carriers are exactly the distinct values present in their columns, so no business unit is excluded |
| Filters.EarliestNota | sla.py:336-339 | Absent exactly when no invoice date parses. Otherwise it is an invoice date of the table and none is earlier |
| Filters.LatestNota | sla.py:336-340 | Absent exactly when no invoice date parses. Otherwise it is an invoice date of the table and none is later |
| Filters.ChosenPeriod | sla.py:336-364 | No period exactly when no invoice date parses. Otherwise start <= end. A valid pick is kept, and a pick whose start is after its end is replaced by exactly the earliest and the latest invoice date, a span that covers every invoice date |
| Filters.FilteredCorrect | sla.py:381-399 | The three steps equal one mask over the table: every copy of a row that meets every active condition survives, and no other row. The business units and carriers picked apply, and a missing value never matches. The invoice date must lie in the period, inclusively. The surviving rows keep their original order |
| Filters.DefaultViewKeepsDatedRows | sla.py:336-399 | With empty picks, and the period the whole span of invoice dates (the defaults, or after the start > end reset), the result is the table masked by "has an invoice date", so every copy of each dated row is kept, in order |
| Filters.NoDatesKeepsAll | sla.py:362-364 | When no invoice date parses, empty picks keep the whole table |
| Metrics.DeliveredSplits | sla.py:460-461 | Every row with both dates is either on time or late |
| Metrics.Percent | sla.py:462 | The percentage lies between 0 and 100. It is 0 exactly when the whole or the part is empty. It is 100 exactly when the part is the whole. 100 minus it is the share left out |
| Metrics.SlaRate | sla.py:457-462 | The rate lies between 0 and 100. It is 0 with no delivered row, or with no on-time row. It is 100 exactly when some row was delivered and none was late. `100 - taxa_sla` (line 526), scaled by the rows with both dates, is 100 times the late rows |
| Metrics.StatusBand | sla.py:529-544 | The band's rank is the number of the thresholds 70, 85 and 95 the rate reaches |
| Metrics.StatusBandMonotone | sla.py:529-544 | A higher rate never gets a worse band |
| Metrics.SlaBandExtremes | sla.py:529-544 | All deliveries on time gives EXCELENTE; no on-time delivery gives CRÍTICO |
| Metrics.CarriersOf | sla.py:1016 | The carrier groups are distinct |
| Metrics.CarriersOfMembers | sla.py:1001-1016 | A carrier has a group exactly when some row has both dates and names it |
| Metrics.GroupCounts | sla.py:1016-1019 | A carrier's delivered rows split into its on-time and its late rows |
| Metrics.RowCounts | sla.py:1016-1020 | A carrier's total is its on-time plus its late deliveries. Its `% SLA` is the on-time share of the total, between 0 and 100, and 100 exactly when it has deliveries and none was late |
| Metrics.CarrierTableCorrect | sla.py:1016-1023 | The table has one row per carrier with at least ten observed deliveries, and no other rows. In each row, Total = on time + late, the total is at least 10, the counts are those of the carrier's rows, and `% SLA` is the on-time share of the total |
| Metrics.CarrierTableGuards | sla.py:1001-1055 | Each outcome happens exactly when its condition holds. No deliveries: no row has both dates and a carrier. No on-time column: some row is observed but none was on time. No relevant carrier: some delivery was on time but no carrier has ten. Missing late column (the KeyError at line 1042): on-time deliveries and a relevant carrier exist but nothing was late. The table: on-time and late deliveries and a relevant carrier all exist |
| Metrics.PendingSetCorrect | sla.py:1066-1080 | A row is pending exactly when it has no delivery date or was delivered after its forecast. The two parts share no row, the length is the sum of theirs, and each part keeps the table's order |
| Metrics.PendingClassification | sla.py:1066-1080 | An undelivered row with a forecast counts as undelivered, never late. A row delivered on time is not pending |
| Lookup.OccursFrom | sla.py:1135 | The search finds the query exactly when it occurs at some position from the start onwards |
| Lookup.SearchCorrect | sla.py:1135 | A row is found exactly when its number contains the query, ignoring case. The found rows keep the table's order |
| Lookup.FoundByPart | sla.py:1135 | A row is found by any part of its number, and by its number in lower case |
| Lookup.LongQueryFindsNothing | sla.py:1135 | A query longer than every number finds nothing |
| Dashboard.NormalizeNota | sla.py:314 | Only the invoice-date cell changes. It becomes a blank or a timestamp of the same date |
| Dashboard.NormalizeDelivery | sla.py:457-458 | Only the delivery and forecast cells change, each to a blank or a timestamp of the same date |
| Dashboard.NormalizingKeepsRate | sla.py:457-462 | Parsing the delivery columns in place changes none of the delivered, on-time and late counts, nor the rate |
| Dashboard.Session.NormalizeInvoiceDates | sla.py:313-316 | The table's invoice-date column is parsed in place and the copy is untouched |
| Dashboard.Session.ApplyFilters | sla.py:381-435 | The copy is the table as it was. The table becomes the filtered rows (which replace `sla` at line 435), a subsequence of the copy. It reports a halt exactly when the filters leave no row of a non-empty table (the `st.stop()` at line 432) |
| Dashboard.Session.NormalizeDeliveryDates | sla.py:451-458 | A non-empty table has its delivery and forecast columns parsed in place |
| Dashboard.Session.FindInvoice | sla.py:1130-1135 | An empty query searches nothing. Any other query searches the unfiltered copy |
| Dashboard.NormalizingKeepsCarrierOutcome | sla.py:1001-1042 | Parsing the delivery columns in place at lines 457-458 does not change whether the performance tab ends in the KeyError on the late column |
| Dashboard.RunDashboard | sla.py:313-1135 | Over one run: the script stops before any tab exactly when the filters leave no row of a non-empty table. Otherwise the rate is absent exactly for an empty table (the guard at line 451), and when present it is that of the filtered table, between 0 and 100. Of the failures that end the run after the rate and before the pending and lookup tabs, only the KeyError of the performance tab at line 1042 is modelled: the run is cut there exactly when that tab raises it. Otherwise, in the modelled cases, the lookup (line 1135) searches the whole table, whatever the filters picked |

## Left out

- Streamlit page setup, widgets, tabs, metrics and sidebar text: user-interface glue. Of the `st.stop()` calls only the one after filtering (line 432) is modelled; the others end the run on a failed or missing upload, before the modelled logic. The widgets' choices are the `Filters.Picks` parameters, and the query string is a parameter.
- Everything drawn with Plotly, and the timeline's HTML/CSS: presentation.
- Loading the workbook (`load_data_from_upload`, `pd.read_excel`): file I/O. The model starts from loaded records.
- `pd.to_datetime` on arbitrary strings: a foreign library call. Its outcome is the `parsed` field of a text cell; only the empty string is modelled as always yielding NaT. The model assumes that a cell parses the same way wherever it is parsed. pandas infers one format for a whole column from its first string, so a text cell in another format can become NaT in the column-wide parses (lines 314 and 457-458) and still parse on its own (lines 89, 106-108, 125-127 and 1151).
- Time of day: dates are kept at day precision, with years limited to 1000-9999, which covers every pandas timestamp. This is exact where the source works on days: `bdate_range` (line 75) normalises its ends, and the period bounds and the period filter (lines 339-340 and 393-394) go through `.date()` and `.dt.date`. Elsewhere the source keeps the time of day, and the members below differ from it for cells that carry one.
- Metrics.InTime and Metrics.Late: lines 461, 1011 and 1076 compare full timestamps. A delivery at 14:00 on the day of a forecast stamped 00:00 is late in the source and on time in the model. SlaRate, the carrier table and the pending set inherit this.
- Dates.CalendarDaysBetween: `.days` at line 113 rounds the timestamp difference down. From an invoice at 18:00 to a dispatch at 09:00 two days later, the source gives 1 and the model 2. The timeline's dispatch duration (Timeline.StagesOfDurations) and its total (Timeline.TimelineTotal) inherit this.
- Dashboard.RunDashboard: the first tab's chart and insight code has two more failures with no `try` around them, and the model does not capture them. Line 695 computes `int(100/pct_lider)`, where `pct_lider` is the leader's share rounded to one decimal; it is 0.0 when the leading carrier has under 0.05% of the rows, and `int` of the infinite quotient raises. Line 825 takes `min` of the `Status` counts, which raises when no filtered row has a status. Either ends the run before the performance, pending and lookup tabs, where the model still shows them.
- Column absence (the `'Unid Negoc' in sla.columns` style guards): every column the logic reads is assumed present.
- The `try`/`except` fallbacks (`taxa_sla = 0`, `return None`): the modelled operations do not raise on the modelled inputs.
- Infinite or NaN floats in `Dias Faturamento`, `Lead Time` and `Nr Romaneio`: `int()` of them raises in Python. Finite reals, truncated toward zero, are modelled.
- `str(row['Numero'])` on numeric invoice numbers: the number is taken as the string the lookup compares.
- Lookup.Matches: `str.contains` treats the query as a regular expression and ignores case with Unicode rules. The model does plain substring search with ASCII case folding, so queries with regular-expression metacharacters or non-ASCII letters are not covered.
- The sorting of the option lists (`sorted(...)`), of the carrier table (`sort_values('% SLA')`) and `value_counts` tie order: only the lengths and contents of these lists are modelled, not their order.
- Floating-point presentation: `.round(1)`, weight and value formatting, the `Lead Time` mean, the concentration index and colour normalisation. The rate is an exact `real`.
- The filtered-count sidebar summary and its percentage reduction (sla.py:402-430): display only.
