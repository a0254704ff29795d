# Category totals of the expense pie chart

This project models the one piece of logic in `output.py`, the module that draws the pie
chart of spending by category. `generate_pie_chart` reads the expense ledger with
`csv.DictReader`. It folds the rows into a per-category total (a `defaultdict(float)`) and a
counter of valid rows. When nothing valid was read it reports "no data". Otherwise it hands
the plotting library a list of category labels and a parallel list of totals.

The model has four modules:

- `Wrappers` (`wrappers.dfy`): the `Option` datatype.
- `Amount` (`amount.dfy`): an exact-decimal parser standing in for `float()` on the text of
  the `Amount` column, with its round-trip lemmas.
- `Aggregate` (`aggregate.dfy`): the fold as pure functions (`Classify` for one row,
  `Advance` for one loop iteration, `Scan` for the loop). Beside them are independent
  reference definitions: `CategorySum` (the sum of a category's parsed amounts),
  `ValidCount`, `Categories` and `Aborts`. The lemmas connect the two.
- `PieChart` (`pie_chart.dfy`): `GeneratePieChart`, a method with a `while` loop that
  updates a `map<Cell, real>` and a counter exactly as the Python loop does, proved to end in
  the outcome `Expected` prescribes. `Entries` builds the parallel label and size lists.
- `Scenarios` (`scenarios.dfy`): concrete ledgers worked through by lemmas.

How a row is treated follows the order of the Python statements:

- `row['Category']` is looked up first, then `row['Amount']`. A missing column raises
  `KeyError`.
- A line shorter than the header leaves `None` in the missing cells (`Cell.Null`). `float(None)`
  raises `TypeError`.
- Only a failing `float(text)` raises `ValueError`.

Only `ValueError` skips the row (`Step.Skip`). Every other exception, including a reader error
while producing a row (`Record.Unreadable`), leaves the loop for the outer handler, which
abandons the whole read (`Step.Fail`, `Tally.Aborted`, `Report.ReadError`).

A `None` category with a parseable amount becomes a key of its own (`Cell.Null`), as it does
in Python.

The amount parser is a parameter (`Parser = string -> Option<real>`), so every property of the
fold holds for any parser. `Amount.ParseAmount` is the concrete one the scenarios use.

Only `ValueError` skips a row; any other exception abandons the chart.

## Model

| member | source | states |
|---|---|---|
| `Amount.ParseAmountAlphabet` | output.py:25 | an amount the model's parser accepts is non-empty and made of ASCII digits and '.', with a sign only in first position; the parser rejects any other text, which the fold then skips as a `ValueError` row |
| `Amount.ParseNatText` | output.py:25 | the decimal text of a whole number, bare or with '+' or '-', parses back to that number |
| `Amount.ParseDecimalText` | output.py:25 | whole digits, a point and fraction digits (such as "12.0", the text `str()` writes for a float) parse back to the number they denote, and to its negation after '-' |
| `Aggregate.ScanAbortsIff` | output.py:22-29 | the read is abandoned exactly when some record raises something other than `ValueError` (missing column, `None` amount, reader error) |
| `Aggregate.AbortIsFinal` | output.py:28-37 | once an exception other than `ValueError` escapes the loop, no later row can bring the read back: it stays abandoned |
| `Aggregate.ScanMeaning` | output.py:21-27 | on a completed read, the key set is exactly the categories of rows whose amount parsed, each total is the sum of the parsed amounts of exactly the rows of that category, and `row_count` is the number of such rows |
| `Aggregate.CategorySumNotIn` | output.py:24-26 | a category that no valid row carries contributes nothing: a bad row cannot credit its category |
| `Aggregate.ValidCountBound` | output.py:21-27 | the reference number of valid rows never exceeds the number of rows read |
| `Aggregate.ScanCountBound` | output.py:21-27 | on a completed read, the counter `row_count` never exceeds the number of rows read |
| `Aggregate.ScanEmptyIffZero` | output.py:26-33 | `row_count == 0` holds exactly when the totals map is empty |
| `Aggregate.SkippedRowIsInvisible` | output.py:23-29 | a row whose amount raises `ValueError`, wherever it stands, changes neither the totals nor the counter, and the later rows are processed as if it were absent |
| `Aggregate.ValidRowStep` | output.py:26-27 | one more valid row adds its amount to its own category (starting from zero if the key was absent), adds one to the counter, and leaves every other category's total unchanged |
| `Aggregate.AbortAt` | output.py:28-37 | a single record that raises something other than `ValueError`, wherever it stands, abandons the read of the whole file |
| `Aggregate.AdvanceCommutes` | output.py:26-27 | two loop iterations give the same state in either order |
| `Aggregate.ScanSwap` | output.py:22-27 | exchanging two neighbouring rows does not change the result, so only the set of (category, total) pairs carries meaning, not the order keys were first met |
| `PieChart.Entries` | output.py:40-41 | `labels` lists every key of the totals exactly once, `sizes` has the same length, and `sizes[i]` is the total of `labels[i]` |
| `PieChart.GeneratePieChart` | output.py:9-41 | no data file gives the not-found outcome; an unopenable file or an aborted read gives the read-error outcome; a completed read with `row_count == 0` gives "no data"; otherwise the chart's labels and sizes enumerate the totals the loop computed, which equal the fold `Scan` |
| `PieChart.ChartMeaning` | output.py:22-41 | a drawn chart's labels are exactly the categories of rows with a parseable amount, each slice is the sum of those rows' amounts, no record aborted the read, and at least one row was valid |
| `PieChart.NoChartIff` | output.py:28-37 | the read-error outcome occurs exactly when some record aborts; "no data" occurs exactly when nothing aborts and no row had a parseable amount |
| `Scenarios.FoodAndTransport` | output.py:22-27 | rows food 10, food 5, transport 3 give food 15 and transport 3 from three valid rows |
| `Scenarios.LettersRejected` | output.py:25 | the amount "abc" is rejected, as `float("abc")` raises `ValueError` |
| `Scenarios.CorruptedAmountSkipped` | output.py:25-29 | a row with amount "abc" is skipped and the following row still counts |
| `Scenarios.EmptyLedger` | output.py:31-33 | a ledger with no data rows gives exactly the "no data" outcome |
| `Scenarios.ShortRowKeyedByNone` | output.py:24-26 | a line that stops after its amount has category `None`, which becomes a key of its own |
| `Scenarios.MissingAmountAborts` | output.py:25-37 | a line that stops before its amount makes `float(None)` raise, and the whole read is abandoned even after a valid row |
| `Scenarios.NoCategoryColumnAborts` | output.py:24-37 | a file whose header lacks the Category column aborts at its first row |

## Left out

- File checks and opening (output.py:11-13, 18): the model takes the outcome as the input `DataFile`: `Absent`, `Unopenable` or `Present(rows)`.
- `csv.DictReader` (output.py:19): the library is not modelled; its output is the given `seq<Record>`. An empty file and a header-only file both give no rows. A reader failure is the record `Unreadable`.
- Amount.ParseAmountAlphabet: states what the model's parser accepts, which is less than `float()` accepts: `float()` also takes non-ASCII decimal digits (full-width "１２３" gives 123.0), surrounding Unicode whitespace, exponents, underscores between digits, `inf` and `nan`. Modelling Python's Unicode digit tables and float grammar exactly is outside this model.
- Amount.ParseAmount: accepts only an optional sign, digits and an optional '.' fraction. `float()` also accepts surrounding whitespace, exponents, underscores between digits, `inf` and `nan`; the model rejects these. This is why the fold is parametric in the parser.
- Floating-point arithmetic (output.py:25-26): amounts and totals are exact reals. IEEE rounding is not modelled, so `Aggregate.ScanSwap` holds for exact sums, not for float sums.
- Drawing with matplotlib (output.py:48-54): only the arguments of `plt.pie`, the labels and sizes, are modelled.
- The `print` diagnostics (output.py:12, 32, 36, 53): each is an outcome tag of `Report`.
- Dictionary iteration order (output.py:40-41): `Entries` picks keys in an unspecified order; only the pairing of each label with its size is stated.
- `import csv.py`, the interactive entry of new expenses, is not modelled.
