# Expense tracker: ledger, aggregation and settings

This project models the core of `app.py`, a single-user-per-file expense tracker, in Dafny.

Each user has two files:

- An expenses file: a CSV with the columns `id, date, type, category, amount, description`.
- A settings file: categories, currency and the day the month starts.

The model covers the following.

- **Ledger** (`ledger.dfy`, `records.dfy`)
  - The expenses file is `Ledger.Store.rows`, a sequence of rows of text cells.
  - **Lenient load** (`Records.Load`): the rows whose date parses, each paired with its date.
  - **Add an expense** (`Store.Append`):
    - validates the form;
    - computes the next id by a loop over the raw rows (`NextId`);
    - appends one row.
  - **Update** (`Store.Update`): patches the first loaded row that has the id, in its known columns only. It writes back the loaded rows.
  - **Delete** (`Store.Delete`): filters the loaded rows by id.
  - **Filtered listing** (`Query`).
  - **Import** (`Store.Import`, `Store.ImportRecords`):
    - checks the required columns;
    - numbers the rows 1..N when the upload has no `id` column;
    - replaces the file wholesale.
  - **Export** (`ExportCsv`, `ExportJson`).
- **Aggregation** (`aggregation.dfy`): pure functions over the loaded entries.
  - Dashboard totals per type, with savings = earnings − spends.
  - The latest five entries, newest first.
  - Monthly buckets per type.
  - Spend totals per category.
  - Month×type and year×type pivots, with missing cells set to zero.
- **Settings** (`settings.dfy`):
  - The defaults.
  - The three save actions as methods of `Settings.Store`. Each one reads the current settings, changes one field and writes the whole object back.

Caller-supplied parsers (`Records.Parsers`) stand in for the library parsers:

- date text to a `(year, month, day)` date (`pd.to_datetime`);
- amount text to an exact number of minor currency units (`float`, `pd.to_numeric`).

A failed parse is `None`. Python's `int()`, `str.strip()` and `str.isdigit()` are modelled concretely, in `text.dfy`. `str.strip()` removes every character `str.isspace()` accepts; `int()` ignores the same set except the four separator controls U+001C..U+001F, so `int('\x1c5')` fails.

The cell texts `pd.read_csv` reads as missing values (`""`, `NA`, `NaN`, `null` and the rest of its default list, `Records.NaTokens`) are kept in the model as text, and treated as pandas treats a missing value in the type and category columns: it equals no filter value, and `groupby` leaves out the rows whose key is missing, so the category chart and the pivots skip them.

Dates have three outcomes. `pd.to_datetime` parses a date, reads the empty text and the spellings of NaT and NaN (`Records.NaTStrings`) as not-a-time without an error, or raises. The lenient load drops a row whose date does not parse, whatever the reason. An upload is refused only when `pd.to_datetime` raises on a date cell. A CSV upload's missing-value cells and the not-a-time spellings are imported. A listing bound that is not-a-time lists nothing, because every comparison with not-a-time is false.

Two code paths treat a date that does not parse differently, and the model keeps the difference:

- Append reads the raw file, so such rows survive an append.
- Update and delete write back the loaded frame, so they drop such rows from the file (`Records.WriteBackIsLenient`).

A deleted id can be handed out again, because `new_id` is recomputed from the rows that survive (app.py:310-319). `Ledger.DeleteMaxLowersNextId` shows that after deleting the largest id, the next id handed out is no larger than the deleted one.

## Model

| member | source | states |
|---|---|---|
| Text.TrimEnds | app.py:248 | A stripped category has no whitespace at either end. |
| Text.TrimIsInnerSlice | app.py:248 | `strip()` keeps one contiguous piece of the input and removes only whitespace around it. |
| Text.TrimIdempotent | app.py:248 | Stripping twice is stripping once. |
| Text.Strip | app.py:248 | `str.strip()`: trims every character `str.isspace()` accepts from both ends. Its properties are the `Trim` lemmas. |
| Text.ParseInt | app.py:313 | `int()` in base 10: optional whitespace (without U+001C..U+001F), an optional sign, then ASCII digits. Its partners are `ParseIntDecimal`, `ParseIntSigned` and the `ParseIntRejects` lemmas. |
| Text.DecimalRoundTrip | app.py:326 | The digits `str(n)` writes have value `n`. |
| Text.ParseIntDecimal | app.py:310-326 | An id written as `str(n)` is read back as `n` by `int()`. |
| Text.IntStripKeepsDigitEnds | app.py:313 | `int()` strips nothing from text that starts with a non-space and ends with a digit. |
| Text.ParseIntSigned | app.py:313 | `int()` reads `-` or `+` followed by any decimal number as that signed number. |
| Text.ParseIntRejects | app.py:312-317 | `int()` fails whenever, after its stripping, some character other than a leading sign is not a digit; the id loop skips such a row. |
| Text.ParseIntRejectsBlank | app.py:312-317 | `int()` fails on empty or all-whitespace text. |
| Text.IntStripAllSpace | app.py:313 | Text made only of the whitespace `int()` ignores strips to nothing. |
| Records.DateLeTotal | app.py:187 | Any two dates are ordered one way or the other, which the newest-first sort relies on. |
| Records.DateLeTransitive | app.py:187 | Date order is transitive. |
| Records.SetCell | app.py:371 | `df.at[idx, key] = value` replaces exactly the cell of a known column. Any other key changes nothing. |
| Records.Load | app.py:108-110 | Loading never yields more rows than the file has. |
| Records.LoadMembership | app.py:108-110 | An entry is loaded exactly when its row is in the file and its date text parses to its date. |
| Records.LoadConcat | app.py:108-110 | Loading works row by row and keeps file order. |
| Records.LoadKeepsParsableFile | app.py:108-110 | A file whose dates all parse loads completely, in order. |
| Records.WriteBackIsLenient | app.py:361-382 | Writing back the loaded frame keeps exactly the rows whose date parses, in file order. |
| Ledger.MaxId | app.py:310-317 | The largest id `int()` reads among the rows, or 0; rows whose id does not parse are skipped. Its partners are `MaxIdIsUpperBound` and `MaxIdIsAttained`. |
| Ledger.MaxIdIsUpperBound | app.py:310-319 | No parseable id exceeds the running maximum. |
| Ledger.MaxIdIsAttained | app.py:310-319 | The maximum is 0 or the id of some row. |
| Ledger.NextId | app.py:310-319 | The loop returns one past the largest parseable id (1 for none). It is above every parsed id, and it is 1 or one past some row's id. |
| Ledger.NextIdIsFresh | app.py:310-326 | The appended id reads back as itself, no earlier row has it, and it becomes the new maximum. |
| Ledger.FirstMatch | app.py:368 | `.index[0]`: the first position the mask selects, or none exactly when it selects nothing. |
| Ledger.Patched | app.py:369-371 | After an update, each column takes the request's value when the request names it, and keeps its cell otherwise. |
| Ledger.PatchRow | app.py:369-371 | The loop over the request's pairs computes `Patched`. |
| Ledger.Deleted | app.py:381-382 | The file a delete leaves: the loaded rows without those of the target id. Its partners are the `Delete…` lemmas. |
| Ledger.DeleteKeepsOthers | app.py:381 | A row survives a delete exactly when its date parses and its id is not the target. |
| Ledger.DeleteKeepsOrder | app.py:381 | Survivors keep their relative order. |
| Ledger.DeleteAbsentId | app.py:378-385 | Deleting an absent id removes nothing except rows whose date does not parse. |
| Ledger.DeleteIdempotent | app.py:381-382 | Deleting the same id twice is deleting it once. |
| Ledger.DeleteMaxLowersNextId | app.py:310-319 | After deleting the largest id, the next id handed out is no larger than it, so ids are reused. |
| Ledger.Query | app.py:398-405 | The listing fails exactly when `pd.to_datetime` raises on a given date bound. A not-a-time bound does not fail it. |
| Ledger.QueryIsOneSelection | app.py:398-405 | The four optional filters applied in turn select, in file order, the loaded entries that match all the given ones. Date bounds are inclusive, and a not-a-time bound admits no date. Category and type must match exactly, and a cell pandas reads as missing matches no filter value. |
| Ledger.MatchesIsFourFilters | app.py:398-405 | An entry matches the query exactly when it passes each given filter's comparison. |
| Ledger.QueryNotATime | app.py:398-401 | A start or end bound that pandas reads as not-a-time lists no entries. |
| Ledger.Imported | app.py:458-477 | A missing required column refuses the upload. Otherwise the rows carry the uploaded cells (date, type, category, amount, description), and uploaded ids are kept. No date cell makes `pd.to_datetime` raise: each one parses, is a not-a-time spelling, or, in a CSV upload, is a missing value. |
| Ledger.ImportNumbersRows | app.py:472-473 | Without an `id` column, row `i` gets id `i + 1`, so all ids are distinct. |
| Ledger.ImportRefusal | app.py:463-469 | An upload is refused exactly when a required column is missing or `pd.to_datetime` raises on some date cell. |
| Ledger.ImportKeepsMissingDates | app.py:460-477 | Date cells pandas reads as missing or as not-a-time never refuse an upload that has the required columns. |
| Ledger.FromRecords | app.py:502 | A list of records becomes a table whose columns are every key that some record has. |
| Ledger.CsvRoundTrip | app.py:420-477 | Re-importing an exported file succeeds exactly when `pd.to_datetime` raises on none of its dates, and then gives back the same rows. |
| Ledger.ExportCsv | app.py:420-424 | The CSV export is the file itself: one record per row, with the file's columns. Its partner is `CsvRoundTrip`. |
| Ledger.ExportJson | app.py:428-433 | The JSON export holds the loaded rows as records, or nothing when none load. Its partners are `ExportJsonIsLoadedTable` and `JsonRoundTrip`. |
| Ledger.ExportJsonIsLoadedTable | app.py:428-433 | The JSON export is the table of the rows that load. |
| Ledger.JsonRoundTrip | app.py:428-515 | Re-importing a JSON export gives the loaded rows, with ids and order kept. |
| Ledger.Store.constructor | app.py:72-75 | A new expenses file has no rows. |
| Ledger.Store.Append | app.py:279-355 | An incomplete form or an unparseable amount leaves the file unchanged. Otherwise every row is kept and one row is added at the end, with id `MaxId + 1` and an empty description if none was given. |
| Ledger.Store.Update | app.py:363-376 | An absent id fails and writes nothing. Otherwise the file becomes the loaded rows with only the first matching row patched. |
| Ledger.Store.Delete | app.py:378-385 | Always succeeds. The file becomes `Deleted`. |
| Ledger.Store.Import | app.py:458-481 | A refused upload leaves the file unchanged. Otherwise the file is replaced wholesale. |
| Ledger.Store.ImportRecords | app.py:497-523 | The same, for a JSON list of records: a refused upload reports the refusal's reason and leaves the file unchanged. |
| Aggregation.KindTotal | app.py:179-181 | The sum of the amounts of one type's entries. Its partners are `KindTotalConcat`, `KindTotalSplit` and `KindTotalPermutation`. |
| Aggregation.KindTotalConcat | app.py:180-182 | A type's total over two parts of the file is the sum of the parts' totals. |
| Aggregation.KindTotalSplit | app.py:217 | A type's total is the total of the entries meeting a condition plus that of the rest. |
| Aggregation.KindTotalPermutation | app.py:180-182 | A type's total does not depend on the order of the rows. |
| Aggregation.Summary | app.py:179-182 | Savings is earnings minus spends. |
| Aggregation.SummaryAppend | app.py:179-182 | One more entry moves only its own type's total, by its amount. Savings moves only for earnings and spends; investments never enter it. |
| Aggregation.SummaryPermutation | app.py:179-182 | The summary does not depend on row order. |
| Aggregation.Insert | app.py:187 | Insertion adds exactly one entry (as a multiset). |
| Aggregation.InsertKeepsSorted | app.py:187 | Inserting into a newest-first list keeps it newest first. |
| Aggregation.SortDesc | app.py:187 | `sort_values('date', ascending=False)` is a newest-first permutation. |
| Aggregation.Latest | app.py:187 | The first five of the newest-first order. Its partners are `LatestIsNewestFirst` and `LatestIsTopFive`. |
| Aggregation.LatestIsNewestFirst | app.py:187 | The latest list has `min(5, n)` entries, newest first, all taken from the file. |
| Aggregation.LatestIsTopFive | app.py:187 | Every entry left out is no later than every entry shown. |
| Aggregation.Buckets | app.py:191-195 | One type's entries grouped by a key, each group mapped to its sum. Its partners are `AppendTouchesOwnBucket` and `BucketsPartitionTotal`. |
| Aggregation.KeyedTotalAbsent | app.py:220-222 | A group with no entries of a type sums to zero, which is the value `fillna(0)` writes. |
| Aggregation.AppendTouchesOwnBucket | app.py:191-195 | An entry contributes only to the bucket of its own group, and only for its own type. |
| Aggregation.GroupsPartitionTotal | app.py:191-195 | Group totals over a repetition-free list that names every group sum to the type's total. |
| Aggregation.BucketsPartitionTotal | app.py:191-195 | For each type, the buckets add up to the type's total. |
| Aggregation.Dashboard | app.py:169-206 | The dashboard's figures, with the empty-file branch. Its partners are `DashboardIsSummary` and `MonthlyMatchesTotals`. |
| Aggregation.DashboardIsSummary | app.py:175-199 | The empty-file branch (all zeros, no rows, empty charts) agrees with the general figures, so the dashboard is always the summary, the latest five and the monthly buckets of the loaded entries. |
| Aggregation.MonthlyMatchesTotals | app.py:179-195 | Each charted type's monthly buckets sum to that type's dashboard total. |
| Aggregation.Pivot | app.py:221-227 | A row per group and a column per type, each cell that type's sum in that group or 0. Its partners are `PivotCell`, `PivotCoversBuckets` and `PivotShape`. |
| Aggregation.PivotCell | app.py:220-227 | Each pivot cell is that type's bucket for the month or year, or 0 when the type has none there; the analysis page applies this to the entries with a type value. |
| Aggregation.PivotShape | app.py:221-227 | The pivot of the typed entries has a row for each group of a typed entry and no other, and each row has a column for each type value that occurs, never a missing one. |
| Aggregation.Analysis | app.py:210-237 | The analysis page's category chart and pivots, with the empty-file branch. Its partners are `AnalysisIsPivots`, `AnalysisPivotsShape` and `CategoriesAreSpends`. |
| Aggregation.AnalysisIsPivots | app.py:207-229 | The empty-file branch agrees with the general figures: the category chart of the spends with a category value and the pivots of the entries with a type value. |
| Aggregation.AnalysisPivotsShape | app.py:220-227 | On the analysis page, rows missing a type are in no month or year row and in no column of either pivot. |
| Aggregation.PivotCoversBuckets | app.py:220-227 | Every bucket of every type appears in the pivot with its value. |
| Aggregation.CategoriesAreSpends | app.py:217 | The category chart has a key exactly for each category value (not a missing cell) that has a spend. Its values sum to the total spend less the spends with a missing category. |
| Settings.CleanCategories | app.py:248 | Stored categories are non-empty and are stripped forms of submitted entries. |
| Settings.CleanCategoriesKeepsEntries | app.py:248 | Every submitted entry with non-space text is kept, stripped. |
| Settings.CleanCategoriesTrimmed | app.py:248 | No stored category has whitespace at either end. |
| Settings.CleanCategoriesOfClean | app.py:248 | A list of stripped, non-blank entries is stored as it is. |
| Settings.CleanCategoriesConcat | app.py:248 | Cleaning works entry by entry, keeping submission order. |
| Settings.CleanCategoriesIdempotent | app.py:248-249 | Re-saving a saved list stores it unchanged. |
| Settings.ParseStartDay | app.py:261-263 | An accepted start day is a plain-digit text naming a day in 1..31. |
| Settings.ParseStartDayAccepts | app.py:262-263 | Every day 1..31, written in decimal, is accepted as itself. |
| Settings.ParseStartDayRejectsRange | app.py:262 | 0 and days above 31 are ignored. |
| Settings.ParseStartDayRejectsText | app.py:262 | A missing value and text that is not all digits are ignored. |
| Settings.DefaultCategoriesAreClean | app.py:57-60 | The default categories are a cleaned list, so saving them back stores them unchanged. |
| Settings.DefaultStartDayIsAccepted | app.py:122-126 | The default start day, 1, is one the start-date rule accepts. |
| Settings.Store.Current | app.py:117-126 | `load_user_settings`: the saved settings, or the defaults when there is no file. `Initialize` keeps it unchanged. |
| Settings.Store.constructor | app.py:117-126 | A user starts with no settings file. |
| Settings.Store.Initialize | app.py:77-85 | The defaults are written only when there is no file, and the visible settings do not change. |
| Settings.Store.SaveCategories | app.py:247-251 | The cleaned list replaces the categories, and the other settings are kept. |
| Settings.Store.SaveCurrency | app.py:253-257 | The currency is written only when a non-empty value is sent. |
| Settings.Store.SaveStartDate | app.py:259-264 | The start day is written only when the text names a day 1..31 in plain digits. |

## Left out

- Flask routing, templates, `flash`, `redirect`, `jsonify` and `send_file` are not modelled. Nor are login, password hashing and user configuration. These are web glue and foreign library calls.
- File I/O, and the CSV and JSON parsing and writing done by pandas, `csv` and `json`, are not modelled. The expenses file is `Ledger.Store.rows` and the settings file is `Settings.Store.saved`. A missing file and an empty file are not told apart. `IOError` paths and the exception fallback of `load_user_expenses` are not modelled.
- `pd.to_datetime` and `float`/`pd.to_numeric` are caller-supplied parsers with exact results. Floating-point rounding is not modelled, and neither are dates with a time of day.
- Records.RowsOf: rows are written back with the text they were read with. When pandas writes a frame back (update, delete, either import), it re-renders dates as `YYYY-MM-DD`, numbers in its own format (`100` becomes `100.0`) and missing cells (any of `Records.NaTokens`) as empty text. The JSON export re-renders dates and numbers the same way but writes a missing cell as `NaN`. None of this rendering is modelled, and `Ledger.CsvRoundTrip` and `Ledger.JsonRoundTrip` hold up to it.
- Records.Load: pandas infers one date format from the first date of the column and turns every cell in another format into not-a-time, although the cell would parse on its own (`01/06/2024` after `2024-01-05`). The load drops those rows, and the next update or delete erases them from the file. The model parses each cell on its own, so `Records.LoadMembership` and `Records.LoadConcat` describe the source for files whose dates share one format. Columns whose every cell looks numeric are read as numbers rather than text; the model compares text.
- Ledger.NewRow: the new row's amount cell is the form's text, not `str(float(amount))`.
- Ledger.HasId: the id column is compared as numbers via `int()`. pandas instead reads the whole column as text when any id is not numeric, and then no id matches an update or a delete. Once one id cell is empty, pandas reads the column as floats and writes ids back as `5.0`; those still match an update or a delete in pandas, but `int('5.0')` fails, so the append loop skips them and can hand out an id already in use. Neither case is modelled.
- Text.ParseInt: Unicode decimal digits (such as `١٥`) and `_` separators between digits, which Python's `int()` also accepts, are not modelled; the model accepts ASCII digits only.
- Settings.ParseStartDay: ASCII digits only. The source also accepts other Unicode decimal digits (`'١٥'` passes `isdigit()` and `int()` gives 15), which the model ignores; digits such as `²` pass `isdigit()` but make `int()` raise.
- Ledger.Imported: a JSON `null` date (read as not-a-time) has no counterpart, since the model's cells are text; a missing key, read as empty, does. Extra columns in an upload are not modelled. Nor are uploads that pandas cannot read, a JSON document that is not a list of records, or a date column that `pd.to_datetime` rejects as a whole although each cell parses on its own.
- Aggregation.Amount: the analysis page does not coerce amounts to numbers. The model treats an unparseable amount as contributing 0 there, as the dashboard does.
- Aggregation.SortDesc: the order among entries with the same date is not modelled. pandas' default sort is not stable, so the model fixes one order and proves only what holds for any order.
- Aggregation.MonthOf: the month key is the pair `(year, month)`, not the text `strftime('%Y-%m')` produces. The two correspond one to one.
- The choice between the settings actions by the form's `action` field, the unsynchronised read-modify-write race between requests, and `static/js/main.js` (theme and formatting in the browser) are not modelled.
