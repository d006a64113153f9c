# AWS daily cost report — a Dafny model

The reporting script `pricing.py` runs in five steps:
1. It picks a date window from its environment: one day, an inclusive start/end range, or yesterday.
2. It asks Cost Explorer for the unblended cost per service over that window.
3. It flattens the nested response into one row per day and service.
4. It writes the rows to `output/aws_costs_<label>.json`, and to `output/aws_costs_<label>.csv` when pandas is available. It uploads each written file under the prefix with trailing `/` removed, then `/`, then the file name.
5. It prints the total and its unit.

This project models that logic as pure functions and proves its properties:

| file | module | models |
|---|---|---|
| `wrappers.dfy` | `Wrappers` | `Option` and `Result`, which stand for Python's `None` defaults and raised exceptions |
| `calendar.dfy` | `Calendar` | the proleptic Gregorian `date` of Python's `datetime` module (years 1 to 9999). `Succ` and `Pred` stand for `± timedelta(days=1)`, and `Ordinal` for `date.toordinal()` |
| `date_text.dfy` | `DateText` | `strptime(s, "%Y-%m-%d").date()` as a partial parser (`ParseDate`), and `strftime("%Y-%m-%d")` as `FormatDate` |
| `paths.dfy` | `Paths` | `str.rstrip('/')`, two-argument `posixpath.join` and `posixpath.basename` |
| `date_window.dfy` | `DateWindow` | `get_dates`: three modes tried in priority order, its `ValueError` and `OverflowError` cases, and the label |
| `cost_rows.dfy` | `CostRows` | `normalize`: response flattening, its `.get` defaults, and the `KeyError` raised by the first missing field |
| `summary.dfy` | `Summary` | the total and the unit printed at the end of `main` |
| `upload_keys.dfy` | `UploadKeys` | local file names and object keys |
| `report.dfy` | `Report` | the data flow of `main`, with the cost query passed in as a function |

The three date selectors `COST_DATE`, `COST_START` and `COST_END` are `Option<string>` parameters, and one set to `""` counts as unset, as under Python's `if VAR:`. The key prefix is passed in already resolved, so its `aws-costs/` default (pricing.py:35) appears only in the `UploadKeys.DefaultPrefix…` examples. The current date is a parameter of `GetDates`. The Cost Explorer query is a function parameter of `RunReport`. Amounts are exact `real` values.

## Model

| member | source | states |
|---|---|---|
| Calendar.Succ | pricing.py:61 | The day after a valid date is valid and later, and no valid date lies strictly between the two. |
| Calendar.Pred | pricing.py:72 | The day before a valid date is valid and earlier, and no valid date lies strictly between the two. |
| Calendar.SuccOrdinal | pricing.py:61 | Adding one day increases the day number since 0001-01-01 (`toordinal`) by exactly one, as `fromordinal(toordinal() + 1)` does. |
| Calendar.PredOrdinal | pricing.py:72 | Subtracting one day decreases the day number by exactly one. |
| Calendar.SuccPred | pricing.py:72-74 | (today − 1 day) + 1 day is today, for every date after 0001-01-01. |
| Calendar.PredSucc | pricing.py:67 | (d + 1 day) − 1 day is d, for every date before 9999-12-31. |
| Calendar.OrdinalOrder | pricing.py:67 | Calendar order agrees with day-number order in both directions, and distinct dates have distinct day numbers. |
| Calendar.OrdinalRange | pricing.py:61 | Valid dates have day numbers 1 to 3652059. Only 0001-01-01 has 1, and only 9999-12-31 has 3652059. |
| Calendar.StepOverflow | pricing.py:61-72 | A one-day step stays inside `date`'s range exactly when the date is not the corresponding end date. Otherwise Python raises `OverflowError`. |
| Calendar.SuccRollover | pricing.py:61 | The last day of a month is followed by the 1st of the next month, and Dec 31 by Jan 1. Feb 28 is followed by Feb 29 exactly in Gregorian leap years, and Feb 29 is valid exactly then. |
| Calendar.LeapExamples | pricing.py:72 | 2024 and 2000 are leap years; 2023 and 1900 are not. Sample steps across Feb 29, Mar 1 and the new year are given. |
| DateText.ParseDate | pricing.py:59 | A successful parse gives a valid date from a text of 8 to 10 characters. The date's year is the value of the text's first four characters, which are digits. |
| DateText.ParseShape | pricing.py:59 | Every accepted text is a four-digit year, `-`, a month field, `-` and a day field, and the parsed date is exactly the one those fields name. Anything else is a `ValueError`. |
| DateText.ParseFields | pricing.py:64 | The `%Y-%m-%d` grammar, field by field. The year is four digits. The month is `1[0-2]`, `0[1-9]` or `[1-9]`. The day is `3[01]`, `[12]\d`, `0[1-9]`, `[1-9]` or ` [1-9]`. The text parses to exactly the date those fields name when it is a real date, and fails otherwise. |
| DateText.FormatDate | pricing.py:60 | The formatted date has 10 characters, `-` at positions 4 and 7, and decimal digits everywhere else, so it is canonical. |
| DateText.Pad4 | pricing.py:60 | The zero-padded year is a four-digit field whose value is the year. |
| DateText.Pad4OfYear | pricing.py:60 | Every four-digit field is the zero-padding of its own value. |
| DateText.ParseFormat | pricing.py:59-60 | Parsing a formatted date gives that date back. |
| DateText.FormatOfParse | pricing.py:59-60 | Reformatting a parsed text gives the same text exactly when it is canonical: 10 characters and no space. Short and space-padded fields are normalised. |
| DateText.ParsedCharacters | pricing.py:59 | A text that parses holds only digits, `-` and spaces. |
| DateText.ParseShortFields | pricing.py:64 | `2024-1-5` parses as 5 January 2024. |
| DateText.ParseSpacePaddedDay | pricing.py:65 | `2024-01- 5` parses as 5 January 2024. |
| DateText.ParseLeapDay | pricing.py:59 | `2024-02-29` parses. |
| DateText.ParseRejectsNonLeapDay | pricing.py:59 | `2023-02-29` does not parse. |
| DateText.ParseRejectsMonth13 | pricing.py:59 | `2024-13-01` does not parse. |
| DateText.ParseRejectsYearZero | pricing.py:59 | `0000-01-01` does not parse. |
| DateText.ParseRejectsTrailing | pricing.py:59 | Trailing characters after the day are rejected. |
| DateText.ParseRejectsShapes | pricing.py:59 | A two-digit year, `/` separators and the empty text are rejected. |
| DateWindow.GetDates | pricing.py:56-75 | Whatever the selector texts look like, the bounds of every successful window are canonical `YYYY-MM-DD` texts. The mode lemmas below state what each mode returns. |
| DateWindow.DateWins | pricing.py:58-62 | A set `COST_DATE` alone decides the result. `COST_START`, `COST_END` and the current date make no difference. |
| DateWindow.SingleDateWindow | pricing.py:58-62 | Single-date mode gives `[D, D + 1 day)`, with both bounds canonical, so they are the `strftime` texts of D and D + 1 day (by `FormatOfParse`). Its label is the `COST_DATE` text unchanged. |
| DateWindow.SingleDateErrors | pricing.py:59-61 | Single-date mode fails with the bad text exactly when `COST_DATE` does not parse. It fails with an overflow exactly when the date is 9999-12-31. |
| DateWindow.RangeWindow | pricing.py:63-68 | Range mode gives `[START, END + 1 day)`, with both bounds canonical, so they are the `strftime` texts of START and END + 1 day. Its label is `START_to_END` from the raw texts. |
| DateWindow.RangeErrors | pricing.py:64-67 | Range mode reports an unparsable START first and an unparsable END second. An END of 9999-12-31 overflows. |
| DateWindow.RangeNotOrdered | pricing.py:63-68 | START and END are not checked for order. An END before START still gives a window, and its exclusive end is not after its start. |
| DateWindow.FallThrough | pricing.py:63-69 | With only one of START and END set, the result is the default mode's, as if nothing were set. |
| DateWindow.DefaultWindow | pricing.py:69-75 | Default mode gives `[today − 1 day, today)`, exactly one day: the end parses to the day after the start. The start is the canonical text of yesterday, and the label is that start. |
| DateWindow.DefaultOverflow | pricing.py:71-72 | Default mode overflows when today is 0001-01-01. |
| DateWindow.LabelHasNoSlash | pricing.py:56-75 | Every successful label is free of `/`, in all three modes. |
| DateWindow.RawLabelExample | pricing.py:58-62 | `COST_DATE=2024-1-5` queries `2024-01-05` to `2024-01-06` but keeps the label `2024-1-5`. |
| CostRows.Normalize | pricing.py:87-101 | No contract of its own. Its behaviour is stated by `NormalizeSucceeds` (when it succeeds), `NormalizeCount` (how many rows) and `RowAt` (which row each group becomes). |
| CostRows.RowOf | pricing.py:91-99 | A group gives a row exactly when all five fields it reads are present. The row carries the period start, the first key, and the amount and unit. |
| CostRows.NormalizeGroups | pricing.py:90-100 | One period's groups flatten in order to one row per group, or fail with the error of the first incomplete group. |
| CostRows.NormalizePeriods | pricing.py:89-101 | Flattening succeeds exactly when every period does. It then yields as many rows as there are groups in all periods. Otherwise it fails with the first failing period's error. |
| CostRows.OffsetBounds | pricing.py:89-100 | Each period's rows form one block inside the row list, and the next period's block starts right where it ends. |
| CostRows.RowAt | pricing.py:89-100 | Group `j` of period `i` becomes exactly the row at offset (groups of earlier periods) + `j`. Together with `OffsetBounds` and `NormalizeCount`, the blocks of consecutive periods tile the row list, so order is kept and nothing is filtered or sorted. |
| CostRows.NormalizeCount | pricing.py:88-90 | The row count is the sum of the group counts. A missing `ResultsByTime` gives no rows. |
| CostRows.NormalizeSucceeds | pricing.py:89-96 | The whole response flattens exactly when every group has all its fields. Periods without groups need none. |
| CostRows.EmptyPeriodsGiveNoRows | pricing.py:89-90 | Periods whose `Groups` is missing or empty give no rows. |
| CostRows.TwoServicesExample | pricing.py:87-101 | One day with EC2 and S3 gives the two rows in response order. |
| Summary.Total | pricing.py:139 | No contract of its own. `SumAmounts` computes it with a loop, `TotalAppend` splits it over concatenation, and `TotalOfNormalized` equates it with the response's own sum of amounts. |
| Summary.ReportUnit | pricing.py:140 | No contract of its own. `UnitOfNormalized` and `EmptySummary` state which unit it reports. |
| Summary.SumAmounts | pricing.py:139 | The loop's total is the sum of all row amounts. |
| Summary.TotalAppend | pricing.py:139 | The total of concatenated row lists is the sum of their totals. |
| Summary.TotalOfNormalized | pricing.py:139 | The total of the flattened rows is the sum of every group amount in the response. |
| Summary.UnitOfNormalized | pricing.py:140 | The unit is `USD` when the response has no groups. Otherwise it is the unit of the first group of the first period that has groups. |
| Summary.TwoServicesSummary | pricing.py:139-140 | 12.34 USD plus 0.50 USD reports 12.84 USD. |
| Summary.EmptySummary | pricing.py:139-140 | No rows reports 0 USD. |
| Paths.RStripSlashes | pricing.py:133 | The stripped prefix is a prefix of the input and does not end in `/`, and only `/` characters were removed. |
| Paths.RStripSlashesUnique | pricing.py:133 | Any prefix with those three properties is the stripped text. |
| Paths.RStripIgnoresTrailingSlashes | pricing.py:133 | Appending any number of `/` does not change the stripped text. |
| Paths.RStripIdempotent | pricing.py:133 | Stripping twice equals stripping once. |
| Paths.Join | pricing.py:127-128 | No contract of its own. `BasenameOfJoin` states the property the file names rely on: joining a directory and a slash-free name, then taking the base name, gives the name back. |
| Paths.Basename | pricing.py:133 | The base name contains no `/`, is a suffix of the path, and is preceded by `/` when it is not the whole path. |
| Paths.BasenameOfJoin | pricing.py:127-133 | The base name of `join(dir, name)` is `name` for any slash-free `name`. |
| UploadKeys.LocalPathIs | pricing.py:127-128 | Each local file is `output/` followed by `aws_costs_<label><ext>`. |
| UploadKeys.ObjectKey | pricing.py:133-136 | No contract of its own. `KeyOfLabel` gives the key of a written file, and `KeysIgnoreTrailingSlashes` shows that trailing slashes on the prefix do not matter. |
| UploadKeys.KeyOfLabel | pricing.py:127-133 | For a slash-free label, the key is the stripped prefix, one `/`, and `aws_costs_<label><ext>`. |
| UploadKeys.KeysIgnoreTrailingSlashes | pricing.py:133-136 | Prefixes that differ only in trailing `/` give identical keys. |
| UploadKeys.DefaultPrefixStrips | pricing.py:35 | The default prefix `aws-costs/` strips to `aws-costs`. |
| UploadKeys.DefaultPrefixExample | pricing.py:127-133 | With the default prefix, the JSON report for `2024-01-01` has the key `aws-costs/aws_costs_2024-01-01.json`. |
| UploadKeys.UploadedKeysShape | pricing.py:133-137 | Two keys are uploaded with the tabular library and one without. The JSON key comes first, in the stripped-prefix form. |
| Report.RunReport | pricing.py:120-140 | No contract of its own. `RunStopsOnWindowError` and `RunStopsOnNormalizeError` state how a run fails, `RunUploads` what it writes and uploads, and `RunTotal` what it reports. |
| Report.AssembleFiles | pricing.py:127-131 | The written files are `output/aws_costs_<label>.json`, plus `output/aws_costs_<label>.csv` when pandas is available. |
| Report.AssembleUploads | pricing.py:133-137 | There are as many keys as written files, each key is derived from its own file, and the JSON key comes first, in the stripped-prefix form. |
| Report.RunStopsOnWindowError | pricing.py:122-123 | A date error ends the run before the query is used. |
| Report.RunStopsOnNormalizeError | pricing.py:124 | When the window resolves but `normalize` rejects the response to its query, the run ends with exactly that error, before any file is written or uploaded. |
| Report.RunUploads | pricing.py:122-137 | Every successful run writes `output/aws_costs_<label>.json` first and uploads each written file under the stripped prefix and its own name, for any configuration. |
| Report.RunTotal | pricing.py:123-140 | The reported total is the sum of all amounts in the response to the window's query. With no groups it is 0 USD. |

## Left out

- AWS access is left out because it is network I/O through a library not shown: the Cost Explorer and S3 clients, the query call and `upload` (pricing.py:46-53, 78-84, 116-117). The query becomes a function parameter, and uploads appear as the list of keys.
- File output is left out because it is file I/O and an optional dependency: `save_json`, `save_csv` and `os.makedirs` (pricing.py:104-113, 126). The file contents are not modelled, only the paths and whether the CSV file exists.
- Configuration loading is left out because it is environment plumbing: the `.env` file, `os.environ` and the `RuntimeError` for a missing bucket (pricing.py:30-43). The values are parameters, and the bucket name plays no part in any modelled result.
- `datetime.date.today()` (pricing.py:71) is left out because it reads the clock; it becomes the `today` parameter.
- The two `print` lines (pricing.py:141-142) and the `.2f` rounding of the total are left out because they are console output.
- CostRows.RowOf: it does not model `Decimal(...)` parsing the `Amount` string or the `float` conversion (pricing.py:93). The amount is taken as an exact real, so a malformed amount string and float rounding are not modelled.
- CostRows.RowOf: it collapses a missing `Keys` field and an empty `Keys` list into one error, and likewise a missing `Metrics` and a missing `UnblendedCost`, and a missing `TimePeriod` and a missing `Start`. Python raises `KeyError` for the first of each pair and `IndexError` for an empty `Keys`, and nothing downstream tells them apart.
- DateText.ParseDate: it accepts only ASCII digits, whereas `strptime`'s `\d` also matches other Unicode decimal digits. Such input is not a plausible configuration value.
- DateText.FormatDate: it always pads the year to four digits. Some C libraries print years below 1000 without padding, which is a platform detail outside this model.
- Paths.Join: `os.path` is taken to be `posixpath`, so the local paths use `/`. On Windows, `ntpath.join` would give `output\aws_costs_<label>.json` and `Report.AssembleFiles` would not hold there. The object keys would be unchanged, because the base name is the same.
- Pagination (`NextPageToken`) is not modelled because the source does not handle it.

## Notes on behaviour

- One might expect every window to have `start < end`. Range mode does not keep that, because nothing checks START against END. `DateWindow.RangeNotOrdered` states what happens instead.
- The single-date and range labels use the raw environment texts, while `start` and `end` are reformatted. A label can therefore differ from the window start (`DateWindow.RawLabelExample`).
- Empty environment values behave as unset under Python's truthiness, so `COST_DATE=""` falls through to the other modes.
