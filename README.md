# bugoracle, the data-shaping core, in Dafny

bugoracle reads bug reports from a CSV file and has a language model classify
each report by technological component, functional area and problem type, each
with a subcategory. It then counts the classifications overall and by month,
asks the model for insights on the monthly counts, and exports everything as CSV
or JSON. This project models the deterministic parts of that pipeline and
proves what they do:

- **`TotalSummarizer`** (`total_summarizer.dfy`, with `counting.dfy`,
  `dates.dfy` and `date_examples.dfy`). The class counts classified records
  into per-category counters.
  Six export flags gate the categories, and a subcategory is counted only when
  its parent is. The class counts once overall and once per `YYYY-MM` month.
  The month key comes from the date normaliser: strip, replace the first
  Spanish month abbreviation, collapse whitespace, then parse
  `%d/%b/%y %I:%M %p`. Each field of that format is its regex as a predicate
  on characters. The parse is proved both complete (every well-formed text
  parses, to the stamp its fields denote) and sound (every text that parses
  has that form). Completeness is lifted through the whole normaliser: a
  stamp with any whitespace around it and between its words, and with an
  English or Spanish month name, gets the key of its pivoted year and month.
  `date_examples.dfy` works three values through the whole normaliser. The class's methods work step by step on count tables, as the
  source does. Each method is proved equal to a specification function, and the
  conservation laws are proved about those functions.
- **`BugOracle`** (`bug_oracle.dfy`, `highlights.dfy`). This is the loop that
  sends each bug row to the model:
  - it cleans the model's answer and parses it;
  - it merges the row's subject, description and changed columns into the
    parsed object;
  - it stops at the first failure.

  The module also holds the reduction of each monthly table to a `total` and
  the top five `highlights`. The prompt builder, the model and `json.loads` are
  function parameters (`Oracle.Oracles`).
- **The exporters** (`json_exporter.dfy`, `csv_exporter.dfy`,
  `export_paths.dfy`):
  - the JSON `{children, total}` hierarchy;
  - the CSV flattening of two- and three-level tables into rows;
  - the processed-data header;
  - the four file paths each exporter returns.
- **`ConfigurationManager`** (`configuration_manager.dfy`). This covers:
  - the singleton with its once-only `__init__`;
  - `collect_inputs`, with environment variables and prompt answers as
    parameters;
  - the validated and plain getters;
  - `_input`, `_input_boolean`, `_input_list` and `_input_with_options`.

Supporting modules:

- `wrappers.dfy`: `Option`, `Result`, and the Python exceptions the core
  raises, as `Error`.
- `dicts.dfy`: Python's insertion-ordered dictionaries as association lists:
  `d[k]`, `d.get`, `d[k] = v`, `sum(d.values())`, counters.
- `pystr.dfy`: the `str` built-ins the core uses: `strip`, `split`, `join`,
  `lower`, `replace`, `in`, and `int()` parsing.
- `seqs.dfy`: sequence identities, proved once for every element type.

Python dictionaries are modelled as association lists. A predicate `Distinct`
says the keys are unique. `Put` is `d[k] = v`: it replaces the value in place
when the key is present and appends otherwise, so the iteration order the
exporters and the highlight tie-breaks depend on is part of the model.

Points where this model follows the code rather than the documentation:

- When all three top-level export flags are off, `_count_totals_by_month`
  never touches `counts_by_month[month]`. `totals_by_date` is then empty, yet
  every date is still parsed and can still fail
  (`Counting.ByMonthKeys`, `Summarizer.SummarySuccess`).
- The `csv_header_*` attributes are not assigned in `__init__`. Their getters
  raise `AttributeError` until `collect_inputs` has run
  (`Config.Validated`, `Attr.Missing`).
- The CSV exporter's `__init__` takes no `output_dir` argument, so its files
  always go under `./output` (`CsvFormat.Csv.constructor`). The JSON exporter
  inherits `FormatInterface.__init__(output_dir="./output")` unchanged
  (`JsonFormat.Json.constructor`).
- Collecting the export format with no environment value and an empty answer
  always fails. The default `"default"` is not a valid format
  (`Config.ExportFormatDefaultFails`).
- An environment value for an option is trimmed but not lower-cased, while a
  prompted answer is (`Config.OptionsCaseQuirk`).
- `strip("```json")` removes any run of the characters `` ` ``, `j`, `s`, `o`,
  `n` from both ends, not the prefix. So `"null"` cleans to `"ull"`, and an
  indented fence is kept (`Oracle.CleanNull`, `Oracle.CleanIndentedFence`).

## Model

| member | source | states |
|---|---|---|
| `Counting.CategoriesSpec` | code/src/summarizer/total_summarizer.py:153-186 | a fresh table's categories are exactly the enabled ones (a subcategory only with its parent), without repeats, in the fixed order tc, tc_sub, fa, fa_sub, pt, pt_sub; none at all exactly when the three top-level flags are off |
| `Counting.Field` | code/src/summarizer/total_summarizer.py:82 | `entry.get(key, "Unknown")`: a present value verbatim (even `""`), `"Unknown"` for a missing key |
| `Counting.TallyCount` | code/src/summarizer/total_summarizer.py:79-99 | the counter built by `+= 1` has distinct keys, and each value's count is its number of occurrences |
| `Counting.TallySum` | code/src/summarizer/total_summarizer.py:79-99 | a counter built from n values sums to n |
| `Counting.Totals` | code/src/summarizer/total_summarizer.py:77-101 | the totals have exactly the enabled categories, in order; each enabled category counts every value as often as the records carry it and sums to the number of records |
| `Counting.AddRecordOk` | code/src/summarizer/total_summarizer.py:79-99 | counting a record keeps every table a dictionary of dictionaries |
| `Counting.CountInAdd` | code/src/summarizer/total_summarizer.py:126-149 | counting a record adds exactly 1 to its own value of each category the table holds, and nothing else |
| `Counting.MonthStep` | code/src/summarizer/total_summarizer.py:120-149 | counting a record into its month (made from a fresh table on first use) adds 1 to the month sum of its value of every enabled category |
| `Counting.MonthsSumToTotals` | code/src/summarizer/total_summarizer.py:79-149 | for every category and value, the counts summed over all months equal the count in the totals |
| `Counting.ByMonthKeys` | code/src/summarizer/total_summarizer.py:120-124 | the months are exactly the records' month keys, with no empty months, every month table having the totals' categories; no months at all when no top-level flag is on |
| `Summarizer.CollectFailure` | code/src/summarizer/total_summarizer.py:122-124 | parsing the dates in order fails exactly when some date fails, with the first failure's error |
| `Summarizer.CountFromKeysSpec` | code/src/summarizer/total_summarizer.py:103-151 | given each record's month key result, counting by month fails with the first failure's error, or gives month tables that are well formed, keyed by the records' keys and adding up to the totals |
| `Summarizer.SummaryFailure` | code/src/summarizer/total_summarizer.py:42-60 | `summarize` fails exactly when some record's `changed` value (or `"Unknown"`) does not parse, with the error naming the first such record's normalised date |
| `Summarizer.SummarySuccess` | code/src/summarizer/total_summarizer.py:54-60 | a successful `summarize` returns the totals of the records and by-date tables keyed exactly by the records' month keys, adding up to the totals |
| `Summarizer.TotalSummarizer.constructor` | code/src/summarizer/total_summarizer.py:19-40 | the six flags are those the configuration getters return |
| `Summarizer.TotalSummarizer.InitializeGroup` | code/src/summarizer/total_summarizer.py:168-184 | one flag pair adds an empty counter for the category when it is on, then for its subcategory when that flag is on too |
| `Summarizer.TotalSummarizer.InitializeCounts` | code/src/summarizer/total_summarizer.py:153-186 | `_initialize_counts` gives an empty counter for exactly the enabled categories, in the fixed order |
| `Summarizer.TotalSummarizer.CountCategory` | code/src/summarizer/total_summarizer.py:81-83 | `counts[c][entry.get(c, "Unknown")] += 1` counts the entry into category `c` and no other |
| `Summarizer.TotalSummarizer.CountGroup` | code/src/summarizer/total_summarizer.py:80-87 | one block of the loop counts the entry under the category when its flag is on and under the subcategory when both flags are on |
| `Summarizer.TotalSummarizer.CountEntry` | code/src/summarizer/total_summarizer.py:79-99 | the loop body counts the entry into every enabled category, once |
| `Summarizer.TotalSummarizer.CountTotals` | code/src/summarizer/total_summarizer.py:62-101 | `_count_totals` is the specification table: the enabled categories, each summing to the number of records |
| `Summarizer.TotalSummarizer.ParseDate` | code/src/summarizer/total_summarizer.py:188-234 | `_parse_date` rewrites the string step by step to the month key of `Dates.MonthKey`, or fails with the normalised string |
| `Summarizer.TotalSummarizer.CountMonthEntry` | code/src/summarizer/total_summarizer.py:126-149 | counting an entry into `counts_by_month[month]` creates the month from a fresh table on first use, and only when some category is enabled |
| `Summarizer.TotalSummarizer.CountTotalsByMonth` | code/src/summarizer/total_summarizer.py:103-151 | `_count_totals_by_month` is the specification by-month table, or the first date's parse error |
| `Summarizer.TotalSummarizer.Summarize` | code/src/summarizer/total_summarizer.py:42-60 | `summarize` returns the pair of totals and totals by date, or the date error |
| `Dates.FirstSpanishFrom` | code/src/summarizer/total_summarizer.py:220-223 | finds the first Spanish abbreviation, in table order, that occurs in the string, or none |
| `Dates.ParseDay` | code/src/summarizer/total_summarizer.py:230 | `%d` is the regex `3[01]\|[12]\d\|0[1-9]\|[1-9]` (`Dates.DayPattern`); a field matches it exactly when it is one or two digits worth 1 to 31, and the day is the digits' value |
| `Dates.ParseHour12` | code/src/summarizer/total_summarizer.py:230 | `%I` is `1[0-2]\|0[1-9]\|[1-9]` (`Dates.HourPattern`); a field matches exactly when it is one or two digits worth 1 to 12, and the hour is their value |
| `Dates.ParseMinute` | code/src/summarizer/total_summarizer.py:230 | `%M` is `[0-5]\d\|\d` (`Dates.MinutePattern`); a field matches exactly when it is one or two digits worth at most 59, and the minute is their value |
| `Dates.PatternsAreDigits` | code/src/summarizer/total_summarizer.py:230 | every field the `%d`, `%I` or `%M` regex matches is one or two digits, and `%y`'s `\d\d` matches exactly the two-digit strings |
| `Dates.Pivot` | code/src/summarizer/total_summarizer.py:230 | `%y`'s pivot puts two digits in 1969-2068 with those digits as the last two of the year |
| `Dates.ParseYear2` | code/src/summarizer/total_summarizer.py:230 | `%y` accepts exactly two digits, read through the pivot, 69-99 as 19xx and 00-68 as 20xx |
| `Dates.Hour24` | code/src/summarizer/total_summarizer.py:230 | `%I` with `%p` gives a 24-hour hour with the same value modulo 12, in the afternoon exactly for PM (12 AM is 0, 12 PM is 12) |
| `Dates.ParseMonthName` | code/src/summarizer/total_summarizer.py:230 | `%b` accepts an English month abbreviation in any letter case, giving its number, and refuses any other word |
| `Dates.ParseStamp` | code/src/summarizer/total_summarizer.py:229-231 | a parsed stamp has a month 1-12, a year 1969-2068, a day within that month's length (leap years included), and a 24-hour time |
| `Dates.SplitFieldsText` | code/src/summarizer/total_summarizer.py:230 | the literals `/`, `/`, space, `:`, space of the format cut a stamp's text back into its six fields |
| `Dates.SplitFieldsSound` | code/src/summarizer/total_summarizer.py:230 | every text the literals cut into six fields is the text of those fields |
| `Dates.MonthNameOf` | code/src/summarizer/total_summarizer.py:230 | a word that spells the m-th abbreviation in any case is read as month m |
| `Dates.ParseStampComplete` | code/src/summarizer/total_summarizer.py:229-231 | every text `%d/%b/%y %I:%M %p` whose fields match the regexes, whose month name is one of the twelve, and whose day the month has, parses to the pivoted year, that month, and the day, 24-hour hour and minute its digits denote |
| `Dates.ParseStampSound` | code/src/summarizer/total_summarizer.py:229-231 | conversely, a text that parses is the text of six fields matching the regexes; the year is the pivot of its year field, the month the number its name spells, and day, hour and minute are its digits |
| `Dates.PadNat` | code/src/summarizer/total_summarizer.py:231 | zero-padding keeps the value and reaches the width |
| `Dates.MonthKeyOf` | code/src/summarizer/total_summarizer.py:231 | `strftime("%Y-%m")` gives a `YYYY-MM` key denoting that year and month |
| `Dates.MonthKeySpec` | code/src/summarizer/total_summarizer.py:188-234 | the month key is a `YYYY-MM` key when the normalised string parses, and otherwise the error names the normalised string |
| `Dates.MonthKeyComplete` | code/src/summarizer/total_summarizer.py:188-234 | any value whose normalised form is a well-formed stamp text has the month key of that stamp's pivoted year and month |
| `Dates.MonthKeySound` | code/src/summarizer/total_summarizer.py:188-234 | a month key always comes from the normalised value's year field through the pivot, and from its month name |
| `Dates.DayPatternRange` | code/src/summarizer/total_summarizer.py:230 | the `%d` regex matches a string exactly when it is one or two digits worth 1 to 31 |
| `Dates.HourPatternRange` | code/src/summarizer/total_summarizer.py:230 | the `%I` regex matches a string exactly when it is one or two digits worth 1 to 12 |
| `Dates.MinutePatternRange` | code/src/summarizer/total_summarizer.py:230 | the `%M` regex matches a string exactly when it is one or two digits worth 0 to 59 |
| `Dates.PivotYear` | code/src/summarizer/total_summarizer.py:230 | the two-digit year `yy` stands for a year in 1969-2068 that ends in `yy` |
| `Dates.PivotPadded` | code/src/summarizer/total_summarizer.py:230 | a two-digit year written zero-padded matches `%y` and pivots to the year that number stands for |
| `Dates.ParseStampPadded` | code/src/summarizer/total_summarizer.py:229-231 | every zero-padded `dd/mon/yy hh:mm AM` or `PM` with a day the month has, an hour 1-12 and a minute 0-59 parses to that date, with the pivoted year and the 24-hour hour |
| `Dates.StampWords` | code/src/summarizer/total_summarizer.py:230 | the text of the format is its date word, time word and AM/PM joined by single spaces |
| `Dates.ContainsInStamp` | code/src/summarizer/total_summarizer.py:221 | a Spanish abbreviation occurs in a stamp, whatever whitespace separates its words, exactly when it occurs in the month field |
| `Dates.ReplaceInStamp` | code/src/summarizer/total_summarizer.py:222 | replacing an abbreviation in such a stamp changes the month field and nothing else |
| `Dates.FirstSpanishInStamp` | code/src/summarizer/total_summarizer.py:220-223 | the abbreviation the loop picks in a stamp is the one it picks in the month field |
| `Dates.TranslateInStamp` | code/src/summarizer/total_summarizer.py:220-223 | translating a stamp translates its month field and leaves the other fields and the whitespace as they are |
| `Dates.MonthNameIsWord` | code/src/summarizer/total_summarizer.py:226 | a month name in any case holds no whitespace, so `split()` keeps it inside its word |
| `Dates.CollapseStamp` | code/src/summarizer/total_summarizer.py:226 | collapsing the whitespace of a stamp with any runs of whitespace between its words gives the format's text |
| `Dates.NormalizeSpaced` | code/src/summarizer/total_summarizer.py:202-226 | strip, translation and collapse turn a stamp with whitespace around it and between its words into the format's text with the month translated |
| `Dates.MonthKeySpaced` | code/src/summarizer/total_summarizer.py:188-234 | a stamp whose fields match the regexes, with any whitespace around it and between its words, and whose month name is English once translated, has the key of its pivoted year and that month |
| `Dates.SpanishMonthsFacts` | code/src/summarizer/total_summarizer.py:205-218 | the twelve Spanish abbreviations are different, and their translations spell the English months in order |
| `Dates.TranslateSpanish` | code/src/summarizer/total_summarizer.py:220-223 | a Spanish abbreviation alone becomes its English name |
| `Dates.MonthKeySpanish` | code/src/summarizer/total_summarizer.py:188-234 | a stamp written with the k-th Spanish abbreviation, with any whitespace around it and between its words, has the key of its pivoted year and month k+1 |
| `Dates.NoSpanishMonth` | code/src/summarizer/total_summarizer.py:220-223 | a value holding none of the letters the Spanish abbreviations need is not translated |
| `Dates.TranslateEne` | code/src/summarizer/total_summarizer.py:220-223 | one `ene` with no other `e` around it becomes `Jan`, and nothing else changes |
| `Dates.UnknownMonthFails` | code/src/summarizer/total_summarizer.py:230 | a text whose month field is not one of the twelve names does not parse |
| `Dates.NoSlashFails` | code/src/summarizer/total_summarizer.py:230 | a text without a `/` does not parse |
| `DateExamples.JanuaryKey` | code/src/summarizer/total_summarizer.py:231 | January 2024 renders as `"2024-01"` |
| `DateExamples.SpanishExample` | code/src/summarizer/total_summarizer.py:188-234 | `"15/ene/24  10:30 AM"`, Spanish month and doubled space, has month key `"2024-01"` |
| `DateExamples.UnknownMonthExample` | code/src/summarizer/total_summarizer.py:188-234 | `"01/xyz/24 01:00 PM"` fails with the error quoting that string |
| `DateExamples.UnknownDateExample` | code/src/summarizer/total_summarizer.py:188-234 | `"Unknown"`, the default of a record with no `changed` field, fails with the error quoting it |
| `PyStr.StripSpec` | code/app.py:119 | `strip(chars)` removes exactly the leading and trailing run of those characters and keeps the middle unchanged |
| `PyStr.StripNoop` | code/src/summarizer/total_summarizer.py:202 | stripping a string that has no such character at either end leaves it unchanged |
| `PyStr.WordsJoin` | code/src/summarizer/total_summarizer.py:226 | splitting a space-joined list of words gives the words back |
| `PyStr.CollapseIdempotent` | code/src/summarizer/total_summarizer.py:226 | `" ".join(s.split())` applied twice is the same as once |
| `PyStr.SplitParts` | code/src/config/configuration_manager.py:350 | no part of `split(",")` contains a comma |
| `PyStr.SplitJoin` | code/src/config/configuration_manager.py:350 | joining the parts of `split(c)` with `c` gives the string back |
| `PyStr.Lower` | code/src/config/configuration_manager.py:385 | `lower()` maps each character to its lower-case form and keeps the length |
| `PyStr.ReplaceAbsent` | code/src/summarizer/total_summarizer.py:221-222 | replacing a substring that does not occur leaves the string unchanged |
| `PyStr.ContainsAt` | code/src/summarizer/total_summarizer.py:221 | `pat in s` holds when `pat` occurs at some position of `s` |
| `PyStr.NotContainsChar` | code/src/summarizer/total_summarizer.py:221 | `pat in s` is false when `pat` holds a character `s` lacks |
| `PyStr.ReplaceAtFront` | code/src/summarizer/total_summarizer.py:222 | `replace` rewrites an occurrence at the front and resumes after it |
| `PyStr.ReplaceKeep` | code/src/summarizer/total_summarizer.py:222 | `replace` keeps a prefix free of the pattern's first character |
| `PyStr.WordsSkipSpaces` | code/src/summarizer/total_summarizer.py:226 | `split()` ignores leading whitespace |
| `PyStr.CollapseThree` | code/src/summarizer/total_summarizer.py:226 | `" ".join(s.split())` turns three words with any whitespace between them into those words with single spaces |
| `PyStr.StripAround` | code/src/summarizer/total_summarizer.py:202 | `strip()` removes whitespace around a string that starts and ends with other characters, and returns that string |
| `PyStr.ContainsKeep` | code/src/summarizer/total_summarizer.py:221 | a prefix free of the pattern's first character does not change whether `pat in s` holds |
| `PyStr.ContainsBreak` | code/src/summarizer/total_summarizer.py:221 | an occurrence cannot straddle a character the pattern lacks, so `pat in a + x` is `pat in a` or `pat in x` |
| `PyStr.ContainsSameLength` | code/src/summarizer/total_summarizer.py:221 | a pattern as long as the string occurs in it exactly when the two are equal |
| `PyStr.ReplaceBreak` | code/src/summarizer/total_summarizer.py:222 | across a character the pattern lacks, `replace` works on the two sides separately |
| `PyStr.ParseUnsigned` | code/src/config/configuration_manager.py:333 | `int()` of a string of decimal digits is its value |
| `PyStr.ParseNatToString` | code/src/config/configuration_manager.py:331-333 | `int(str(n))` is `n` |
| `Config.InputSpec` | code/src/config/configuration_manager.py:313-317 | `_input` returns a non-empty environment value, else a non-empty answer, else the default |
| `Config.InputBooleanSpec` | code/src/config/configuration_manager.py:331-335 | `_input_boolean` is false exactly when the value (the environment's, else `str(default)`) parses to 0, true for any other integer written in ASCII digits, and a `ValueError` naming the value otherwise, an empty environment value included |
| `Config.NonEmptySpec` | code/src/config/configuration_manager.py:350 | `if part.strip()` keeps exactly the non-blank parts |
| `Config.NonEmptyConcat` | code/src/config/configuration_manager.py:350 | the comprehension's filter distributes over concatenation, so the kept parts stay in order with their repeats |
| `Config.NonEmptySingle` | code/src/config/configuration_manager.py:350 | one part is kept exactly when it is not blank |
| `Config.InputListSpec` | code/src/config/configuration_manager.py:349-352 | `_input_list` fails on an unset input (`None.split`), and otherwise is the comma parts of the value, each trimmed, in order, blank ones dropped (`NonEmpty` of the trimmed parts); each kept item is non-blank, comma-free and without surrounding whitespace |
| `Config.InputWithOptionsSpec` | code/src/config/configuration_manager.py:382-393 | `_input_with_options` succeeds exactly with a choice among the options, and otherwise raises the `ValueError` naming the choice |
| `Config.OptionsCaseQuirk` | code/src/config/configuration_manager.py:382-388 | an environment value `" CSV "` is rejected, while the same prompted answer is accepted as `"csv"` |
| `Config.ExportFormatDefaultFails` | code/src/config/configuration_manager.py:81-83 | with no environment value and an empty answer the export format always fails on `'default'` |
| `Config.CollectFlagsSpec` | code/src/config/configuration_manager.py:95-120 | reading the six flags in order succeeds exactly when every flag parses, and then sets each flag to its parsed value |
| `Config.CollectChoicesValid` | code/src/config/configuration_manager.py:81-120 | after the choice steps succeed, the export format and provider are valid options and every flag holds its parsed value |
| `Config.CollectedValid` | code/src/config/configuration_manager.py:52-120 | a successful `collect_inputs` leaves a valid export format, a valid provider and parsed flags |
| `Config.CollectDefaultFormatFails` | code/src/config/configuration_manager.py:65-83 | with no format given, `collect_inputs` fails after setting the six text fields and before any later one |
| `Config.Validated` | code/src/config/configuration_manager.py:132-134 | a validated getter returns the value exactly when it is set and non-empty; `None` or `""` raise its `ValueError`, an attribute never assigned raises `AttributeError` |
| `Config.Plain` | code/src/config/configuration_manager.py:136-143 | a plain getter returns the field's value, `None` for a field set to `None`, and `AttributeError` naming the field exactly for an attribute never assigned |
| `Config.ConfigurationManager.constructor` | code/src/config/configuration_manager.py:26-28 | a newly allocated instance has no fields yet and is not initialised |
| `Config.ConfigurationManager.Init` | code/src/config/configuration_manager.py:36-50 | `__init__` resets the fields to `None` only the first time, keeping the never-assigned header attributes |
| `Config.ConfigurationManager.CollectInputs` | code/src/config/configuration_manager.py:52-120 | `collect_inputs` assigns the fields in source order and stops at the first error |
| `Config.ConfigurationManager.CollectFlagInputs` | code/src/config/configuration_manager.py:95-120 | the six flag reads of `collect_inputs`, in order |
| `Config.ConfigurationManager.CollectTechnologicalComponentFlags` | code/src/config/configuration_manager.py:95-104 | the two technological-component flag reads |
| `Config.ConfigurationManager.CollectFunctionalAreaFlags` | code/src/config/configuration_manager.py:105-112 | the two functional-area flag reads |
| `Config.ConfigurationManager.CollectProblemTypeFlags` | code/src/config/configuration_manager.py:113-120 | the two problem-type flag reads |
| `Config.ConfigurationManagerClass.constructor` | code/src/config/configuration_manager.py:19 | before the first construction, `_instance` is `None` |
| `Config.ConfigurationManagerClass.New` | code/src/config/configuration_manager.py:21-50 | `ConfigurationManager()` creates the instance only the first time and then returns the same one, with its fields untouched |
| `Config.ConstructTwice` | code/src/config/configuration_manager.py:25-29 | constructing twice yields one object, whose fields the second construction leaves as they were |
| `Oracle.CleanSpec` | code/app.py:119 | cleaning removes exactly a leading and trailing run of `` ` ``, `j`, `s`, `o`, `n` and then the surrounding whitespace; the result has no whitespace at either end |
| `Oracle.CleanAllFence` | code/app.py:119 | an answer made only of those characters cleans to `""` |
| `Oracle.CleanFenced` | code/app.py:119 | a fenced ```` ```json … ``` ```` body cleans to the trimmed body |
| `Oracle.CleanNull` | code/app.py:119 | character-set stripping turns `"null"` into `"ull"` |
| `Oracle.CleanIndentedFence` | code/app.py:119 | the leading fence of an indented answer stays, because the whitespace comes off last |
| `Oracle.MergeSpec` | code/app.py:122-125 | the merged record has the row's subject, description and changed, overriding the model's, and the model's other keys unchanged |
| `Oracle.MergeGet` | code/app.py:122-125 | the value of each key of the merged record |
| `Oracle.ProcessRowMissing` | code/app.py:113-118 | a row missing a configured column fails with `KeyError` for the first missing one, before any prompt |
| `Oracle.ProcessRowAnswer` | code/app.py:113-130 | a complete row sends one prompt; invalid JSON fails with the cleaned text, a non-object with `TypeError`, an object gives the merged record |
| `Oracle.ProcessedSuccess` | code/app.py:109-132 | the loop succeeds exactly when every row does, with one record per row, in row order, and one prompt per row |
| `Oracle.ProcessedStops` | code/app.py:121-130 | at the first failing row the loop fails with its error; no later row is looked at |
| `Oracle.LoopStops` | code/app.py:109-130 | a failure after a successful prefix ends the run with the prefix's prompts and the failing row's |
| `Oracle.SuccessAsked` | code/app.py:116-118 | a row that succeeds has asked the model exactly once |
| `Oracle.LlmProcessingSpec` | code/app.py:82-132 | an unconfigured provider or column header fails before any prompt; a successful run gives, for each row, its merged model object |
| `Oracle.PreprocessedSpec` | code/app.py:181-196 | the preprocessed summary has exactly the input's months and, per month, its categories, each mapped to its total and highlights |
| `Oracle.BugOracle.constructor` | code/app.py:27 | the oracle keeps the configuration manager it is given |
| `Oracle.BugOracle.LlmProcessing` | code/app.py:82-132 | `_llm_processing` reads the getters in order and runs the row loop, as `LlmProcessingOf` |
| `Oracle.BugOracle.ProcessBug` | code/app.py:113-130 | one row of the loop: the columns, the prompt, the cleaned answer, the parse and the merge |
| `Oracle.BugOracle.PreprocessSummarizedData` | code/app.py:167-198 | `_preprocess_summarized_data` is the specification summary |
| `Oracle.BugOracle.Preprocess` | code/app.py:184-196 | the inner loop gives each category its total and highlights |
| `Highlights.InsertDescending` | code/app.py:187-190 | inserting an entry keeps a counter in descending order |
| `Highlights.InsertContents` | code/app.py:187-190 | inserting adds the entry to the entries and its count to the sum |
| `Highlights.InsertWithCount` | code/app.py:187-190 | an inserted entry goes after every earlier entry with the same count |
| `Highlights.SortDescSpec` | code/app.py:187-190 | `sorted(..., key=count, reverse=True)` is a descending, stable permutation: same entries and sum, and every count's entries in their original order |
| `Highlights.SortDescDistinct` | code/app.py:187-190 | sorting keeps the keys, without repeats |
| `Highlights.TopSpec` | code/app.py:187-190 | the highlights are min(5, n) entries of the input in descending order, none outranked by an entry left out, ties in insertion order, summing to at most the total |
| `Highlights.TopParts` | code/app.py:187-190 | the sorted entries are the highlights followed by the rest |
| `Highlights.TopDistinct` | code/app.py:189 | the highlights form a dictionary |
| `Highlights.TopSmall` | code/app.py:187-190 | with five entries or fewer, the highlights are all of them |
| `JsonFormat.HierarchySpec` | code/src/exporter/format/json.py:83-92 | exactly the input's categories, in order, each with its counter unchanged as `children` and their sum as `total` |
| `JsonFormat.HierarchyByDateSpec` | code/src/exporter/format/json.py:109-121 | exactly the input's months, an empty month as `{}`, each month shaped as the totals hierarchy |
| `JsonFormat.TotalsNodes` | code/src/exporter/format/json.py:85 | every category node of the summarised totals has the number of records as its total |
| `JsonFormat.Json.constructor` | code/src/exporter/format/format_interface.py:21-30 | the output directory given, and the configured export subdirectory |
| `JsonFormat.Json.Export` | code/src/exporter/format/json.py:12-57 | the four paths, in order, and the processed data, the two hierarchies and the insights written to them |
| `JsonFormat.Json.BuildHierarchy` | code/src/exporter/format/json.py:70-94 | `_build_hierarchy` is the specification hierarchy |
| `JsonFormat.Json.BuildHierarchyByDate` | code/src/exporter/format/json.py:96-123 | `_build_hierarchy_by_date` is the specification hierarchy by date |
| `ExportPaths.PathsSpec` | code/src/exporter/format/json.py:27-34 | every path is the export folder followed by its own file name, so distinct names give distinct paths |
| `CsvFormat.ItemRowsSpec` | code/src/exporter/format/csv.py:134-136 | a three-level entry gives one `[month, category, value, count]` row per leaf, in order |
| `CsvFormat.LeafRowsSpec` | code/src/exporter/format/csv.py:137-138 | a two-level category gives one `[category, value, count]` row per leaf, in order |
| `CsvFormat.CategoryRowsConcat` | code/src/exporter/format/csv.py:130-138 | the rows of a category are the rows of its entries, in order |
| `CsvFormat.DataRowsConcat` | code/src/exporter/format/csv.py:126-138 | the rows of a table are the rows of its categories, in order |
| `CsvFormat.CategoryRowCount` | code/src/exporter/format/csv.py:130-138 | a category gives one row per leaf |
| `CsvFormat.DictRowsSpec` | code/src/exporter/format/csv.py:124-138 | the first row is the header passed in, and there is one more row per leaf count |
| `CsvFormat.TotalsRows` | code/src/exporter/format/csv.py:56-58 | in the totals file, the rows of category i sit between those of the categories before and after it, one `[category, value, count]` per value |
| `CsvFormat.ByDateRows` | code/src/exporter/format/csv.py:61-65 | in the by-date file, the rows of month i, category j sit in table order, one `[month, category, value, count]` per value |
| `CsvFormat.ProcessedSpec` | code/src/exporter/format/csv.py:53-100 | an empty record list fails with `IndexError`; otherwise the header is the first record's keys, and writing succeeds exactly when no record has a key outside it, and then the rows are the header and one row per record: the first record's row is its values in order, and every record's row gives its own value under each column it has and `""` under each it lacks |
| `CsvFormat.Csv.constructor` | code/src/exporter/format/csv.py:16-22 | output under `./output`, the configured subdirectory, delimiter and quote character |
| `CsvFormat.Csv.Export` | code/src/exporter/format/csv.py:24-75 | the four paths, in order, and the rows written to each (headers `Category, Subcategory, Count` and `Date, Category, Subcategory, Count`), or the processed-data error |
| `CsvFormat.Csv.DictToCsv` | code/src/exporter/format/csv.py:102-138 | `_dict_to_csv` writes the header and then the rows of `DictRows` |
| `CsvFormat.Csv.CategoryToCsv` | code/src/exporter/format/csv.py:130-138 | the loop over one category's entries writes that category's rows |
| `CsvFormat.Csv.EntryToCsv` | code/src/exporter/format/csv.py:134-138 | a counter entry writes one four-column row per item; a plain count writes one three-column row |

## Left out

- I/O is not modelled: reading the bug CSV (`CsvReader`), `os.makedirs`, and
  writing files (`open`, `json.dump`, `writerow`, `_save_as_text`). The
  exporters return what they would write.
- The language model and `ModelProvider`/`_get_llm` are parameters of
  `LlmProcessing`. The model is one function per provider name. The API calls,
  networking and logging are not modelled.
- The prompt builders are a parameter (`Oracles.build`).
  `processing_prompt_builder.py` is not valid Python as it stands: it still
  has merge-conflict markers.
- `json.loads` is a parameter giving invalid JSON, a non-object, or an object
  whose values are strings. Non-string JSON values are not modelled.
- `BugOracle.run` and `__init__` are not modelled: the stage sequencing, the
  `time.time()` timing, the logger, and the top-level exception handlers.
  `_get_insights` is not modelled either, beyond its call of
  `_preprocess_summarized_data`.
- `scripts/cache.py` (a Redis client) and `summarizer_interface.py` (an
  abstract method) are not part of this model.
- prompt_toolkit's `prompt` and `WordCompleter` are not modelled. Answers are an
  arbitrary function from the rendered prompt to a string, and `os.getenv` is a
  map.
- CSV quoting, delimiters and the `csv.DictWriter` text are not modelled. Rows
  are sequences of cells. The `ValueError` for extra keys carries a fixed
  message, without the list of offending fields.
- `Config.InputBooleanSpec`: defaults are non-negative integers, which is all
  `collect_inputs` passes (0 and 1). Negative defaults are not modelled.
  Digits are ASCII: an environment value such as "١" or "１" is a
  `ValueError` in the model, where Python's `int()` reads it as 1 and
  `_input_boolean` returns `True`.
- `PyStr.ParseInt`: accepts only ASCII decimal digits, where Python's `int()`
  accepts any Unicode decimal digit. It also has no bound on the number of
  digits, where CPython refuses strings of more than 4300 digits.
- `PyStr.Lower`: ASCII letters only; Python lower-cases all of Unicode. Month
  names and option answers are compared after this ASCII lower-casing.
- `Dates.ParseStamp`: the `%b` names are the English abbreviations of the C
  locale; other locales are not modelled.
- `Dates.ParseDay` and its siblings: digits are ASCII. `strptime` also accepts
  other Unicode decimal digits.
- The categories are an enumeration whose `Name` is the dictionary key. Any
  other dictionary key is not a category, in the header getters or anywhere
  else.
- `ConfigurationManager` keeps its attributes in one `settings` record instead
  of seventeen fields. Each updates as the Python attributes do.
- Several loops are split into helper methods:
  - the three flag pairs of `collect_inputs` and of the counting loops;
  - `ProcessBug` and `Preprocess`;
  - `CategoryToCsv` and `EntryToCsv`.
- `Distinct` is required where the source relies on its inputs being Python
  dictionaries (keys unique). These are `BuildHierarchy`, `MergeSpec`,
  `PreprocessSummarizedData` and others.
- `JsonFormat.Json.constructor` requires the export-subdirectory getter to
  succeed, for the same reason as `CsvFormat.Csv.constructor` below.
- `Errors.DateParseError` keeps only the normalised date string. Python's
  message also carries `str(e)`, the reason `strptime` gave, which the
  model does not render.
- `CsvFormat.Csv.constructor` requires the getters it calls to succeed. They
  can fail only on a configuration manager whose `__init__` never ran, which
  Python's constructor rules out.
