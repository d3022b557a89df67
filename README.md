# COCOA statistics and Tokyo clinic-list converters, modelled in Dafny

This project models the core of the `opendata-converters` of the
cocoa-statistics repository. It covers two converters and a header check.

**The diagnosis-key statistics converter** (`cocoa_diagnosis_keys/`):
- Each Exposure Notification key export is stripped of its 16-byte
  `"EK Export v1    "` header.
- Every temporary exposure key goes through four field checks.
- Entries are cut into runs of equal upload time (`created`). The keys of each
  run are cut into runs of equal rolling start interval number.
- Each inner run becomes one `StatisticsData` bucket: key counters,
  check-failure counters, and three histograms (transmission risk level,
  report type, days since onset of symptoms).
- Each bucket is written as one 53-column CSV row, behind a 53-name header row.

**The Tokyo clinic-list converter** (`clinic_data/tokyo/clinic_data.py`):
- It checks the two header rows of the spreadsheet against fixed templates
  that hold wildcards.
- It turns each later row into a `ClinicInfo`. Its parts:
  - character normalisation;
  - the URL / telephone / note picked out of one multi-line cell;
  - the `〇` / `★` / `×` marks decoded;
  - fourteen office-hour cells.
- It writes each `ClinicInfo` as a 32-column CSV row.

**The downloader's required-column check** (`clinic_data/tokyo/download_data.py`).

## Structure

- **`Wrappers`**: `Option`, `Result`, and `MapSteps`, a map that stops at
  the first error (a Python loop that raises). `MapLoop` is the loop form
  of `MapSteps`.
- **`Text`**: the string and number helpers the code relies on:
  - `str.split` / `"sep".join`;
  - `startswith`, `count`;
  - decimal rendering, and `%02d`.
- **`Base64`**: section 4 of RFC 4648, used in the key-data message.
- **`Calendar`**: the conversion between days and civil dates behind
  `datetime.fromtimestamp`.
- **`Grouping`**: `itertools.groupby`, as a partition into maximal runs.
  The partition is proved to be the only one.
- **`Statistics`** (`statistics.py`):
  - the `StatisticsData` class;
  - its value `Bucket`;
  - `compare`;
  - the date column;
  - the data row and the header row.
- **`CocoaDiagnosisKeys`** (`cocoa_diagnosis_keys.py`):
  - the key records;
  - the header strip;
  - the four checks;
  - `_statistics_keys`, as a method that updates a `StatisticsData` object
    in place and is proved against the pure fold `StatisticsKeysOf`;
  - `_statistics`, as methods proved against `StatisticsOf`;
  - writing the rows.
- **`CocoaProperties`**: what the converter guarantees:
  - key and histogram conservation;
  - when a KeyError ends the run;
  - that every primary key is counted exactly once;
  - the shape of the grouping;
  - the row checked against the repository's unit test.
- **`ClinicData`** (`clinic_data.py`): `_convert`, the parsers,
  `ClinicInfo.__init__`, `write_to_csv` against `_write_to_csv_header`,
  `_is_validate` and `_parse`.
- **`DownloadData`** (`download_data.py`): `_validate_header` and
  `_validate`.

**Python exceptions.** Raised exceptions that end a run become `Result`
errors:
- `KeyError` of a histogram lookup;
- a year outside 1..9999 in `datetime`;
- `IndexError` / `TypeError` of a short or malformed clinic row.

In those cases the object under construction is discarded, so its partial
state is not modelled. The one exception is the statistics CSV file:
`main` opens it and writes the header before any row, so a bucket whose
date cannot be rendered leaves the header and the earlier rows behind.

### Where the code departs from its intended behaviour (the model follows the code)

The intended behaviour is read from the code's own names, comments and
dictionaries, and from the converter's unit test.

- **Range checks.** The transmission-risk, report-type and onset checks join
  their bounds with `or`, so they accept every integer. Only the key-data
  check can fail.
- **Failure counter.** A report-type or onset failure would bump the
  transmission-risk counter, not its own counter.
- **Domains.** The report-type histogram has keys 0..6, not 0..5. The
  transmission-risk histogram has keys 0..7, but only levels 0..6 are
  written: 7 transmission-risk columns, not 8.
- **Column count.** A row has 53 columns. The `comment` is never written,
  although the unit test expects a trailing comment column (54 columns).
- **Sort order.** `main` computes `sorted(...)` and discards the result, so
  rows keep the order of `_statistics`.
- **Short export.** An export shorter than the 16-byte header gives an
  empty payload, because seeking past the end leaves nothing to read. No
  "malformed bundle" error is raised.
- **Level columns.** The header labels the last two level columns
  `transmission_risk_level_negative_case_count` and
  `transmission_risk_level_recursive_case_count`, but they hold the counts
  of levels 5 and 6, which the level dictionary names "Self report" and
  "Negative case". The recursive case is level 7, which is never written,
  and no column is labelled self report.
- **Truncated file.** A failing run leaves a CSV file holding the header
  and the rows of the buckets before the first one that fails, not an
  empty or missing file.
- **Failed clinic header check.** When both header checks fail, `_parse`
  prints a message and returns `False` rather than raising. `main` passes
  that `False` on to `_save_as_csv`, which writes the CSV header and then
  raises TypeError when it iterates over the `bool`. `ClinicData.ParseOf`
  returns `Ok(None)` there, which covers the `_parse` half only.
- **Year field.** The model writes the year without zero padding. The date
  is only defined for years 1..9999.

## Model

| member | source | states |
|---|---|---|
| CocoaDiagnosisKeys.StripHeader | opendata-converters/cocoa_diagnosis_keys/cocoa_diagnosis_keys.py:77-85 | the payload is the blob minus its first 16 bytes, and empty when the blob is no longer than the header |
| CocoaProperties.StripHeaderDropsHeader | opendata-converters/cocoa_diagnosis_keys/cocoa_diagnosis_keys.py:25-26 | whatever 16 bytes precede the payload, stripping returns exactly the payload |
| CocoaDiagnosisKeys.RollingPeriodToTimedelta | opendata-converters/cocoa_diagnosis_keys/cocoa_diagnosis_keys.py:88-90 | the timedelta is a whole number of 600-second intervals, exactly the rolling period |
| CocoaDiagnosisKeys.IsValidTransmissionRiskLevelKey | opendata-converters/cocoa_diagnosis_keys/cocoa_diagnosis_keys.py:93-98 | returns (True, "") for every key, because `>= 0 or <= 7` holds for every integer |
| CocoaDiagnosisKeys.IsValidReportTypeKey | opendata-converters/cocoa_diagnosis_keys/cocoa_diagnosis_keys.py:101-106 | returns (True, "") for every key |
| CocoaDiagnosisKeys.IsValidDaysSinceOnsetOfSymptomsKey | opendata-converters/cocoa_diagnosis_keys/cocoa_diagnosis_keys.py:109-114 | returns (True, "") for every key |
| CocoaDiagnosisKeys.IsValidTemporaryExposureKeyKey | opendata-converters/cocoa_diagnosis_keys/cocoa_diagnosis_keys.py:117-125 | passes iff the key data is 16 bytes; an empty message on success, a `key_data b'…` message otherwise |
| CocoaProperties.KeyDataMessageInjective | opendata-converters/cocoa_diagnosis_keys/cocoa_diagnosis_keys.py:125 | the failure message determines the key bytes (base64 text plus length) |
| CocoaProperties.EncodeHasNoQuote | opendata-converters/cocoa_diagnosis_keys/cocoa_diagnosis_keys.py:125 | the base64 text never contains the quote that closes it in the message |
| CocoaProperties.BeforeQuoteOf | opendata-converters/cocoa_diagnosis_keys/cocoa_diagnosis_keys.py:125 | the text before the first quote is recovered from a quote-free prefix |
| Base64.Encode | opendata-converters/cocoa_diagnosis_keys/cocoa_diagnosis_keys.py:125 | the encoding is 4 characters per started 3-byte group |
| Base64.EncodeAlphabet | opendata-converters/cocoa_diagnosis_keys/cocoa_diagnosis_keys.py:125 | every encoded character is in the base64 alphabet or is `=` |
| Base64.DecodeEncode | opendata-converters/cocoa_diagnosis_keys/cocoa_diagnosis_keys.py:125 | decoding the encoding gives back the bytes |
| CocoaProperties.MessagesOfKey | opendata-converters/cocoa_diagnosis_keys/cocoa_diagnosis_keys.py:138-164 | a key has no message or only the key-data message, and the joined comment is CommentOf(key) |
| CocoaProperties.CountChecksEffect | opendata-converters/cocoa_diagnosis_keys/cocoa_diagnosis_keys.py:133-167 | one key adds one to key_count, adds one to valid or to invalid_key_data, replaces the comment, and changes nothing else (the other failure counters stay untouched) |
| CocoaDiagnosisKeys.Bump | opendata-converters/cocoa_diagnosis_keys/cocoa_diagnosis_keys.py:169-177 | `d[k] += 1` succeeds iff k is a key, adds one to that entry only, and otherwise raises KeyError(k) |
| CocoaProperties.CountHistogramsKeyError | opendata-converters/cocoa_diagnosis_keys/cocoa_diagnosis_keys.py:169-179 | the histogram update raises iff a present value is outside the domains, naming the first such value |
| CocoaProperties.CountHistogramsConserves | opendata-converters/cocoa_diagnosis_keys/cocoa_diagnosis_keys.py:169-179 | an accepted key adds exactly one to each histogram-or-has-not total and changes no other field |
| CocoaProperties.CountLevelConserves | opendata-converters/cocoa_diagnosis_keys/cocoa_diagnosis_keys.py:169 | a level in 0..7 adds one to the level histogram's sum only |
| CocoaProperties.CountReportTypeConserves | opendata-converters/cocoa_diagnosis_keys/cocoa_diagnosis_keys.py:171-174 | a present type in 0..6 or an absent type adds one to report-type sum plus has_not count |
| CocoaProperties.CountOnsetConserves | opendata-converters/cocoa_diagnosis_keys/cocoa_diagnosis_keys.py:176-179 | a present day in -14..14 or an absent day adds one to onset sum plus has_not count |
| CocoaProperties.ZeroBucketConserved | opendata-converters/cocoa_diagnosis_keys/statistics.py:17-48 | a bucket with the initial domains and all counts zero satisfies the bookkeeping invariant |
| CocoaProperties.InitialBucketConserved | opendata-converters/cocoa_diagnosis_keys/cocoa_diagnosis_keys.py:129-131 | the bucket `_statistics_keys` starts from has no keys and keeps the invariant |
| CocoaProperties.TallyConserves | opendata-converters/cocoa_diagnosis_keys/cocoa_diagnosis_keys.py:133-179 | one loop iteration keeps the invariant, adds one key, counts it valid iff 16 bytes, keeps created and interval number, or raises the first KeyError |
| CocoaProperties.FoldKeysConserves | opendata-converters/cocoa_diagnosis_keys/cocoa_diagnosis_keys.py:133-181 | the loop succeeds iff every key is in the domains; then key_count grows by the number of keys, valid by the valid ones, the invariant holds and the comment is the last key's |
| CocoaProperties.FoldKeysError | opendata-converters/cocoa_diagnosis_keys/cocoa_diagnosis_keys.py:133-181 | a failing loop fails with the KeyError of the first key outside the domains |
| CocoaProperties.StatisticsKeysCounts | opendata-converters/cocoa_diagnosis_keys/cocoa_diagnosis_keys.py:128-181 | `_statistics_keys` succeeds iff all keys are in the domains; then key_count = number of keys, valid + invalid_key_data = key_count, every histogram accounts for every key, the other failure counters are zero |
| CocoaDiagnosisKeys.FoldStopsAtError | opendata-converters/cocoa_diagnosis_keys/cocoa_diagnosis_keys.py:133-179 | once a KeyError is raised the later keys change nothing |
| CocoaDiagnosisKeys.RecordChecks | opendata-converters/cocoa_diagnosis_keys/cocoa_diagnosis_keys.py:134-167 | the object's new state is the old state with one key's checks counted |
| CocoaDiagnosisKeys.RecordHistograms | opendata-converters/cocoa_diagnosis_keys/cocoa_diagnosis_keys.py:169-179 | the object's histograms are updated in place, or the KeyError the spec function gives is returned |
| CocoaDiagnosisKeys.StatisticsKeys | opendata-converters/cocoa_diagnosis_keys/cocoa_diagnosis_keys.py:128-181 | the loop builds a fresh object whose value is the pure fold over the keys, or returns its KeyError |
| Grouping.GroupRuns | opendata-converters/cocoa_diagnosis_keys/cocoa_diagnosis_keys.py:187 | runs are non-empty and the first run starts with the first element |
| Grouping.GroupRunsPartition | opendata-converters/cocoa_diagnosis_keys/cocoa_diagnosis_keys.py:187-191 | groupby's runs concatenate to the input, each run has one key, adjacent runs have different keys |
| Grouping.GroupRunsUnique | opendata-converters/cocoa_diagnosis_keys/cocoa_diagnosis_keys.py:187-191 | any partition into maximal runs is the one groupby yields |
| Grouping.FlattenAppend | opendata-converters/cocoa_diagnosis_keys/cocoa_diagnosis_keys.py:189 | chaining distributes over concatenation |
| CocoaDiagnosisKeys.TasksOfRuns | opendata-converters/cocoa_diagnosis_keys/cocoa_diagnosis_keys.py:191-193 | one `_statistics_keys` call per inner run, carrying the run's created, interval number and keys |
| CocoaDiagnosisKeys.CollectMeaning | opendata-converters/cocoa_diagnosis_keys/cocoa_diagnosis_keys.py:185-195 | appending results succeeds iff every call succeeds, keeps them in order, and fails with the error of one call |
| CocoaDiagnosisKeys.CollectAppend | opendata-converters/cocoa_diagnosis_keys/cocoa_diagnosis_keys.py:185-195 | collecting two lists of results is collecting the first, then the second |
| CocoaDiagnosisKeys.RunTasks | opendata-converters/cocoa_diagnosis_keys/cocoa_diagnosis_keys.py:191-193 | one result per call |
| CocoaDiagnosisKeys.RunTasksFlatten | opendata-converters/cocoa_diagnosis_keys/cocoa_diagnosis_keys.py:187-193 | running the calls of all groups is running each group's calls in turn |
| CocoaDiagnosisKeys.StatisticsOfRuns | opendata-converters/cocoa_diagnosis_keys/cocoa_diagnosis_keys.py:191-193 | the inner loop appends the objects whose values are the spec's buckets, or returns the first error |
| CocoaDiagnosisKeys.StatisticsOfGroup | opendata-converters/cocoa_diagnosis_keys/cocoa_diagnosis_keys.py:187-193 | one outer iteration: chain the entries' keys, group by interval number, run each run |
| CocoaDiagnosisKeys.ComputeStatistics | opendata-converters/cocoa_diagnosis_keys/cocoa_diagnosis_keys.py:184-195 | `_statistics` returns objects whose values are StatisticsOf(entries), in order, or its first KeyError |
| CocoaProperties.GroupTasksShape | opendata-converters/cocoa_diagnosis_keys/cocoa_diagnosis_keys.py:187-193 | within a created-run, every bucket has that created, non-empty keys of one interval number, and neighbours differ in interval number |
| CocoaProperties.AllKeysAppend | opendata-converters/cocoa_diagnosis_keys/cocoa_diagnosis_keys.py:191-193 | the keys of two lists of calls are the keys of each, concatenated |
| CocoaProperties.ChainKeysAppend | opendata-converters/cocoa_diagnosis_keys/cocoa_diagnosis_keys.py:189 | chaining the primary keys distributes over concatenation of entries |
| CocoaProperties.AllKeysOfRuns | opendata-converters/cocoa_diagnosis_keys/cocoa_diagnosis_keys.py:191-193 | the calls of the inner loop together see exactly the chained keys |
| CocoaProperties.GroupTasksKeys | opendata-converters/cocoa_diagnosis_keys/cocoa_diagnosis_keys.py:187-193 | the calls of one created-run see exactly that run's primary keys, in order |
| CocoaProperties.AllKeysOfGroups | opendata-converters/cocoa_diagnosis_keys/cocoa_diagnosis_keys.py:187-193 | the calls of all created-runs see the chained keys of all entries |
| CocoaProperties.PlanKeys | opendata-converters/cocoa_diagnosis_keys/cocoa_diagnosis_keys.py:184-195 | the calls `_statistics` makes see every primary key once, in entry order; revised keys never |
| CocoaProperties.RunAllCons | opendata-converters/cocoa_diagnosis_keys/cocoa_diagnosis_keys.py:191-193 | running calls succeeds iff the first and the rest succeed, and the first bucket comes first |
| CocoaProperties.RunAllCounts | opendata-converters/cocoa_diagnosis_keys/cocoa_diagnosis_keys.py:191-193 | running calls succeeds iff all their keys are in the domains; the key_counts add up to the number of keys and every bucket keeps the invariant |
| CocoaProperties.StatisticsCountsEveryKey | opendata-converters/cocoa_diagnosis_keys/cocoa_diagnosis_keys.py:184-195 | `_statistics` succeeds iff every primary key is in the domains; then the key_counts sum to the number of primary keys and every bucket keeps the invariant |
| CocoaProperties.WriteRowsMeaning | opendata-converters/cocoa_diagnosis_keys/cocoa_diagnosis_keys.py:296-300 | writing succeeds iff every row can be written; one row per bucket, in order |
| CocoaProperties.WriteRowsTruncated | opendata-converters/cocoa_diagnosis_keys/cocoa_diagnosis_keys.py:296-300 | a failing write stops at the first bucket whose row fails: the rows of all earlier buckets are already written, in order |
| CocoaProperties.LevelLabels | opendata-converters/cocoa_diagnosis_keys/statistics.py:115-116 | the header's level names 5 and 6 say negative and recursive case, while the level dictionary names levels 5, 6, 7 self report, negative case, recursive case |
| CocoaProperties.LevelColumnsMislabelled | opendata-converters/cocoa_diagnosis_keys/statistics.py:167-173 | the columns labelled negative and recursive case hold the counts of levels 5 and 6 (self report, negative case) |
| CocoaProperties.ConvertReport | opendata-converters/cocoa_diagnosis_keys/cocoa_diagnosis_keys.py:293-300 | from `_statistics` on (verbose output off, or after `_print` has succeeded), the run completes iff all keys are in the domains and all dates render; its rows are the buckets' rows in `_statistics` order (the sort is discarded) and count every primary key once |
| Statistics.ZeroHistogram | opendata-converters/cocoa_diagnosis_keys/statistics.py:38-48 | a histogram with exactly the keys lo..hi-1, all zero |
| Statistics.ZeroCounts | opendata-converters/cocoa_diagnosis_keys/statistics.py:39-40 | the `range` loop stores a zero for each key in turn and yields the zero histogram |
| Statistics.NewBucket | opendata-converters/cocoa_diagnosis_keys/statistics.py:16-48 | a fresh object's histograms have the domains 0..7, 0..6 and -14..14 |
| Statistics.StatisticsData.constructor | opendata-converters/cocoa_diagnosis_keys/statistics.py:31-48 | `StatisticsData()` holds created = interval = -1, all counters 0, the three zero histograms, no comment |
| Statistics.Compare | opendata-converters/cocoa_diagnosis_keys/statistics.py:83-94 | 0 iff created and interval number agree; -1/1 by created descending, then interval number descending |
| Statistics.CompareAntisymmetric | opendata-converters/cocoa_diagnosis_keys/statistics.py:83-94 | compare(l, r) = -compare(r, l) |
| Statistics.CompareTransitive | opendata-converters/cocoa_diagnosis_keys/statistics.py:83-94 | compare(a, b) <= 0 and compare(b, c) <= 0 give compare(a, c) <= 0 |
| Statistics.CompareTotal | opendata-converters/cocoa_diagnosis_keys/statistics.py:83-94 | any two buckets are comparable |
| Calendar.DateOfDayNumber | opendata-converters/cocoa_diagnosis_keys/statistics.py:11-13 | the day number of a valid date converts back to that date |
| Calendar.DateTimeOfSeconds | opendata-converters/cocoa_diagnosis_keys/statistics.py:11-13 | the seconds of a valid wall-clock time convert back to it |
| Calendar.SecondsOfInjective | opendata-converters/cocoa_diagnosis_keys/statistics.py:11-13 | distinct valid times have distinct epoch seconds |
| Statistics.RollingStartIntervalNumberToDate | opendata-converters/cocoa_diagnosis_keys/statistics.py:11-13 | the date is the valid wall clock whose seconds are rsin*600 + 9h, or an error iff its +09:00 year is outside 1..9999 (the host-zone failures near both ends of that range are not modelled) |
| Statistics.Strftime | opendata-converters/cocoa_diagnosis_keys/statistics.py:158 | the date text is the decimal year followed by 27 characters |
| Statistics.ReadStrftime | opendata-converters/cocoa_diagnosis_keys/statistics.py:158 | every wall-clock field is read back from the date text |
| Text.DecimalRoundTrip | opendata-converters/cocoa_diagnosis_keys/statistics.py:158 | the decimal text of a natural reads back as that number |
| Text.TwoDigitsRoundTrip | opendata-converters/cocoa_diagnosis_keys/statistics.py:158 | `%02d` of 0..99 is two digits reading back as the value |
| Statistics.Column | opendata-converters/cocoa_diagnosis_keys/statistics.py:167-208 | the cells of keys lo..hi-1 in ascending order, or the KeyError of a missing key |
| Statistics.CsvRow | opendata-converters/cocoa_diagnosis_keys/statistics.py:154-209 | a row is written iff the date renders and the histograms hold levels 0..6, report types 0..5 and days -14..14; it then has 53 cells |
| Statistics.CsvRowLead | opendata-converters/cocoa_diagnosis_keys/statistics.py:156-166 | the first 11 cells are created, interval number, date text and the eight counters, in header order |
| Statistics.CsvRowLevelCells | opendata-converters/cocoa_diagnosis_keys/statistics.py:167-173 | cells 11..17 are the counts of levels 0..6 |
| Statistics.CsvRowTypeCells | opendata-converters/cocoa_diagnosis_keys/statistics.py:174-179 | cells 18..23 are the counts of report types 0..5 |
| Statistics.CsvRowOnsetCells | opendata-converters/cocoa_diagnosis_keys/statistics.py:180-208 | cells 24..52 are the counts of days -14..+14, ascending |
| Statistics.CsvRowIgnoresUnwrittenFields | opendata-converters/cocoa_diagnosis_keys/statistics.py:155-209 | the level-7 count, the report-type-6 count and the comment never affect the row |
| Statistics.CsvHeader | opendata-converters/cocoa_diagnosis_keys/statistics.py:97-152 | the header has 53 names, as many as a row has cells |
| Statistics.CounterHeader | opendata-converters/cocoa_diagnosis_keys/statistics.py:99-109 | 11 identifier and counter names |
| Statistics.LevelHeader | opendata-converters/cocoa_diagnosis_keys/statistics.py:110-116 | 7 transmission-risk names |
| Statistics.CsvHeaderLevelColumns | opendata-converters/cocoa_diagnosis_keys/statistics.py:110-116 | header columns 11 to 17 are the seven level names, in order |
| Statistics.ReportTypeHeader | opendata-converters/cocoa_diagnosis_keys/statistics.py:117-122 | 6 report-type names |
| Statistics.OnsetHeader | opendata-converters/cocoa_diagnosis_keys/statistics.py:123-151 | 29 onset names |
| CocoaProperties.TestBucketDate | opendata-converters/test_cocoa_diagnosis_keys/StatisticsDataTest.py:12 | interval number 2 is 1970-01-01 09:20:00 at +09:00 |
| CocoaProperties.TestBucketDateText | opendata-converters/test_cocoa_diagnosis_keys/StatisticsDataTest.py:39 | that time renders as `1970-01-01T09:20:00.000000+0900` |
| CocoaProperties.TestBucketRow | opendata-converters/test_cocoa_diagnosis_keys/StatisticsDataTest.py:9-39 | the test's object yields the test's 53 expected cells; the expected trailing comment is not among them |
| ClinicData.CharMap | opendata-converters/clinic_data/tokyo/clinic_data.py:42-58 | each replacement is at most one character |
| ClinicData.Convert | opendata-converters/clinic_data/tokyo/clinic_data.py:61-71 | None stays None; otherwise the loop's joined pieces are the character-by-character conversion |
| ClinicData.ConvertedAppend | opendata-converters/clinic_data/tokyo/clinic_data.py:65-71 | conversion distributes over concatenation |
| ClinicData.ConvertedLength | opendata-converters/clinic_data/tokyo/clinic_data.py:42-71 | the result is the input's length minus its line breaks |
| ClinicData.ConvertedHasNoKey | opendata-converters/clinic_data/tokyo/clinic_data.py:42-71 | no character of the result is a key of the character map |
| ClinicData.ConvertedFixed | opendata-converters/clinic_data/tokyo/clinic_data.py:42-71 | a string is unchanged iff none of its characters is a key of the map |
| ClinicData.ConvertedKeepsPlain | opendata-converters/clinic_data/tokyo/clinic_data.py:66-70 | a string without map keys is unchanged |
| ClinicData.ConvertIdempotent | opendata-converters/clinic_data/tokyo/clinic_data.py:42-71 | converting twice is converting once |
| Text.SplitShape | opendata-converters/clinic_data/tokyo/clinic_data.py:87 | split yields one more token than separators, none holding a separator |
| Text.JoinSplit | opendata-converters/clinic_data/tokyo/clinic_data.py:87 | joining the tokens gives back the text |
| Text.SplitJoin | opendata-converters/clinic_data/tokyo/clinic_data.py:87 | splitting separator-free parts joined gives back the parts |
| ClinicData.CellText | opendata-converters/clinic_data/tokyo/clinic_data.py:85 | `str` of a time is `HH:MM:SS`, of a missing cell `nan` |
| ClinicData.FirstWhere | opendata-converters/clinic_data/tokyo/clinic_data.py:88-92 | None iff no token qualifies; otherwise a qualifying token of the list |
| ClinicData.FirstLine | opendata-converters/clinic_data/tokyo/clinic_data.py:87-92 | the search loop returns the first qualifying line of the cell's text |
| ClinicData.ParseWebUrl | opendata-converters/clinic_data/tokyo/clinic_data.py:84-92 | the first line starting with `http`, else None |
| ClinicData.ParseTelephoneNumber | opendata-converters/clinic_data/tokyo/clinic_data.py:95-103 | the first line starting with `0` or full-width `０`, else None |
| ClinicData.ParseNote | opendata-converters/clinic_data/tokyo/clinic_data.py:106-117 | the first line starting with none of `0`, `０`, `http`, else ""; the note never starts with them |
| ClinicData.ParseTarget | opendata-converters/clinic_data/tokyo/clinic_data.py:120-126 | target iff `〇` or `★`, limited iff `★`, so limited implies target |
| ClinicData.ParseBoolOrNone | opendata-converters/clinic_data/tokyo/clinic_data.py:128-134 | True iff `〇`, False iff `×`, None otherwise |
| ClinicData.Without | opendata-converters/clinic_data/tokyo/clinic_data.py:139 | `replace(c, "")` removes every c and only those |
| ClinicData.ParseTime | opendata-converters/clinic_data/tokyo/clinic_data.py:137-145 | None iff the cell is missing; a text has its line breaks removed |
| ClinicData.ConvertedWithoutBreaks | opendata-converters/clinic_data/tokyo/clinic_data.py:139 | removing line breaks before converting changes nothing |
| ClinicData.ParseSupportLanguage | opendata-converters/clinic_data/tokyo/clinic_data.py:148-154 | a text cell is kept as is, anything else is None |
| ClinicData.FromRow | opendata-converters/clinic_data/tokyo/clinic_data.py:156-195 | a ClinicInfo iff the row has 30 cells and the two address cells are texts; a TypeError iff cell 6 exists and is not text, or cell 6 is text and cell 7 exists and is not; an IndexError otherwise; 14 office hours |
| ClinicData.ConvertedTelephone | opendata-converters/clinic_data/tokyo/clinic_data.py:163 | a converted telephone token starts with an ASCII `0` and holds no map key |
| ClinicData.ClinicInfoShape | opendata-converters/clinic_data/tokyo/clinic_data.py:156-195 | limited implies target; telephone normalised and starting with `0`; URL starts with `http`; note has none of the telephone/URL prefixes; office hours normalised, without line breaks |
| ClinicData.CsvRow | opendata-converters/clinic_data/tokyo/clinic_data.py:197-218 | the row has 18 cells plus one per office hour |
| ClinicData.CsvRowLead | opendata-converters/clinic_data/tokyo/clinic_data.py:199-205 | the first 15 cells are the first 15 values, None written as "" |
| ClinicData.CsvRowHours | opendata-converters/clinic_data/tokyo/clinic_data.py:206-212 | the office-hour cells follow, a missing hour written as "" |
| ClinicData.CsvRowTail | opendata-converters/clinic_data/tokyo/clinic_data.py:213-217 | support language, holiday and note close the row |
| ClinicData.FlagRoundTrip | opendata-converters/clinic_data/tokyo/clinic_data.py:74-78 | `_to_string` of a flag is `true`/`false`/"" and reads back as the flag |
| ClinicData.CsvHeader | opendata-converters/clinic_data/tokyo/clinic_data.py:354-373 | the header has 32 names |
| ClinicData.CsvRowMatchesHeader | opendata-converters/clinic_data/tokyo/clinic_data.py:197-218 | with 14 office hours a row has 32 cells, as many as the header, each column holding its field |
| ClinicData.Header1 | opendata-converters/clinic_data/tokyo/clinic_data.py:26-33 | the first header template has 31 entries |
| ClinicData.Header2 | opendata-converters/clinic_data/tokyo/clinic_data.py:35-40 | the second header template has 31 entries |
| ClinicData.HeaderCheck | opendata-converters/clinic_data/tokyo/clinic_data.py:323-331 | True iff every cell matches its non-wildcard template entry and the row is no longer than the template; False iff a mismatch comes first; IndexError otherwise |
| ClinicData.IsValidate | opendata-converters/clinic_data/tokyo/clinic_data.py:323-331 | the early-return loop computes HeaderCheck |
| ClinicData.Parse | opendata-converters/clinic_data/tokyo/clinic_data.py:334-351 | the method computes ParseOf, converting rows from the fourth on |
| ClinicData.ParseMeaning | opendata-converters/clinic_data/tokyo/clinic_data.py:334-351 | validation fails iff both header checks return False; otherwise one ClinicInfo per row from the fourth, in order |
| DownloadData.ValidateHeader | opendata-converters/clinic_data/tokyo/download_data.py:45-49 | True iff every required column occurs in the header row; False names a missing column |
| DownloadData.Validate | opendata-converters/clinic_data/tokyo/download_data.py:37-42 | only the first row is checked; a file without rows fails |
| DownloadData.NothingRequired | opendata-converters/clinic_data/tokyo/download_data.py:46-49 | an empty requirement always passes |
| DownloadData.MissingColumnFails | opendata-converters/clinic_data/tokyo/download_data.py:47-48 | a missing required column always fails |
| DownloadData.ExtraColumnsKeepPass | opendata-converters/clinic_data/tokyo/download_data.py:45-49 | extra columns before or after never turn a pass into a failure |
| DownloadData.RequiredSubset | opendata-converters/clinic_data/tokyo/download_data.py:45-49 | the check is set inclusion of the required names in the header's names |
| DownloadData.OnlyNamesMatter | opendata-converters/clinic_data/tokyo/download_data.py:45-49 | order and repetition in either list do not matter |
| DownloadData.RequiredSplit | opendata-converters/clinic_data/tokyo/download_data.py:45-49 | requiring two lists is requiring each |

## Left out

- **Network and file plumbing.** Left out:
  - the `_download_*` functions;
  - temporary files;
  - ZIP checking and extraction;
  - `os.remove` / `makedirs`;
  - absl flags;
  - every `main` beyond the computation modelled in `CocoaDiagnosisKeys.Convert`.

  They are I/O.
- **Protocol-buffer decoding.** `ParseFromString` of `TemporaryExposureKeyExport`
  is not modelled. The decoded export is a given datatype, and the generated
  protobuf module is not part of this model.
- **Console output.** `_print` and `_print_key` are not modelled. With
  `--verbose` on, which is the default, `main` prints every entry before
  `_statistics` runs. Printing a key looks up its transmission-risk level,
  and its report type when present, in the name dictionaries. It raises
  KeyError for a level outside 0..7 or a present report type outside 0..5,
  for primary and revised keys alike, and the run ends before the CSV file
  is opened. The clinic converter's `print("Validation failed")` in
  `_parse` and the downloader's `print(row)` in `_validate` only print and
  are left out too.
- **CSV quoting.** Python `csv.writer` quoting, escaping and line endings are
  not modelled. Rows are sequences of cells.
- **Clinic I/O.** Left out:
  - `pandas.read_excel`: the sheet is given as rows of cells;
  - `to_dict`, `_save_as_json`, `_save_as_csv`, `_load_endpoint_url`.

  These are I/O or a rearrangement of the same fields.
- **Spreadsheet cells.** Only three kinds of cell are modelled: text, a
  time of day, and a missing value (`nan`). `str()` of other pandas values
  (numbers, dates) is not. Comparing a non-text cell with a header entry
  counts as a mismatch.
- ClinicData.FromRow: `name` and `open_holiday` are `str()` of their cells,
  modelled only for the three kinds of cell above.
- Statistics.RollingStartIntervalNumberToDate: the model fails only when
  the date at +09:00 falls outside the years 1..9999. Python's
  `fromtimestamp` first builds the host's local wall clock, and
  `astimezone` looks up local time up to a day away from it. Python can
  therefore also raise within about a day and a half of either end of
  that range, at instants the model accepts; how far depends on the host's
  zone. Inside the range, the +09:00 wall clock does not depend on the
  zone.
- **Sub-seconds.** Only whole seconds arise, so the microseconds field is
  always `000000`.
- Statistics.Strftime: for years 1..999, which only negative interval
  numbers reach, the year is written without padding. A platform whose
  `%Y` pads to four digits writes a different date column there.
- **Calendar before year 1.** Calendar arithmetic is proleptic Gregorian
  for years >= 1; earlier instants are the year-range error.
- Statistics.CsvHeader: the model states the header's length and its split
  into 11 + 7 + 6 + 29 names, not the meaning of each name.
- ClinicData.CsvHeader: the model states that it has 32 names and lines up
  with the row; the correspondence between each day/half-day name and the
  office-hour cell is not stated separately.
- **`opendata-converters/main.py`** is not part of this model (a download and
  a one-line row filter).
- **Partial state.** After a raised exception the object under construction
  is discarded, so the model returns an error and not the partial state.
  For the statistics CSV file the rows already written are stated by
  CocoaProperties.WriteRowsTruncated; the file itself is not modelled.
