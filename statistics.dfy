/** The per-bucket statistics record of the diagnosis-key report
    (`cocoa_diagnosis_keys/statistics.py`): the `StatisticsData` object, its
    comparator, and the header and data rows of the report. */
module Statistics {
  import opened Wrappers
  import opened Text
  import opened Calendar

  /** Length of one Exposure Notification interval, in seconds. */
  const EnIntervalWindow := 60 * 10

  /** The fixed +09:00 offset (Asia/Tokyo) the dates are shown in. */
  const JstOffsetSeconds := 9 * 3600

  /** The exceptions that abort a run: a dictionary lookup of a missing key,
      and a date outside the years `datetime` can represent. */
  datatype Failure = KeyError(key: int) | YearOutOfRange(year: int)

  /** The value held by a `StatisticsData` object. `comment` is None while
      the attribute has never been assigned (it has no class-level default). */
  datatype Bucket = Bucket(
    created: int,
    rollingStartIntervalNumber: int,
    keyCount: int,
    validKeyCount: int,
    invalidKeyDataCount: int,
    invalidTransmissionRiskLevelKeyCount: int,
    invalidReportTypeKeyCount: int,
    invalidDaysSinceOnsetOfSymptomsKeyCount: int,
    hasNotReportTypeCount: int,
    hasNotDaysSinceOnsetOfSymptomsCount: int,
    transmissionRiskLevelDistribution: map<int, int>,
    reportTypeDistribution: map<int, int>,
    daysSinceOnsetOfSymptomsDistribution: map<int, int>,
    comment: Option<string>)

  /** A histogram over `lo..hi-1` with every count at zero. */
  function ZeroHistogram(lo: int, hi: int): (m: map<int, int>)
    ensures forall k :: k in m <==> lo <= k < hi
    ensures forall k :: k in m ==> m[k] == 0
    decreases hi - lo
  {
    if hi <= lo then map[] else ZeroHistogram(lo, hi - 1)[hi - 1 := 0]
  }

  /** The key domains `__init__` fills: levels 0..7, report types 0..6 and
      days -14..14. */
  ghost predicate HasInitialDomains(b: Bucket) {
    && (forall k :: k in b.transmissionRiskLevelDistribution <==> 0 <= k < 8)
    && (forall k :: k in b.reportTypeDistribution <==> 0 <= k < 7)
    && (forall k :: k in b.daysSinceOnsetOfSymptomsDistribution <==> -14 <= k < 15)
  }

  /** What `StatisticsData()` holds: `created` and the interval number at the
      class default -1, every counter 0, every histogram entry 0. */
  function NewBucket(): (b: Bucket)
    ensures HasInitialDomains(b)
  {
    Bucket(-1, -1, 0, 0, 0, 0, 0, 0, 0, 0,
           ZeroHistogram(0, 8), ZeroHistogram(0, 7), ZeroHistogram(-14, 15), None)
  }

  /** One `for` loop of `__init__`: a zero count stored for each key of
      `range(lo, hi)` in turn. */
  method ZeroCounts(lo: int, hi: int) returns (m: map<int, int>)
    requires lo <= hi
    ensures m == ZeroHistogram(lo, hi)
  {
    m := map[];
    var k := lo;
    while k < hi
      invariant lo <= k <= hi
      invariant m == ZeroHistogram(lo, k)
    {
      m := m[k := 0];
      k := k + 1;
    }
  }

  class StatisticsData {
    var created: int
    var rollingStartIntervalNumber: int
    var keyCount: int
    var validKeyCount: int
    var invalidKeyDataCount: int
    var invalidTransmissionRiskLevelKeyCount: int
    var invalidReportTypeKeyCount: int
    var invalidDaysSinceOnsetOfSymptomsKeyCount: int
    var hasNotReportTypeCount: int
    var hasNotDaysSinceOnsetOfSymptomsCount: int
    var transmissionRiskLevelDistribution: map<int, int>
    var reportTypeDistribution: map<int, int>
    var daysSinceOnsetOfSymptomsDistribution: map<int, int>
    var comment: Option<string>

    function Value(): Bucket
      reads this
    {
      Bucket(created, rollingStartIntervalNumber, keyCount, validKeyCount, invalidKeyDataCount,
             invalidTransmissionRiskLevelKeyCount, invalidReportTypeKeyCount,
             invalidDaysSinceOnsetOfSymptomsKeyCount, hasNotReportTypeCount,
             hasNotDaysSinceOnsetOfSymptomsCount, transmissionRiskLevelDistribution,
             reportTypeDistribution, daysSinceOnsetOfSymptomsDistribution, comment)
    }

    /** `StatisticsData()`: the counters are reset and the three histograms
        filled with zeros key by key. `created`, the interval number and the
        two has-not counters keep their class defaults. */
    constructor ()
      ensures Value() == NewBucket()
    {
      var levels := ZeroCounts(0, 7 + 1);
      var types := ZeroCounts(0, 6 + 1);
      var days := ZeroCounts(-14, 14 + 1);
      created := -1;
      rollingStartIntervalNumber := -1;
      hasNotReportTypeCount := 0;
      hasNotDaysSinceOnsetOfSymptomsCount := 0;
      comment := None;
      keyCount := 0;
      validKeyCount := 0;
      invalidKeyDataCount := 0;
      invalidTransmissionRiskLevelKeyCount := 0;
      invalidReportTypeKeyCount := 0;
      invalidDaysSinceOnsetOfSymptomsKeyCount := 0;
      transmissionRiskLevelDistribution := levels;
      reportTypeDistribution := types;
      daysSinceOnsetOfSymptomsDistribution := days;
    }
  }

  /** `StatisticsData.compare`: newer `created` first, then larger interval
      number first; 0 exactly when both keys agree. */
  function Compare(l: Bucket, r: Bucket): (c: int)
    ensures c == 0 <==> l.created == r.created && l.rollingStartIntervalNumber == r.rollingStartIntervalNumber
    ensures c == -1 <==> l.created > r.created
                         || (l.created == r.created && l.rollingStartIntervalNumber > r.rollingStartIntervalNumber)
    ensures c == 1 <==> l.created < r.created
                        || (l.created == r.created && l.rollingStartIntervalNumber < r.rollingStartIntervalNumber)
  {
    if l.created < r.created then 1
    else if l.created > r.created then -1
    else if l.rollingStartIntervalNumber < r.rollingStartIntervalNumber then 1
    else if l.rollingStartIntervalNumber > r.rollingStartIntervalNumber then -1
    else 0
  }

  lemma CompareAntisymmetric(l: Bucket, r: Bucket)
    ensures Compare(l, r) == -Compare(r, l)
  {
  }

  /** "sorts no later than" is transitive, so `compare` is a total preorder. */
  lemma CompareTransitive(a: Bucket, b: Bucket, c: Bucket)
    requires Compare(a, b) <= 0 && Compare(b, c) <= 0
    ensures Compare(a, c) <= 0
  {
  }

  lemma CompareTotal(a: Bucket, b: Bucket)
    ensures Compare(a, b) <= 0 || Compare(b, a) <= 0
  {
  }

  /** `_rolling_start_interval_number_to_date`: the wall clock at +09:00 of the
      instant `rsin * 600` seconds after the epoch. `datetime` only holds the
      years 1 to 9999; the range is checked on the +09:00 date, not on the
      host's local one. */
  function RollingStartIntervalNumberToDate(rsin: int): (r: Result<DateTime, Failure>)
    ensures r.Ok? ==> ValidDateTime(r.value) && 1 <= r.value.date.year <= 9999
    ensures r.Ok? ==> SecondsOf(r.value) == rsin * EnIntervalWindow + JstOffsetSeconds
    ensures r.Err? <==> !(1 <= DateTimeOf(rsin * EnIntervalWindow + JstOffsetSeconds).date.year <= 9999)
  {
    var t := DateTimeOf(rsin * EnIntervalWindow + JstOffsetSeconds);
    if 1 <= t.date.year <= 9999 then Ok(t) else Err(YearOutOfRange(t.date.year))
  }

  /** `strftime("%Y-%m-%dT%H:%M:%S.%f%z")` of a whole-second time at +09:00.
      `%Y` is written here without padding. */
  function Strftime(t: DateTime): (s: string)
    requires ValidDateTime(t) && t.date.year >= 1
    ensures |s| == |NatToDecimal(t.date.year)| + 27
  {
    NatToDecimal(t.date.year) + ClockText(t)
  }

  /** The 27 characters that follow the year. */
  function ClockText(t: DateTime): (s: string)
    requires ValidDateTime(t)
    ensures |s| == 27
  {
    var mo, d, h := TwoDigits(t.date.month), TwoDigits(t.date.day), TwoDigits(t.hour);
    var mi, se := TwoDigits(t.minute), TwoDigits(t.second);
    ['-', mo[0], mo[1], '-', d[0], d[1], 'T', h[0], h[1], ':', mi[0], mi[1], ':', se[0], se[1]]
    + ".000000+0900"
  }

  /** A year in digits followed by a clock text whose two-digit fields are
      digits. */
  ghost predicate IsTimestampText(s: string) {
    && |s| >= 28
    && (forall k :: 0 <= k < |s| - 27 ==> IsDigit(s[k]))
    && var c := s[|s| - 27..];
    && IsDigit(c[1]) && IsDigit(c[2]) && IsDigit(c[4]) && IsDigit(c[5]) && IsDigit(c[7]) && IsDigit(c[8])
    && IsDigit(c[10]) && IsDigit(c[11]) && IsDigit(c[13]) && IsDigit(c[14])
  }

  /** Reads the wall-clock fields back from a timestamp text. */
  function ReadTimestamp(s: string): DateTime
    requires IsTimestampText(s)
  {
    var c := s[|s| - 27..];
    DateTime(Date(DecimalValue(s[..|s| - 27]), TwoDigitValue(c[1], c[2]), TwoDigitValue(c[4], c[5])),
             TwoDigitValue(c[7], c[8]), TwoDigitValue(c[10], c[11]), TwoDigitValue(c[13], c[14]))
  }

  /** The date column loses nothing: the wall-clock reading can be read back
      from its text. */
  lemma ReadStrftime(t: DateTime)
    requires ValidDateTime(t) && t.date.year >= 1
    ensures IsTimestampText(Strftime(t)) && ReadTimestamp(Strftime(t)) == t
  {
    var s := Strftime(t);
    var y := NatToDecimal(t.date.year);
    var c := ClockText(t);
    assert s[..|s| - 27] == y && s[|s| - 27..] == c;
    TwoDigitsRoundTrip(t.date.month);
    TwoDigitsRoundTrip(t.date.day);
    TwoDigitsRoundTrip(t.hour);
    TwoDigitsRoundTrip(t.minute);
    TwoDigitsRoundTrip(t.second);
    forall k | 0 <= k < |s| - 27 ensures IsDigit(s[k]) {
      assert s[k] == y[k];
    }
    DecimalRoundTrip(t.date.year);
  }

  /** One value written by `csv.writer`: a number or a text. */
  datatype Cell = IntCell(n: int) | TextCell(s: string)

  /** The counts of keys `lo..hi-1` in ascending order, or the KeyError of
      the first key the histogram lacks. */
  function Column(m: map<int, int>, lo: int, hi: int): (r: Result<seq<Cell>, Failure>)
    requires lo <= hi
    ensures r.Ok? <==> forall k :: lo <= k < hi ==> k in m
    ensures r.Ok? ==> |r.value| == hi - lo && forall i :: 0 <= i < hi - lo ==> r.value[i] == IntCell(m[lo + i])
    ensures r.Err? ==> exists k :: lo <= k < hi && k !in m && r.error == KeyError(k)
                                   && forall j :: lo <= j < k ==> j in m
    decreases hi - lo
  {
    if lo == hi then Ok([])
    else if lo !in m then Err(KeyError(lo))
    else
      match Column(m, lo + 1, hi)
      case Ok(rest) => Ok([IntCell(m[lo])] + rest)
      case Err(e) => Err(e)
  }

  /** The eleven identifier and counter columns that open every row. */
  function LeadingCells(b: Bucket, date: string): seq<Cell>
  {
    [IntCell(b.created), IntCell(b.rollingStartIntervalNumber), TextCell(date),
     IntCell(b.keyCount), IntCell(b.validKeyCount), IntCell(b.invalidKeyDataCount),
     IntCell(b.invalidTransmissionRiskLevelKeyCount), IntCell(b.invalidReportTypeKeyCount),
     IntCell(b.invalidDaysSinceOnsetOfSymptomsKeyCount), IntCell(b.hasNotReportTypeCount),
     IntCell(b.hasNotDaysSinceOnsetOfSymptomsCount)]
  }

  /** `write_to_csv`: the row of one bucket. Levels 0..6 and report types
      0..5 are written (level 7 and type 6 are not), then days -14..+14;
      the comment is not written. The date is evaluated before the
      histogram lookups, so a date failure wins over a KeyError. */
  function CsvRow(b: Bucket): (r: Result<seq<Cell>, Failure>)
    ensures r.Ok? <==> RollingStartIntervalNumberToDate(b.rollingStartIntervalNumber).Ok?
                       && (forall k :: 0 <= k < 7 ==> k in b.transmissionRiskLevelDistribution)
                       && (forall k :: 0 <= k < 6 ==> k in b.reportTypeDistribution)
                       && (forall k :: -14 <= k < 15 ==> k in b.daysSinceOnsetOfSymptomsDistribution)
    ensures r.Ok? ==> |r.value| == 53
  {
    match RollingStartIntervalNumberToDate(b.rollingStartIntervalNumber)
    case Err(e) => Err(e)
    case Ok(t) =>
      var lead := LeadingCells(b, Strftime(t));
      match Column(b.transmissionRiskLevelDistribution, 0, 7)
      case Err(e) => Err(e)
      case Ok(levels) =>
        match Column(b.reportTypeDistribution, 0, 6)
        case Err(e) => Err(e)
        case Ok(types) =>
          match Column(b.daysSinceOnsetOfSymptomsDistribution, -14, 15)
          case Err(e) => Err(e)
          case Ok(days) =>
            Ok(lead + levels + types + days)
  }

  /** A row that is written is the leading cells followed by the three
      columns. */
  lemma CsvRowParts(b: Bucket)
    requires CsvRow(b).Ok?
    ensures var t := RollingStartIntervalNumberToDate(b.rollingStartIntervalNumber);
      && t.Ok?
      && Column(b.transmissionRiskLevelDistribution, 0, 7).Ok?
      && Column(b.reportTypeDistribution, 0, 6).Ok?
      && Column(b.daysSinceOnsetOfSymptomsDistribution, -14, 15).Ok?
      && CsvRow(b).value == LeadingCells(b, Strftime(t.value))
                            + Column(b.transmissionRiskLevelDistribution, 0, 7).value
                            + Column(b.reportTypeDistribution, 0, 6).value
                            + Column(b.daysSinceOnsetOfSymptomsDistribution, -14, 15).value
  {
  }

  /** A row opens with the identifiers, the date text and the counters. */
  lemma CsvRowLead(b: Bucket)
    requires CsvRow(b).Ok?
    ensures CsvRow(b).value[..11] == LeadingCells(b, Strftime(RollingStartIntervalNumberToDate(b.rollingStartIntervalNumber).value))
  {
    CsvRowParts(b);
    var t := RollingStartIntervalNumberToDate(b.rollingStartIntervalNumber).value;
    ConcatParts(LeadingCells(b, Strftime(t)), Column(b.transmissionRiskLevelDistribution, 0, 7).value,
                Column(b.reportTypeDistribution, 0, 6).value, Column(b.daysSinceOnsetOfSymptomsDistribution, -14, 15).value);
  }

  /** Cells 11 to 17 of a row are the counts of levels 0..6. */
  lemma CsvRowLevelCells(b: Bucket)
    requires CsvRow(b).Ok?
    ensures forall k :: 0 <= k < 7 ==> CsvRow(b).value[11 + k] == IntCell(b.transmissionRiskLevelDistribution[k])
  {
    CsvRowParts(b);
    var t := RollingStartIntervalNumberToDate(b.rollingStartIntervalNumber).value;
    ConcatParts(LeadingCells(b, Strftime(t)), Column(b.transmissionRiskLevelDistribution, 0, 7).value,
                Column(b.reportTypeDistribution, 0, 6).value, Column(b.daysSinceOnsetOfSymptomsDistribution, -14, 15).value);
  }

  /** Cells 18 to 23 of a row are the counts of report types 0..5. */
  lemma CsvRowTypeCells(b: Bucket)
    requires CsvRow(b).Ok?
    ensures forall k :: 0 <= k < 6 ==> CsvRow(b).value[18 + k] == IntCell(b.reportTypeDistribution[k])
  {
    CsvRowParts(b);
    var t := RollingStartIntervalNumberToDate(b.rollingStartIntervalNumber).value;
    ConcatParts(LeadingCells(b, Strftime(t)), Column(b.transmissionRiskLevelDistribution, 0, 7).value,
                Column(b.reportTypeDistribution, 0, 6).value, Column(b.daysSinceOnsetOfSymptomsDistribution, -14, 15).value);
  }

  /** The last 29 cells of a row are the counts of days -14..+14. */
  lemma CsvRowOnsetCells(b: Bucket)
    requires CsvRow(b).Ok?
    ensures forall d :: -14 <= d <= 14 ==> CsvRow(b).value[38 + d] == IntCell(b.daysSinceOnsetOfSymptomsDistribution[d])
  {
    CsvRowParts(b);
    var t := RollingStartIntervalNumberToDate(b.rollingStartIntervalNumber).value;
    ConcatParts(LeadingCells(b, Strftime(t)), Column(b.transmissionRiskLevelDistribution, 0, 7).value,
                Column(b.reportTypeDistribution, 0, 6).value, Column(b.daysSinceOnsetOfSymptomsDistribution, -14, 15).value);
  }

  /** Where the elements of four joined sequences land. */
  lemma ConcatParts<T>(a: seq<T>, b: seq<T>, c: seq<T>, d: seq<T>)
    ensures var s := a + b + c + d;
      && s[..|a|] == a
      && (forall k :: 0 <= k < |b| ==> s[|a| + k] == b[k])
      && (forall k :: 0 <= k < |c| ==> s[|a| + |b| + k] == c[k])
      && (forall k :: 0 <= k < |d| ==> s[|a| + |b| + |c| + k] == d[k])
  {
  }

  /** Neither the count of level 7, nor that of report type 6, nor the
      comment reaches the report. */
  lemma CsvRowIgnoresUnwrittenFields(b: Bucket, level7: int, type6: int, comment: Option<string>)
    ensures CsvRow(b) == CsvRow(b.(transmissionRiskLevelDistribution := b.transmissionRiskLevelDistribution[7 := level7],
                                   reportTypeDistribution := b.reportTypeDistribution[6 := type6],
                                   comment := comment))
  {
    var b' := b.(transmissionRiskLevelDistribution := b.transmissionRiskLevelDistribution[7 := level7],
                 reportTypeDistribution := b.reportTypeDistribution[6 := type6],
                 comment := comment);
    ColumnAgrees(b.transmissionRiskLevelDistribution, b'.transmissionRiskLevelDistribution, 0, 7);
    ColumnAgrees(b.reportTypeDistribution, b'.reportTypeDistribution, 0, 6);
  }

  /** A column only depends on the keys it lists. */
  lemma {:induction false} ColumnAgrees(m: map<int, int>, m': map<int, int>, lo: int, hi: int)
    requires lo <= hi
    requires forall k :: lo <= k < hi ==> (k in m <==> k in m') && (k in m ==> m[k] == m'[k])
    ensures Column(m, lo, hi) == Column(m', lo, hi)
    decreases hi - lo
  {
    if lo < hi {
      ColumnAgrees(m, m', lo + 1, hi);
    }
  }

  /** `write_header_to_csv`: the names of the 53 columns a row holds. */
  function CsvHeader(): (h: seq<string>)
    ensures |h| == 53
  {
    CounterHeader() + LevelHeader() + ReportTypeHeader() + OnsetHeader()
  }

  /** Header columns 11 to 17 carry the seven level names, in order. */
  lemma CsvHeaderLevelColumns()
    ensures forall k :: 0 <= k < 7 ==> CsvHeader()[11 + k] == LevelHeader()[k]
  {
    var h := CsvHeader();
    assert h == CounterHeader() + LevelHeader() + (ReportTypeHeader() + OnsetHeader());
  }

  function CounterHeader(): (h: seq<string>)
    ensures |h| == 11
  {
    [
      "created",
      "rolling_start_interval_number",
      "rolling_start_interval_number_date",
      "key_count",
      "valid_key_count",
      "invalid_key_data_count",
      "invalid_transmission_risk_level_key_count",
      "invalid_report_type_key_count",
      "invalid_days_since_onset_of_symptoms_key_count",
      "has_not_report_type_count",
      "has_not_days_since_onset_of_symptoms_count"
    ]
  }

  function LevelHeader(): (h: seq<string>)
    ensures |h| == 7
  {
    [
      "transmission_risk_level_unused_count",
      "transmission_risk_level_low_count",
      "transmission_risk_level_standard_count",
      "transmission_risk_level_high_count",
      "transmission_risk_level_confirmed_clinical_diagnosis_count",
      "transmission_risk_level_negative_case_count",
      "transmission_risk_level_recursive_case_count"
    ]
  }

  function ReportTypeHeader(): (h: seq<string>)
    ensures |h| == 6
  {
    [
      "report_type_unknown_count",
      "report_type_confirmed_test_count",
      "report_type_confirmed_clinical_diagnosis_count",
      "report_type_self_reported_count",
      "report_type_recursive_count",
      "report_type_revoked_count"
    ]
  }

  function OnsetHeader(): (h: seq<string>)
    ensures |h| == 29
  {
    [
      "days_since_onset_of_symptoms_-14_count",
      "days_since_onset_of_symptoms_-13_count",
      "days_since_onset_of_symptoms_-12_count",
      "days_since_onset_of_symptoms_-11_count",
      "days_since_onset_of_symptoms_-10_count",
      "days_since_onset_of_symptoms_-9_count",
      "days_since_onset_of_symptoms_-8_count",
      "days_since_onset_of_symptoms_-7_count",
      "days_since_onset_of_symptoms_-6_count",
      "days_since_onset_of_symptoms_-5_count",
      "days_since_onset_of_symptoms_-4_count",
      "days_since_onset_of_symptoms_-3_count",
      "days_since_onset_of_symptoms_-2_count",
      "days_since_onset_of_symptoms_-1_count",
      "days_since_onset_of_symptoms_0_count",
      "days_since_onset_of_symptoms_+1_count",
      "days_since_onset_of_symptoms_+2_count",
      "days_since_onset_of_symptoms_+3_count",
      "days_since_onset_of_symptoms_+4_count",
      "days_since_onset_of_symptoms_+5_count",
      "days_since_onset_of_symptoms_+6_count",
      "days_since_onset_of_symptoms_+7_count",
      "days_since_onset_of_symptoms_+8_count",
      "days_since_onset_of_symptoms_+9_count",
      "days_since_onset_of_symptoms_+10_count",
      "days_since_onset_of_symptoms_+11_count",
      "days_since_onset_of_symptoms_+12_count",
      "days_since_onset_of_symptoms_+13_count",
      "days_since_onset_of_symptoms_+14_count"
    ]
  }
}
