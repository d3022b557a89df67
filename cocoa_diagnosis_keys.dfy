/** The diagnosis-key converter (`cocoa_diagnosis_keys/cocoa_diagnosis_keys.py`):
    the export file's header is stripped, every key is checked and counted
    into the bucket of its upload time and rolling start interval number,
    and the buckets become the rows of the report. */
module CocoaDiagnosisKeys {
  import opened Wrappers
  import opened Text
  import Base64
  import opened Grouping
  import opened Statistics

  /** One `TemporaryExposureKey`. An absent `report_type` or
      `days_since_onset_of_symptoms` is None; reading it gives 0. */
  datatype Key = Key(
    keyData: seq<bv8>,
    transmissionRiskLevel: int,
    rollingStartIntervalNumber: int,
    rollingPeriod: int,
    reportType: Option<int>,
    daysSinceOnsetOfSymptoms: Option<int>)

  /** `key.report_type`: the protocol-buffer default 0 when absent. */
  function ReportTypeOf(key: Key): int {
    key.reportType.GetOr(0)
  }

  /** `key.days_since_onset_of_symptoms`: 0 when absent. */
  function DaysSinceOnsetOf(key: Key): int {
    key.daysSinceOnsetOfSymptoms.GetOr(0)
  }

  function RollingStartIntervalNumberOf(key: Key): int {
    key.rollingStartIntervalNumber
  }

  /** A parsed `export.bin`. */
  datatype TemporaryExposureKeyExport = TemporaryExposureKeyExport(
    startTimestamp: int,
    endTimestamp: int,
    region: string,
    batchNum: int,
    batchSize: int,
    keys: seq<Key>,
    revisedKeys: seq<Key>)

  /** One element of the diagnosis-key list, with its parsed export. */
  datatype Entry = Entry(url: string, created: int, diagnosisKeys: TemporaryExposureKeyExport)

  function CreatedOf(entry: Entry): int {
    entry.created
  }

  const BinHeader := "EK Export v1    "

  /** The header is plain ASCII, so its UTF-8 encoding has one byte per
      character. */
  const BinHeaderBytesLength := |BinHeader|

  /** `_get_diagnosis_keys` before parsing: the bytes after the first
      BinHeaderBytesLength ones. Seeking past the end of a shorter file
      leaves nothing to read. */
  function StripHeader(blob: seq<bv8>): (payload: seq<bv8>)
    ensures |blob| <= BinHeaderBytesLength ==> payload == []
    ensures |blob| > BinHeaderBytesLength ==> |payload| == |blob| - BinHeaderBytesLength
    ensures |blob| > BinHeaderBytesLength ==> payload == blob[BinHeaderBytesLength..]
  {
    if |blob| <= BinHeaderBytesLength then [] else blob[BinHeaderBytesLength..]
  }

  /** `_rolling_period_to_timedelta`: the length of `rollingPeriod`
      intervals, in seconds. */
  function RollingPeriodToTimedelta(rollingPeriod: int): (seconds: int)
    ensures seconds % EnIntervalWindow == 0 && seconds / EnIntervalWindow == rollingPeriod
  {
    rollingPeriod * EnIntervalWindow
  }

  /** `_is_valid_transmission_risk_level_key`. The two bounds are joined by
      `or`, so every level passes; the message of the other branch names
      the report type. */
  function IsValidTransmissionRiskLevelKey(key: Key): (r: (bool, string))
    ensures r == (true, "")
  {
    if key.transmissionRiskLevel >= 0 || key.transmissionRiskLevel <= 7 then (true, "")
    else (false, "value transmission_risk_level " + IntToDecimal(ReportTypeOf(key)))
  }

  /** `_is_valid_report_type_key`: the bounds are joined by `or`, so every
      report type passes. */
  function IsValidReportTypeKey(key: Key): (r: (bool, string))
    ensures r == (true, "")
  {
    if ReportTypeOf(key) >= 0 || ReportTypeOf(key) <= 5 then (true, "")
    else (false, "value report_type " + IntToDecimal(ReportTypeOf(key)) + " is invalid.")
  }

  /** `_is_valid_days_since_onset_of_symptoms_key`: the bounds are joined by
      `or`, so every day offset passes. */
  function IsValidDaysSinceOnsetOfSymptomsKey(key: Key): (r: (bool, string))
    ensures r == (true, "")
  {
    if DaysSinceOnsetOf(key) >= -14 || DaysSinceOnsetOf(key) <= 14 then (true, "")
    else (false, "value days_since_onset_of_symptoms " + IntToDecimal(DaysSinceOnsetOf(key)) + " is invalid.")
  }

  /** The message for a key of the wrong length: `%s` of the bytes that
      `b64encode` returns shows them as `b'...'`. */
  function KeyDataMessage(keyData: seq<bv8>): string
  {
    "key_data b'" + Base64.Encode(keyData) + "' length " + IntToDecimal(|keyData|) + " is invalid."
  }

  /** `_is_valid_temporary_exposure_key_key`: a key is 16 bytes long. */
  function IsValidTemporaryExposureKeyKey(key: Key): (r: (bool, string))
    ensures r.0 <==> |key.keyData| == 16
    ensures r.0 ==> r.1 == ""
    ensures !r.0 ==> StartsWith(r.1, "key_data b'")
  {
    if |key.keyData| == 16 then (true, "")
    else (false, KeyDataMessage(key.keyData))
  }

  /** `DICT_TRANSMISSION_RISK_LEVEL`: what each transmission risk level
      means, None for a level the dictionary lacks. */
  function TransmissionRiskLevelName(level: int): Option<string>
  {
    match level
    case 0 => Some("Unused/Custom")
    case 1 => Some("Confirmed test: Low transmission risk level")
    case 2 => Some("Confirmed test: Standard transmission risk level")
    case 3 => Some("Confirmed test: High transmission risk level")
    case 4 => Some("Confirmed clinical diagnosis")
    case 5 => Some("Self report")
    case 6 => Some("Negative case")
    case 7 => Some("Recursive case")
    case _ => None
  }

  /** The messages of the checks a key fails, in the order they run. */
  function Messages(key: Key): seq<string>
  {
    var (v1, m1) := IsValidTransmissionRiskLevelKey(key);
    var (v2, m2) := IsValidReportTypeKey(key);
    var (v3, m3) := IsValidDaysSinceOnsetOfSymptomsKey(key);
    var (v4, m4) := IsValidTemporaryExposureKeyKey(key);
    (if v1 then [] else [m1]) + (if v2 then [] else [m2]) + (if v3 then [] else [m3]) + (if v4 then [] else [m4])
  }

  function Incr(b: bool): int {
    if b then 1 else 0
  }

  /** Adds one to the count of `k`; a KeyError when the histogram has no
      entry for `k`. */
  function Bump(m: map<int, int>, k: int): (r: Result<map<int, int>, Failure>)
    ensures r.Ok? <==> k in m
    ensures r.Ok? ==> r.value.Keys == m.Keys && r.value[k] == m[k] + 1
                      && forall j :: j in m && j != k ==> r.value[j] == m[j]
    ensures r.Err? ==> r.error == KeyError(k)
  {
    if k in m then Ok(m[k := m[k] + 1]) else Err(KeyError(k))
  }

  /** The counters one key moves before the histograms are touched. A
      failed report-type or onset check is counted as a failed
      transmission-risk-level check, and `comment` is replaced by the
      messages of this key alone. */
  function CountChecks(b: Bucket, key: Key): Bucket
  {
    var v1 := IsValidTransmissionRiskLevelKey(key).0;
    var v2 := IsValidReportTypeKey(key).0;
    var v3 := IsValidDaysSinceOnsetOfSymptomsKey(key).0;
    var v4 := IsValidTemporaryExposureKeyKey(key).0;
    b.(keyCount := b.keyCount + 1,
       invalidTransmissionRiskLevelKeyCount := b.invalidTransmissionRiskLevelKeyCount + Incr(!v1) + Incr(!v2) + Incr(!v3),
       invalidKeyDataCount := b.invalidKeyDataCount + Incr(!v4),
       comment := Some(Join("|", Messages(key))),
       validKeyCount := b.validKeyCount + Incr(v1 && v2 && v3 && v4))
  }

  /** The count of the key's transmission risk level. */
  function CountLevel(b: Bucket, key: Key): Result<Bucket, Failure>
  {
    match Bump(b.transmissionRiskLevelDistribution, key.transmissionRiskLevel)
    case Err(e) => Err(e)
    case Ok(levels) => Ok(b.(transmissionRiskLevelDistribution := levels))
  }

  /** The count of the key's report type, or of keys without one. */
  function CountReportType(b: Bucket, key: Key): Result<Bucket, Failure>
  {
    match key.reportType
    case None => Ok(b.(hasNotReportTypeCount := b.hasNotReportTypeCount + 1))
    case Some(t) =>
      match Bump(b.reportTypeDistribution, t)
      case Err(e) => Err(e)
      case Ok(types) => Ok(b.(reportTypeDistribution := types))
  }

  /** The count of the key's onset day, or of keys without one. */
  function CountOnset(b: Bucket, key: Key): Result<Bucket, Failure>
  {
    match key.daysSinceOnsetOfSymptoms
    case None => Ok(b.(hasNotDaysSinceOnsetOfSymptomsCount := b.hasNotDaysSinceOnsetOfSymptomsCount + 1))
    case Some(d) =>
      match Bump(b.daysSinceOnsetOfSymptomsDistribution, d)
      case Err(e) => Err(e)
      case Ok(days) => Ok(b.(daysSinceOnsetOfSymptomsDistribution := days))
  }

  /** The histogram updates for one key, in the order the loop makes them;
      the first KeyError ends the pass. */
  function CountHistograms(b: Bucket, key: Key): Result<Bucket, Failure>
  {
    match CountLevel(b, key)
    case Err(e) => Err(e)
    case Ok(b1) =>
      match CountReportType(b1, key)
      case Err(e) => Err(e)
      case Ok(b2) => CountOnset(b2, key)
  }

  /** One pass of the loop in `_statistics_keys`. */
  function Tally(b: Bucket, key: Key): Result<Bucket, Failure>
  {
    CountHistograms(CountChecks(b, key), key)
  }

  /** A loop that takes `step` over `xs` from the state `b` and ends at the
      first failure. */
  function FoldSteps<S, X, E>(step: (S, X) -> Result<S, E>, b: S, xs: seq<X>): Result<S, E>
    decreases |xs|
  {
    if xs == [] then Ok(b)
    else
      match FoldSteps(step, b, xs[..|xs| - 1])
      case Err(e) => Err(e)
      case Ok(b') => step(b', xs[|xs| - 1])
  }

  /** The loop of `_statistics_keys` over `keys`, from the state `b`; the
      first KeyError ends it. */
  function FoldKeys(b: Bucket, keys: seq<Key>): Result<Bucket, Failure>
  {
    FoldSteps(Tally, b, keys)
  }

  /** A fresh StatisticsData with the bucket's identifiers set. */
  function InitialBucket(created: int, rollingStartIntervalNumber: int): Bucket
  {
    NewBucket().(created := created, rollingStartIntervalNumber := rollingStartIntervalNumber)
  }

  /** What `_statistics_keys` computes. */
  function StatisticsKeysOf(created: int, rollingStartIntervalNumber: int, keys: seq<Key>): Result<Bucket, Failure>
  {
    FoldKeys(InitialBucket(created, rollingStartIntervalNumber), keys)
  }

  /** Once the loop has failed on a prefix, the elements after it change
      nothing. */
  lemma {:induction false} FoldStopsAtError<S, X, E>(step: (S, X) -> Result<S, E>, b: S, xs: seq<X>, i: nat)
    requires i <= |xs|
    requires FoldSteps(step, b, xs[..i]).Err?
    ensures FoldSteps(step, b, xs) == FoldSteps(step, b, xs[..i])
    decreases |xs| - i
  {
    if i < |xs| {
      assert xs[..i + 1][..i] == xs[..i];
      FoldStopsAtError(step, b, xs, i + 1);
    } else {
      assert xs[..i] == xs;
    }
  }

  /** The first half of a pass of the loop in `_statistics_keys`: the four
      checks and the counters they move. The first three checks never fail,
      so their bookkeeping is written without a branch. */
  method RecordChecks(data: StatisticsData, key: Key)
    modifies data
    ensures data.Value() == CountChecks(old(data.Value()), key)
  {
    data.keyCount := data.keyCount + 1;
    var isValidKey := true;
    var messages: seq<string> := [];
    var isValid, message := IsValidTransmissionRiskLevelKey(key).0, IsValidTransmissionRiskLevelKey(key).1;
    data.invalidTransmissionRiskLevelKeyCount := data.invalidTransmissionRiskLevelKeyCount + Incr(!isValid);
    isValidKey := isValidKey && isValid;
    messages := messages + (if isValid then [] else [message]);
    isValid, message := IsValidReportTypeKey(key).0, IsValidReportTypeKey(key).1;
    data.invalidTransmissionRiskLevelKeyCount := data.invalidTransmissionRiskLevelKeyCount + Incr(!isValid);
    isValidKey := isValidKey && isValid;
    messages := messages + (if isValid then [] else [message]);
    isValid, message := IsValidDaysSinceOnsetOfSymptomsKey(key).0, IsValidDaysSinceOnsetOfSymptomsKey(key).1;
    data.invalidTransmissionRiskLevelKeyCount := data.invalidTransmissionRiskLevelKeyCount + Incr(!isValid);
    isValidKey := isValidKey && isValid;
    messages := messages + (if isValid then [] else [message]);
    ghost var b1 := data.Value();
    assert b1 == old(data.Value()).(keyCount := old(data.keyCount) + 1);
    isValid, message := IsValidTemporaryExposureKeyKey(key).0, IsValidTemporaryExposureKeyKey(key).1;
    if !isValid {
      data.invalidKeyDataCount := data.invalidKeyDataCount + 1;
      isValidKey := false;
      messages := messages + [message];
    }
    assert messages == Messages(key);
    data.comment := Some(Join("|", messages));
    if isValidKey {
      data.validKeyCount := data.validKeyCount + 1;
    }
  }

  /** The second half of a pass: the histogram increments, each of which
      raises KeyError for a value its histogram has no entry for. */
  method RecordHistograms(data: StatisticsData, key: Key) returns (error: Option<Failure>)
    modifies data
    ensures error.None? <==> CountHistograms(old(data.Value()), key).Ok?
    ensures error.None? ==> data.Value() == CountHistograms(old(data.Value()), key).value
    ensures error.Some? ==> error.value == CountHistograms(old(data.Value()), key).error
  {
    ghost var b0 := data.Value();
    if key.transmissionRiskLevel !in data.transmissionRiskLevelDistribution {
      return Some(KeyError(key.transmissionRiskLevel));
    }
    data.transmissionRiskLevelDistribution := data.transmissionRiskLevelDistribution[
      key.transmissionRiskLevel := data.transmissionRiskLevelDistribution[key.transmissionRiskLevel] + 1];
    ghost var b1 := data.Value();
    assert CountLevel(b0, key) == Ok(b1);
    if key.reportType.Some? {
      if key.reportType.value !in data.reportTypeDistribution {
        return Some(KeyError(key.reportType.value));
      }
      data.reportTypeDistribution := data.reportTypeDistribution[
        key.reportType.value := data.reportTypeDistribution[key.reportType.value] + 1];
    } else {
      data.hasNotReportTypeCount := data.hasNotReportTypeCount + 1;
    }
    ghost var b2 := data.Value();
    assert CountReportType(b1, key) == Ok(b2);
    if key.daysSinceOnsetOfSymptoms.Some? {
      if key.daysSinceOnsetOfSymptoms.value !in data.daysSinceOnsetOfSymptomsDistribution {
        return Some(KeyError(key.daysSinceOnsetOfSymptoms.value));
      }
      data.daysSinceOnsetOfSymptomsDistribution := data.daysSinceOnsetOfSymptomsDistribution[
        key.daysSinceOnsetOfSymptoms.value := data.daysSinceOnsetOfSymptomsDistribution[key.daysSinceOnsetOfSymptoms.value] + 1];
    } else {
      data.hasNotDaysSinceOnsetOfSymptomsCount := data.hasNotDaysSinceOnsetOfSymptomsCount + 1;
    }
    assert CountOnset(b2, key) == Ok(data.Value());
    return None;
  }

  /** `_statistics_keys`: a new StatisticsData for one bucket, updated key
      by key as the loop goes. */
  method StatisticsKeys(created: int, rollingStartIntervalNumber: int, keys: seq<Key>)
    returns (r: Result<StatisticsData, Failure>)
    ensures r.Ok? <==> StatisticsKeysOf(created, rollingStartIntervalNumber, keys).Ok?
    ensures r.Ok? ==> fresh(r.value) && r.value.Value() == StatisticsKeysOf(created, rollingStartIntervalNumber, keys).value
    ensures r.Err? ==> r.error == StatisticsKeysOf(created, rollingStartIntervalNumber, keys).error
  {
    var data := new StatisticsData();
    data.created := created;
    data.rollingStartIntervalNumber := rollingStartIntervalNumber;
    ghost var initial := InitialBucket(created, rollingStartIntervalNumber);
    assert keys[..0] == [];
    for i := 0 to |keys|
      invariant FoldKeys(initial, keys[..i]) == Ok(data.Value())
    {
      assert keys[..i + 1][..i] == keys[..i];
      RecordChecks(data, keys[i]);
      var error := RecordHistograms(data, keys[i]);
      if error.Some? {
        FoldStopsAtError(Tally, initial, keys, i + 1);
        return Err(error.value);
      }
    }
    assert keys[..|keys|] == keys;
    return Ok(data);
  }

  /** `itertools.chain` of the primary keys of the entries; revised keys are
      not read. */
  function ChainKeys(entries: seq<Entry>): seq<Key>
  {
    if entries == [] then [] else entries[0].diagnosisKeys.keys + ChainKeys(entries[1..])
  }

  /** The work of one call of `_statistics_keys`. */
  datatype Task = Task(created: int, rollingStartIntervalNumber: int, keys: seq<Key>)

  function TasksOfRuns(created: int, runs: seq<seq<Key>>): (tasks: seq<Task>)
    requires forall i :: 0 <= i < |runs| ==> runs[i] != []
    ensures |tasks| == |runs|
    ensures forall i :: 0 <= i < |runs| ==>
      tasks[i] == Task(created, runs[i][0].rollingStartIntervalNumber, runs[i])
  {
    if runs == [] then [] else [Task(created, runs[0][0].rollingStartIntervalNumber, runs[0])] + TasksOfRuns(created, runs[1..])
  }

  /** The inner `groupby` of `_statistics` for one run of entries with the
      same `created`. */
  function GroupTasks(group: seq<Entry>): seq<Task>
    requires group != []
  {
    TasksOfRuns(group[0].created, GroupRuns(ChainKeys(group), RollingStartIntervalNumberOf))
  }

  function TasksOfGroups(groups: seq<seq<Entry>>): (rows: seq<seq<Task>>)
    requires forall i :: 0 <= i < |groups| ==> groups[i] != []
  {
    seq(|groups|, i requires 0 <= i < |groups| => GroupTasks(groups[i]))
  }

  /** The calls `_statistics` makes, in order. */
  function Plan(entries: seq<Entry>): seq<Task>
  {
    Flatten(TasksOfGroups(GroupRuns(entries, CreatedOf)))
  }

  /** The values of a list of results, or the error of the first failure. */
  function Collect<T>(results: seq<Result<T, Failure>>): Result<seq<T>, Failure>
  {
    if results == [] then Ok([])
    else
      match results[0]
      case Err(e) => Err(e)
      case Ok(v) =>
        match Collect(results[1..])
        case Err(e) => Err(e)
        case Ok(rest) => Ok([v] + rest)
  }

  /** Collect succeeds exactly when every result does, and then keeps them
      all in order; otherwise it reports the first failure. */
  lemma {:induction false} CollectMeaning<T>(results: seq<Result<T, Failure>>)
    ensures Collect(results).Ok? <==> forall i :: 0 <= i < |results| ==> results[i].Ok?
    ensures Collect(results).Ok? ==>
      |Collect(results).value| == |results| && forall i :: 0 <= i < |results| ==> Collect(results).value[i] == results[i].value
    ensures Collect(results).Err? ==> exists i :: 0 <= i < |results| && results[i] == Err(Collect(results).error)
                                                && forall j :: 0 <= j < i ==> results[j].Ok?
    decreases |results|
  {
    if results != [] {
      var tail := results[1..];
      CollectMeaning(tail);
      assert forall i :: 1 <= i < |results| ==> results[i] == tail[i - 1];
      if results[0].Ok? && Collect(tail).Err? {
        var i :| 0 <= i < |tail| && tail[i] == Err(Collect(tail).error) && forall j :: 0 <= j < i ==> tail[j].Ok?;
        assert results[i + 1] == tail[i];
      }
    }
  }

  /** Collecting two lists one after the other. */
  lemma {:induction false} CollectAppend<T>(a: seq<Result<T, Failure>>, b: seq<Result<T, Failure>>)
    ensures Collect(a + b) ==
      match Collect(a)
      case Err(e) => Err(e)
      case Ok(x) => (match Collect(b) case Err(e) => Err(e) case Ok(y) => Ok(x + y))
    decreases |a|
  {
    if a == [] {
      assert a + b == b;
      if Collect(b).Ok? {
        assert [] + Collect(b).value == Collect(b).value;
      }
    } else {
      assert (a + b)[0] == a[0] && (a + b)[1..] == a[1..] + b;
      CollectAppend(a[1..], b);
      if a[0].Ok? && Collect(a[1..]).Ok? && Collect(b).Ok? {
        assert [a[0].value] + (Collect(a[1..]).value + Collect(b).value)
            == ([a[0].value] + Collect(a[1..]).value) + Collect(b).value;
      }
    }
  }

  /** What one call of `_statistics_keys` returns. */
  function RunTask(task: Task): Result<Bucket, Failure>
  {
    StatisticsKeysOf(task.created, task.rollingStartIntervalNumber, task.keys)
  }

  function RunTasks(tasks: seq<Task>): (results: seq<Result<Bucket, Failure>>)
    ensures |results| == |tasks|
  {
    seq(|tasks|, i requires 0 <= i < |tasks| => RunTask(tasks[i]))
  }

  /** The tasks run one after the other; the first KeyError ends the run. */
  function RunAll(tasks: seq<Task>): Result<seq<Bucket>, Failure>
  {
    Collect(RunTasks(tasks))
  }

  /** One more result that succeeds extends the collected values by one. */
  lemma CollectStepOk<T>(results: seq<Result<T, Failure>>, j: nat, values: seq<T>)
    requires j < |results| && results[j].Ok?
    requires Collect(results[..j]) == Ok(values)
    ensures Collect(results[..j + 1]) == Ok(values + [results[j].value])
  {
    var v := results[j].value;
    assert results[..j + 1] == results[..j] + [results[j]];
    CollectAppend(results[..j], [results[j]]);
    assert [results[j]][1..] == [];
    assert [v] + [] == [v];
  }

  /** A result that fails after successes is the error of the whole list. */
  lemma CollectStepErr<T>(results: seq<Result<T, Failure>>, j: nat)
    requires j < |results| && results[j].Err?
    requires Collect(results[..j]).Ok?
    ensures Collect(results) == Err(results[j].error)
  {
    assert results == results[..j] + ([results[j]] + results[j + 1..]);
    CollectAppend(results[..j], [results[j]] + results[j + 1..]);
  }

  /** One more part that succeeds extends the collected values by its own. */
  lemma CollectPartsStepOk<T>(parts: seq<seq<Result<T, Failure>>>, g: nat, values: seq<T>, more: seq<T>)
    requires g < |parts|
    requires Collect(Flatten(parts[..g])) == Ok(values) && Collect(parts[g]) == Ok(more)
    ensures Collect(Flatten(parts[..g + 1])) == Ok(values + more)
  {
    FlattenSnoc(parts, g);
    CollectAppend(Flatten(parts[..g]), parts[g]);
  }

  /** A part that fails after successful parts is the error of the whole. */
  lemma CollectPartsStepErr<T>(parts: seq<seq<Result<T, Failure>>>, g: nat)
    requires g < |parts|
    requires Collect(Flatten(parts[..g])).Ok? && Collect(parts[g]).Err?
    ensures Collect(Flatten(parts)) == Err(Collect(parts[g]).error)
  {
    FlattenAt(parts, g);
    CollectAppend(parts[g], Flatten(parts[g + 1..]));
    CollectAppend(Flatten(parts[..g]), parts[g] + Flatten(parts[g + 1..]));
  }

  lemma FlattenSnoc<T>(parts: seq<seq<T>>, g: nat)
    requires g < |parts|
    ensures Flatten(parts[..g + 1]) == Flatten(parts[..g]) + parts[g]
  {
    assert parts[..g + 1] == parts[..g] + [parts[g]];
    FlattenAppend(parts[..g], [parts[g]]);
    FlattenOne(parts[g], []);
    assert parts[g] + [] == parts[g];
  }

  lemma FlattenAt<T>(parts: seq<seq<T>>, g: nat)
    requires g < |parts|
    ensures Flatten(parts) == Flatten(parts[..g]) + (parts[g] + Flatten(parts[g + 1..]))
  {
    assert parts[..g] + parts[g..] == parts;
    FlattenAppend(parts[..g], parts[g..]);
    assert parts[g..][0] == parts[g] && parts[g..][1..] == parts[g + 1..];
  }

  lemma FlattenOne<T>(part: seq<T>, after: seq<seq<T>>)
    ensures Flatten([part] + after) == part + Flatten(after)
  {
    assert ([part] + after)[1..] == after;
  }

  /** Running a concatenation of task lists is running each of them. */
  lemma {:induction false} RunTasksFlatten(rows: seq<seq<Task>>)
    ensures RunTasks(Flatten(rows)) == Flatten(PartsOf(rows))
    decreases |rows|
  {
    var parts := PartsOf(rows);
    if rows != [] {
      RunTasksFlatten(rows[1..]);
      assert parts[1..] == PartsOf(rows[1..]);
      assert RunTasks(rows[0] + Flatten(rows[1..])) == RunTasks(rows[0]) + RunTasks(Flatten(rows[1..]));
    }
  }

  /** What `_statistics` returns. */
  function StatisticsOf(entries: seq<Entry>): Result<seq<Bucket>, Failure>
  {
    RunAll(Plan(entries))
  }

  lemma WholeSlice<T>(s: seq<T>)
    ensures s[..|s|] == s
  {
  }

  /** The objects of `list` hold the buckets `buckets`, in order. */
  predicate Hold(list: seq<StatisticsData>, buckets: seq<Bucket>)
    reads list
  {
    |list| == |buckets| && forall i :: 0 <= i < |list| ==> list[i].Value() == buckets[i]
  }

  /** Lists that hold their buckets hold them still when joined. */
  lemma HoldAppend(list: seq<StatisticsData>, buckets: seq<Bucket>, more: seq<StatisticsData>, moreBuckets: seq<Bucket>)
    requires Hold(list, buckets) && Hold(more, moreBuckets)
    ensures Hold(list + more, buckets + moreBuckets)
  {
  }

  /** The inner loop of `_statistics`: one StatisticsData per run of keys
      with the same rolling start interval number. */
  method StatisticsOfRuns(created: int, runs: seq<seq<Key>>) returns (r: Result<seq<StatisticsData>, Failure>)
    requires forall i :: 0 <= i < |runs| ==> runs[i] != []
    ensures r.Ok? <==> RunAll(TasksOfRuns(created, runs)).Ok?
    ensures r.Ok? ==> Hold(r.value, RunAll(TasksOfRuns(created, runs)).value)
    ensures r.Err? ==> r.error == RunAll(TasksOfRuns(created, runs)).error
  {
    ghost var results := RunTasks(TasksOfRuns(created, runs));
    var statisticsList: seq<StatisticsData> := [];
    ghost var buckets: seq<Bucket> := [];
    assert results[..0] == [];
    for j := 0 to |runs|
      invariant Collect(results[..j]) == Ok(buckets)
      invariant Hold(statisticsList, buckets)
    {
      var result := StatisticsKeys(created, runs[j][0].rollingStartIntervalNumber, runs[j]);
      RunsStep(created, runs, j, buckets);
      if result.Err? {
        return Err(result.error);
      }
      HoldAppend(statisticsList, buckets, [result.value], [result.value.Value()]);
      statisticsList := statisticsList + [result.value];
      buckets := buckets + [result.value.Value()];
    }
    assert results[..|runs|] == results;
    return Ok(statisticsList);
  }

  /** One pass of the inner loop of `_statistics`: the call for run `j`
      either ends the loop with its error or adds its bucket. */
  lemma RunsStep(created: int, runs: seq<seq<Key>>, j: nat, buckets: seq<Bucket>)
    requires forall i :: 0 <= i < |runs| ==> runs[i] != []
    requires j < |runs|
    requires Collect(RunTasks(TasksOfRuns(created, runs))[..j]) == Ok(buckets)
    ensures var r := StatisticsKeysOf(created, runs[j][0].rollingStartIntervalNumber, runs[j]);
      && (r.Err? ==> RunAll(TasksOfRuns(created, runs)) == Err(r.error))
      && (r.Ok? ==> Collect(RunTasks(TasksOfRuns(created, runs))[..j + 1]) == Ok(buckets + [r.value]))
  {
    var results := RunTasks(TasksOfRuns(created, runs));
    assert results[j] == StatisticsKeysOf(created, runs[j][0].rollingStartIntervalNumber, runs[j]);
    if results[j].Err? {
      CollectStepErr(results, j);
    } else {
      CollectStepOk(results, j, buckets);
    }
  }

  /** The body of the outer loop of `_statistics` for one run of entries
      with the same `created`: their keys chained, then the inner loop. */
  method StatisticsOfGroup(group: seq<Entry>) returns (r: Result<seq<StatisticsData>, Failure>)
    requires group != []
    ensures r.Ok? <==> RunAll(GroupTasks(group)).Ok?
    ensures r.Ok? ==> Hold(r.value, RunAll(GroupTasks(group)).value)
    ensures r.Err? ==> r.error == RunAll(GroupTasks(group)).error
  {
    var created := group[0].created;
    var keys := ChainKeys(group);
    var runs := GroupRuns(keys, RollingStartIntervalNumberOf);
    r := StatisticsOfRuns(created, runs);
  }

  /** The task results of each run of entries. */
  function PartsOf(rows: seq<seq<Task>>): (parts: seq<seq<Result<Bucket, Failure>>>)
    ensures |parts| == |rows|
    ensures forall g :: 0 <= g < |rows| ==> parts[g] == RunTasks(rows[g])
  {
    seq(|rows|, g requires 0 <= g < |rows| => RunTasks(rows[g]))
  }

  /** `_statistics`: the entries cut into runs of equal `created`, the keys
      of each run chained and cut into runs of equal rolling start interval
      number, one StatisticsData per inner run. */
  method ComputeStatistics(entries: seq<Entry>) returns (r: Result<seq<StatisticsData>, Failure>)
    ensures r.Ok? <==> StatisticsOf(entries).Ok?
    ensures r.Ok? ==> Hold(r.value, StatisticsOf(entries).value)
    ensures r.Err? ==> r.error == StatisticsOf(entries).error
  {
    var groups := GroupRuns(entries, CreatedOf);
    ghost var rows := TasksOfGroups(groups);
    ghost var parts := PartsOf(rows);
    RunTasksFlatten(rows);
    assert StatisticsOf(entries) == Collect(Flatten(parts));
    var statisticsList: seq<StatisticsData> := [];
    ghost var buckets: seq<Bucket> := [];
    assert parts[..0] == [];
    for g := 0 to |groups|
      invariant Collect(Flatten(parts[..g])) == Ok(buckets)
      invariant Hold(statisticsList, buckets)
    {
      var result := StatisticsOfGroup(groups[g]);
      assert Collect(parts[g]) == RunAll(GroupTasks(groups[g]));
      if result.Err? {
        CollectPartsStepErr(parts, g);
        return Err(result.error);
      }
      CollectPartsStepOk(parts, g, buckets, Collect(parts[g]).value);
      HoldAppend(statisticsList, buckets, result.value, Collect(parts[g]).value);
      statisticsList := statisticsList + result.value;
      buckets := buckets + Collect(parts[g]).value;
    }
    WholeSlice(parts);
    return Ok(statisticsList);
  }

  /** `write_to_csv` for each bucket in turn; the first failing row ends the
      file. */
  function WriteRows(buckets: seq<Bucket>): Result<seq<seq<Cell>>, Failure>
  {
    MapSteps(CsvRow, buckets)
  }


  /** The computation of `main` between reading the entries and writing the
      file: the rows that follow the header row CsvHeader(). The sorted list
      `main` builds is thrown away, so the rows keep the order of
      `_statistics`. */
  function Convert(entries: seq<Entry>): Result<seq<seq<Cell>>, Failure>
  {
    match StatisticsOf(entries)
    case Err(e) => Err(e)
    case Ok(buckets) => WriteRows(buckets)
  }
}
