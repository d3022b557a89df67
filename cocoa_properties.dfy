/** What the diagnosis-key converter guarantees about its counts: the checks
    that cannot fail, the counters each key moves, the conservation of keys
    across the histograms, when a KeyError ends a run, and how many keys the
    whole report counts. */
module CocoaProperties {
  import opened Wrappers
  import opened Text
  import Base64
  import opened Grouping
  import opened Calendar
  import opened Statistics
  import opened CocoaDiagnosisKeys

  /** The `comment` a key leaves behind: empty for a 16-byte key, the
      key-data message otherwise. */
  function CommentOf(key: Key): string
  {
    if |key.keyData| == 16 then "" else KeyDataMessage(key.keyData)
  }

  /** Only the key-data check can fail, so a key has no message or exactly
      the key-data message, and `"|".join` of them is CommentOf. */
  lemma MessagesOfKey(key: Key)
    ensures Messages(key) == if |key.keyData| == 16 then [] else [KeyDataMessage(key.keyData)]
    ensures Join("|", Messages(key)) == CommentOf(key)
  {
    var (v4, m4) := IsValidTemporaryExposureKeyKey(key);
    assert Messages(key) == (if v4 then [] else [m4]);
  }

  /** A key whose values all have an entry in the histograms `__init__`
      fills. */
  predicate InDomain(key: Key)
  {
    && 0 <= key.transmissionRiskLevel < 8
    && (key.reportType.Some? ==> 0 <= key.reportType.value < 7)
    && (key.daysSinceOnsetOfSymptoms.Some? ==> -14 <= key.daysSinceOnsetOfSymptoms.value < 15)
  }

  /** The KeyError a key out of the domains raises: the level is looked up
      first, then the report type, then the onset day. */
  function FirstKeyError(key: Key): Failure
  {
    if !(0 <= key.transmissionRiskLevel < 8) then KeyError(key.transmissionRiskLevel)
    else if key.reportType.Some? && !(0 <= key.reportType.value < 7) then KeyError(key.reportType.value)
    else KeyError(key.daysSinceOnsetOfSymptoms.GetOr(0))
  }

  /** The counts of keys `lo..hi-1` of a histogram added up. */
  function RangeSum(m: map<int, int>, lo: int, hi: int): int
    decreases hi - lo
  {
    if hi <= lo then 0 else (if lo in m then m[lo] else 0) + RangeSum(m, lo + 1, hi)
  }

  /** A histogram whose counts are all zero sums to zero. */
  lemma {:induction false} RangeSumZero(m: map<int, int>, lo: int, hi: int)
    requires forall k :: k in m ==> m[k] == 0
    ensures RangeSum(m, lo, hi) == 0
    decreases hi - lo
  {
    if lo < hi {
      RangeSumZero(m, lo + 1, hi);
    }
  }

  /** Adding one to the count of `k` adds one to every sum over a range
      that holds `k`, and nothing to the others. */
  lemma {:induction false} RangeSumBump(m: map<int, int>, k: int, lo: int, hi: int)
    requires k in m
    ensures RangeSum(m[k := m[k] + 1], lo, hi) == RangeSum(m, lo, hi) + (if lo <= k < hi then 1 else 0)
    decreases hi - lo
  {
    if lo < hi {
      RangeSumBump(m, k, lo + 1, hi);
    }
  }

  /** The bookkeeping that holds of every bucket `_statistics_keys` builds:
      the histogram domains of `__init__`, every key counted once in each
      histogram or its has-not counter, every key either valid or of bad
      key data, and the other failure counters at zero. */
  ghost predicate Conserved(b: Bucket)
  {
    && HasInitialDomains(b)
    && RangeSum(b.transmissionRiskLevelDistribution, 0, 8) == b.keyCount
    && RangeSum(b.reportTypeDistribution, 0, 7) + b.hasNotReportTypeCount == b.keyCount
    && RangeSum(b.daysSinceOnsetOfSymptomsDistribution, -14, 15) + b.hasNotDaysSinceOnsetOfSymptomsCount == b.keyCount
    && b.validKeyCount + b.invalidKeyDataCount == b.keyCount
    && b.invalidTransmissionRiskLevelKeyCount == 0
    && b.invalidReportTypeKeyCount == 0
    && b.invalidDaysSinceOnsetOfSymptomsKeyCount == 0
  }

  /** A bucket with the domains of `__init__`, every count zero and every
      counter zero keeps the bookkeeping. */
  lemma ZeroBucketConserved(b: Bucket)
    requires HasInitialDomains(b)
    requires forall k :: k in b.transmissionRiskLevelDistribution ==> b.transmissionRiskLevelDistribution[k] == 0
    requires forall k :: k in b.reportTypeDistribution ==> b.reportTypeDistribution[k] == 0
    requires forall k :: k in b.daysSinceOnsetOfSymptomsDistribution ==> b.daysSinceOnsetOfSymptomsDistribution[k] == 0
    requires b.keyCount == b.validKeyCount == b.invalidKeyDataCount == 0
    requires b.hasNotReportTypeCount == b.hasNotDaysSinceOnsetOfSymptomsCount == 0
    requires b.invalidTransmissionRiskLevelKeyCount == b.invalidReportTypeKeyCount == b.invalidDaysSinceOnsetOfSymptomsKeyCount == 0
    ensures Conserved(b)
  {
    RangeSumZero(b.transmissionRiskLevelDistribution, 0, 8);
    RangeSumZero(b.reportTypeDistribution, 0, 7);
    RangeSumZero(b.daysSinceOnsetOfSymptomsDistribution, -14, 15);
  }

  /** A fresh bucket has no keys and keeps the bookkeeping. */
  lemma InitialBucketConserved(created: int, rollingStartIntervalNumber: int)
    ensures Conserved(InitialBucket(created, rollingStartIntervalNumber))
    ensures InitialBucket(created, rollingStartIntervalNumber).keyCount == 0
  {
    ZeroBucketConserved(InitialBucket(created, rollingStartIntervalNumber));
  }

  /** The counters one key moves: one more key, valid exactly when its key
      data is 16 bytes, and the comment replaced by that key's own. */
  lemma CountChecksEffect(b: Bucket, key: Key)
    ensures var b' := CountChecks(b, key);
      && b' == b.(keyCount := b'.keyCount, validKeyCount := b'.validKeyCount,
                  invalidKeyDataCount := b'.invalidKeyDataCount, comment := b'.comment)
      && b'.keyCount == b.keyCount + 1
      && b'.validKeyCount == b.validKeyCount + (if |key.keyData| == 16 then 1 else 0)
      && b'.invalidKeyDataCount == b.invalidKeyDataCount + (if |key.keyData| == 16 then 0 else 1)
      && b'.comment == Some(CommentOf(key))
  {
    MessagesOfKey(key);
  }

  /** A key raises KeyError exactly when one of its values is outside the
      domains, and the error names the first such value. */
  lemma CountHistogramsKeyError(b: Bucket, key: Key)
    requires HasInitialDomains(b)
    ensures CountHistograms(b, key).Ok? <==> InDomain(key)
    ensures CountHistograms(b, key).Err? ==> CountHistograms(b, key).error == FirstKeyError(key)
  {
  }

  /** A key that raises no KeyError is counted once in each histogram or
      has-not counter, and nothing else changes. */
  lemma CountHistogramsConserves(b: Bucket, key: Key)
    requires HasInitialDomains(b) && InDomain(key)
    ensures var b' := CountHistograms(b, key).value;
      && HasInitialDomains(b')
      && RangeSum(b'.transmissionRiskLevelDistribution, 0, 8) == RangeSum(b.transmissionRiskLevelDistribution, 0, 8) + 1
      && RangeSum(b'.reportTypeDistribution, 0, 7) + b'.hasNotReportTypeCount
         == RangeSum(b.reportTypeDistribution, 0, 7) + b.hasNotReportTypeCount + 1
      && RangeSum(b'.daysSinceOnsetOfSymptomsDistribution, -14, 15) + b'.hasNotDaysSinceOnsetOfSymptomsCount
         == RangeSum(b.daysSinceOnsetOfSymptomsDistribution, -14, 15) + b.hasNotDaysSinceOnsetOfSymptomsCount + 1
      && b' == b.(transmissionRiskLevelDistribution := b'.transmissionRiskLevelDistribution,
                  reportTypeDistribution := b'.reportTypeDistribution,
                  daysSinceOnsetOfSymptomsDistribution := b'.daysSinceOnsetOfSymptomsDistribution,
                  hasNotReportTypeCount := b'.hasNotReportTypeCount,
                  hasNotDaysSinceOnsetOfSymptomsCount := b'.hasNotDaysSinceOnsetOfSymptomsCount)
  {
    CountLevelConserves(b, key);
    var b1 := CountLevel(b, key).value;
    CountReportTypeConserves(b1, key);
    var b2 := CountReportType(b1, key).value;
    CountOnsetConserves(b2, key);
  }

  /** The level of a key in the domains is counted once. */
  lemma CountLevelConserves(b: Bucket, key: Key)
    requires HasInitialDomains(b) && 0 <= key.transmissionRiskLevel < 8
    ensures CountLevel(b, key).Ok?
    ensures var b' := CountLevel(b, key).value;
      && HasInitialDomains(b')
      && RangeSum(b'.transmissionRiskLevelDistribution, 0, 8) == RangeSum(b.transmissionRiskLevelDistribution, 0, 8) + 1
      && b' == b.(transmissionRiskLevelDistribution := b'.transmissionRiskLevelDistribution)
  {
    var m, k := b.transmissionRiskLevelDistribution, key.transmissionRiskLevel;
    assert CountLevel(b, key) == Ok(b.(transmissionRiskLevelDistribution := m[k := m[k] + 1]));
    RangeSumBump(m, k, 0, 8);
  }

  /** The report type of a key in the domains, or its absence, is counted
      once. */
  lemma CountReportTypeConserves(b: Bucket, key: Key)
    requires HasInitialDomains(b) && (key.reportType.Some? ==> 0 <= key.reportType.value < 7)
    ensures CountReportType(b, key).Ok?
    ensures var b' := CountReportType(b, key).value;
      && HasInitialDomains(b')
      && RangeSum(b'.reportTypeDistribution, 0, 7) + b'.hasNotReportTypeCount
         == RangeSum(b.reportTypeDistribution, 0, 7) + b.hasNotReportTypeCount + 1
      && b' == b.(reportTypeDistribution := b'.reportTypeDistribution, hasNotReportTypeCount := b'.hasNotReportTypeCount)
  {
    if key.reportType.Some? {
      var m, k := b.reportTypeDistribution, key.reportType.value;
      assert CountReportType(b, key) == Ok(b.(reportTypeDistribution := m[k := m[k] + 1]));
      RangeSumBump(m, k, 0, 7);
    }
  }

  /** The onset day of a key in the domains, or its absence, is counted
      once. */
  lemma CountOnsetConserves(b: Bucket, key: Key)
    requires HasInitialDomains(b)
    requires key.daysSinceOnsetOfSymptoms.Some? ==> -14 <= key.daysSinceOnsetOfSymptoms.value < 15
    ensures CountOnset(b, key).Ok?
    ensures var b' := CountOnset(b, key).value;
      && HasInitialDomains(b')
      && RangeSum(b'.daysSinceOnsetOfSymptomsDistribution, -14, 15) + b'.hasNotDaysSinceOnsetOfSymptomsCount
         == RangeSum(b.daysSinceOnsetOfSymptomsDistribution, -14, 15) + b.hasNotDaysSinceOnsetOfSymptomsCount + 1
      && b' == b.(daysSinceOnsetOfSymptomsDistribution := b'.daysSinceOnsetOfSymptomsDistribution,
                  hasNotDaysSinceOnsetOfSymptomsCount := b'.hasNotDaysSinceOnsetOfSymptomsCount)
  {
    if key.daysSinceOnsetOfSymptoms.Some? {
      var m, k := b.daysSinceOnsetOfSymptomsDistribution, key.daysSinceOnsetOfSymptoms.value;
      assert CountOnset(b, key) == Ok(b.(daysSinceOnsetOfSymptomsDistribution := m[k := m[k] + 1]));
      RangeSumBump(m, k, -14, 15);
    }
  }

  /** The loop over a non-empty list is the loop over all but the last
      element followed by one more step. */
  lemma FoldStepsLast<S, X, E>(step: (S, X) -> Result<S, E>, b: S, xs: seq<X>)
    requires xs != []
    ensures FoldSteps(step, b, xs) ==
      match FoldSteps(step, b, xs[..|xs| - 1])
      case Err(e) => Err(e)
      case Ok(b') => step(b', xs[|xs| - 1])
  {
  }

  /** Every key of `init + [last]` is in the domains exactly when every key
      of `init` is, and `last` is too. */
  lemma AllInDomainSnoc(init: seq<Key>, last: Key)
    ensures (forall i :: 0 <= i < |init + [last]| ==> InDomain((init + [last])[i]))
        <==> (forall i :: 0 <= i < |init| ==> InDomain(init[i])) && InDomain(last)
  {
    assert forall i :: 0 <= i < |init| ==> (init + [last])[i] == init[i];
    assert (init + [last])[|init|] == last;
  }

  /** Number of keys whose key data is 16 bytes long. */
  function ValidCount(keys: seq<Key>): (n: nat)
    ensures n <= |keys|
    decreases |keys|
  {
    if keys == [] then 0
    else ValidCount(keys[..|keys| - 1]) + (if |keys[|keys| - 1].keyData| == 16 then 1 else 0)
  }

  /** One pass of the loop keeps the bookkeeping: it fails exactly on a key
      out of the domains, and otherwise counts the key once, as valid
      exactly when its key data is 16 bytes, and leaves that key's comment. */
  lemma TallyConserves(b: Bucket, key: Key)
    requires Conserved(b)
    ensures Tally(b, key).Ok? <==> InDomain(key)
    ensures Tally(b, key).Err? ==> Tally(b, key).error == FirstKeyError(key)
    ensures Tally(b, key).Ok? ==> var b' := Tally(b, key).value;
      && Conserved(b')
      && b'.keyCount == b.keyCount + 1
      && b'.validKeyCount == b.validKeyCount + (if |key.keyData| == 16 then 1 else 0)
      && b'.created == b.created && b'.rollingStartIntervalNumber == b.rollingStartIntervalNumber
      && b'.comment == Some(CommentOf(key))
  {
    var c := CountChecks(b, key);
    CountChecksEffect(b, key);
    assert HasInitialDomains(c);
    CountHistogramsKeyError(c, key);
    if InDomain(key) {
      CountHistogramsConserves(c, key);
    }
  }

  /** The loop of `_statistics_keys` from a bucket that keeps the
      bookkeeping: it gets through exactly when every key is in the
      domains, and then has counted every key once, the 16-byte ones as
      valid, and holds the comment of the last key. */
  lemma {:induction false} FoldKeysConserves(b: Bucket, keys: seq<Key>)
    requires Conserved(b)
    ensures FoldKeys(b, keys).Ok? <==> forall i :: 0 <= i < |keys| ==> InDomain(keys[i])
    ensures FoldKeys(b, keys).Ok? ==> var b' := FoldKeys(b, keys).value;
      && Conserved(b')
      && b'.keyCount == b.keyCount + |keys|
      && b'.validKeyCount == b.validKeyCount + ValidCount(keys)
      && b'.created == b.created && b'.rollingStartIntervalNumber == b.rollingStartIntervalNumber
      && b'.comment == (if keys == [] then b.comment else Some(CommentOf(keys[|keys| - 1])))
    decreases |keys|
  {
    if keys != [] {
      var init := keys[..|keys| - 1];
      var last := keys[|keys| - 1];
      FoldKeysConserves(b, init);
      FoldStepsLast(Tally, b, keys);
      AllInDomainSnoc(init, last);
      assert keys == init + [last];
      if FoldKeys(b, init).Ok? {
        var mid := FoldKeys(b, init).value;
        TallyConserves(mid, last);
        assert FoldKeys(b, keys) == Tally(mid, last);
      } else {
        assert FoldKeys(b, keys).Err?;
      }
    }
  }

  /** The first key out of the domains ends the loop with its KeyError. */
  lemma {:induction false} FoldKeysError(b: Bucket, keys: seq<Key>)
    requires Conserved(b)
    ensures FoldKeys(b, keys).Err? ==>
      exists i :: (&& 0 <= i < |keys| && !InDomain(keys[i])
                   && (forall j :: 0 <= j < i ==> InDomain(keys[j]))
                   && FoldKeys(b, keys).error == FirstKeyError(keys[i]))
    decreases |keys|
  {
    if keys != [] {
      var init := keys[..|keys| - 1];
      var last := keys[|keys| - 1];
      FoldKeysError(b, init);
      FoldKeysConserves(b, init);
      FoldStepsLast(Tally, b, keys);
      assert forall i :: 0 <= i < |init| ==> init[i] == keys[i];
      if FoldKeys(b, init).Ok? {
        var mid := FoldKeys(b, init).value;
        TallyConserves(mid, last);
        assert FoldKeys(b, keys) == Tally(mid, last);
        if Tally(mid, last).Err? {
          assert !InDomain(keys[|keys| - 1]);
        }
      } else {
        assert FoldKeys(b, keys) == FoldKeys(b, init);
      }
    }
  }

  /** What `_statistics_keys` returns for one bucket: a KeyError exactly
      when a key is out of the domains, and otherwise the bucket of
      `created` and the interval number, with every key counted once in
      `key_count`, in each histogram and in the valid or invalid counter. */
  lemma StatisticsKeysCounts(created: int, rollingStartIntervalNumber: int, keys: seq<Key>)
    ensures var r := StatisticsKeysOf(created, rollingStartIntervalNumber, keys);
      && (r.Ok? <==> forall i :: 0 <= i < |keys| ==> InDomain(keys[i]))
      && (r.Ok? ==>
            && Conserved(r.value)
            && r.value.created == created && r.value.rollingStartIntervalNumber == rollingStartIntervalNumber
            && r.value.keyCount == |keys|
            && r.value.validKeyCount == ValidCount(keys)
            && r.value.invalidKeyDataCount == |keys| - ValidCount(keys))
  {
    InitialBucketConserved(created, rollingStartIntervalNumber);
    FoldKeysConserves(InitialBucket(created, rollingStartIntervalNumber), keys);
  }

  /** Every key of the list is in the domains. */
  predicate AllInDomain(keys: seq<Key>)
  {
    forall i :: 0 <= i < |keys| ==> InDomain(keys[i])
  }

  lemma AllInDomainAppend(a: seq<Key>, b: seq<Key>)
    ensures AllInDomain(a + b) <==> AllInDomain(a) && AllInDomain(b)
  {
    assert forall i :: 0 <= i < |a| ==> (a + b)[i] == a[i];
    assert forall i :: 0 <= i < |b| ==> (a + b)[|a| + i] == b[i];
  }

  /** The keys of a list of tasks, in order. */
  function AllKeys(tasks: seq<Task>): seq<Key>
  {
    if tasks == [] then [] else tasks[0].keys + AllKeys(tasks[1..])
  }

  /** The keys counted in a list of buckets, added up. */
  function TotalKeyCount(buckets: seq<Bucket>): int
  {
    if buckets == [] then 0 else buckets[0].keyCount + TotalKeyCount(buckets[1..])
  }

  lemma {:induction false} AllKeysAppend(a: seq<Task>, b: seq<Task>)
    ensures AllKeys(a + b) == AllKeys(a) + AllKeys(b)
    decreases |a|
  {
    if a == [] {
      assert a + b == b;
    } else {
      assert (a + b)[0] == a[0] && (a + b)[1..] == a[1..] + b;
      AllKeysAppend(a[1..], b);
    }
  }

  lemma {:induction false} ChainKeysAppend(a: seq<Entry>, b: seq<Entry>)
    ensures ChainKeys(a + b) == ChainKeys(a) + ChainKeys(b)
    decreases |a|
  {
    if a == [] {
      assert a + b == b;
    } else {
      assert (a + b)[0] == a[0] && (a + b)[1..] == a[1..] + b;
      ChainKeysAppend(a[1..], b);
    }
  }

  /** The tasks of the runs of a list of keys hold those keys, in order. */
  lemma {:induction false} AllKeysOfRuns(created: int, runs: seq<seq<Key>>)
    requires forall i :: 0 <= i < |runs| ==> runs[i] != []
    ensures AllKeys(TasksOfRuns(created, runs)) == Flatten(runs)
    decreases |runs|
  {
    if runs != [] {
      var tasks := TasksOfRuns(created, runs);
      AllKeysOfRuns(created, runs[1..]);
      assert tasks[1..] == TasksOfRuns(created, runs[1..]);
    }
  }

  /** The tasks of one run of entries hold the chained keys of the run, in
      order: the inner `groupby` loses and repeats nothing. */
  lemma GroupTasksKeys(group: seq<Entry>)
    requires group != []
    ensures AllKeys(GroupTasks(group)) == ChainKeys(group)
  {
    var runs := GroupRuns(ChainKeys(group), RollingStartIntervalNumberOf);
    GroupRunsPartition(ChainKeys(group), RollingStartIntervalNumberOf);
    AllKeysOfRuns(group[0].created, runs);
  }

  lemma {:induction false} AllKeysOfGroups(groups: seq<seq<Entry>>)
    requires forall i :: 0 <= i < |groups| ==> groups[i] != []
    ensures AllKeys(Flatten(TasksOfGroups(groups))) == ChainKeys(Flatten(groups))
    decreases |groups|
  {
    if groups != [] {
      var rows := TasksOfGroups(groups);
      assert rows[1..] == TasksOfGroups(groups[1..]);
      AllKeysOfGroups(groups[1..]);
      AllKeysAppend(rows[0], Flatten(rows[1..]));
      GroupTasksKeys(groups[0]);
      ChainKeysAppend(groups[0], Flatten(groups[1..]));
    }
  }

  /** The calls `_statistics` makes hold every primary key of every entry,
      once and in order. */
  lemma PlanKeys(entries: seq<Entry>)
    ensures AllKeys(Plan(entries)) == ChainKeys(entries)
  {
    GroupRunsPartition(entries, CreatedOf);
    AllKeysOfGroups(GroupRuns(entries, CreatedOf));
  }

  /** Running a list of tasks fails exactly when one of their keys is out
      of the domains; otherwise every bucket keeps the bookkeeping and the
      buckets count every key once. */
  lemma {:induction false} RunAllCounts(tasks: seq<Task>)
    ensures RunAll(tasks).Ok? <==> AllInDomain(AllKeys(tasks))
    ensures RunAll(tasks).Ok? ==>
      && TotalKeyCount(RunAll(tasks).value) == |AllKeys(tasks)|
      && forall i :: 0 <= i < |RunAll(tasks).value| ==> Conserved(RunAll(tasks).value[i])
    decreases |tasks|
  {
    if tasks != [] {
      var t := tasks[0];
      RunAllCons(tasks);
      RunAllCounts(tasks[1..]);
      StatisticsKeysCounts(t.created, t.rollingStartIntervalNumber, t.keys);
      AllInDomainAppend(t.keys, AllKeys(tasks[1..]));
    }
  }

  /** The first task runs first; the rest run only when it succeeds. */
  lemma RunAllCons(tasks: seq<Task>)
    requires tasks != []
    ensures RunAll(tasks).Ok? <==> RunTask(tasks[0]).Ok? && RunAll(tasks[1..]).Ok?
    ensures RunAll(tasks).Ok? ==>
      && RunAll(tasks).value != []
      && RunAll(tasks).value[0] == RunTask(tasks[0]).value
      && RunAll(tasks).value[1..] == RunAll(tasks[1..]).value
  {
    var results := RunTasks(tasks);
    assert results[1..] == RunTasks(tasks[1..]);
    if RunAll(tasks).Ok? {
      var rest := RunAll(tasks[1..]).value;
      assert ([RunTask(tasks[0]).value] + rest)[1..] == rest;
    }
  }

  /** What `_statistics` returns: a KeyError exactly when some primary key
      of some entry is out of the domains; otherwise buckets that keep the
      bookkeeping and together count every primary key once. */
  lemma StatisticsCountsEveryKey(entries: seq<Entry>)
    ensures StatisticsOf(entries).Ok? <==> AllInDomain(ChainKeys(entries))
    ensures StatisticsOf(entries).Ok? ==>
      && TotalKeyCount(StatisticsOf(entries).value) == |ChainKeys(entries)|
      && forall i :: 0 <= i < |StatisticsOf(entries).value| ==> Conserved(StatisticsOf(entries).value[i])
  {
    PlanKeys(entries);
    RunAllCounts(Plan(entries));
  }

  /** The tasks of one run of entries: all carry the run's `created`, each
      holds a non-empty run of keys of its own interval number, and two
      adjacent tasks have different interval numbers. */
  lemma GroupTasksShape(group: seq<Entry>)
    requires group != []
    ensures var tasks := GroupTasks(group);
      && (forall i :: 0 <= i < |tasks| ==> tasks[i].created == group[0].created && tasks[i].keys != [])
      && (forall i, j :: 0 <= i < |tasks| && 0 <= j < |tasks[i].keys| ==>
            tasks[i].keys[j].rollingStartIntervalNumber == tasks[i].rollingStartIntervalNumber)
      && (forall i :: 0 <= i < |tasks| - 1 ==> tasks[i].rollingStartIntervalNumber != tasks[i + 1].rollingStartIntervalNumber)
  {
    GroupRunsPartition(ChainKeys(group), RollingStartIntervalNumberOf);
  }

  /** `write_to_csv` over a list of buckets fails exactly when one row
      does, and otherwise gives one row per bucket, in the same order. */
  lemma WriteRowsMeaning(buckets: seq<Bucket>)
    ensures WriteRows(buckets).Ok? <==> forall i :: 0 <= i < |buckets| ==> CsvRow(buckets[i]).Ok?
    ensures WriteRows(buckets).Ok? ==>
      |WriteRows(buckets).value| == |buckets|
      && forall i :: 0 <= i < |buckets| ==> WriteRows(buckets).value[i] == CsvRow(buckets[i]).value
  {
    MapStepsMeaning(CsvRow, buckets);
  }

  /** A failing write stops at the first bucket whose row cannot be
      written: the header and the rows of the buckets before it are
      already in the file, which is left truncated. */
  lemma WriteRowsTruncated(buckets: seq<Bucket>)
    ensures WriteRows(buckets).Err? ==>
      exists j :: && 0 <= j < |buckets|
                  && WriteRows(buckets[..j]).Ok?
                  && |WriteRows(buckets[..j]).value| == j
                  && (forall i :: 0 <= i < j ==> CsvRow(buckets[i]).Ok? && WriteRows(buckets[..j]).value[i] == CsvRow(buckets[i]).value)
                  && CsvRow(buckets[j]).Err?
                  && WriteRows(buckets).error == CsvRow(buckets[j]).error
  {
    MapStepsTruncated(CsvRow, buckets);
  }

  /** The labels of the level columns against the level dictionary: the
      header's level names 5 and 6 say "negative case" and "recursive
      case", while the dictionary names levels 5 and 6 "Self report" and
      "Negative case" and gives the recursive case level 7. */
  lemma LevelLabels()
    ensures LevelHeader()[5] == "transmission_risk_level_negative_case_count"
    ensures LevelHeader()[6] == "transmission_risk_level_recursive_case_count"
    ensures TransmissionRiskLevelName(5) == Some("Self report")
    ensures TransmissionRiskLevelName(6) == Some("Negative case")
    ensures TransmissionRiskLevelName(7) == Some("Recursive case")
  {
  }

  /** The header labels columns 16 and 17 (level names 5 and 6, placed by
      CsvHeaderLevelColumns) "negative case" and "recursive case", but the
      row puts the counts of levels 5 and 6 there, which the level
      dictionary names "Self report" and "Negative case"; the recursive
      case is level 7, whose count is never written, and no column is
      labelled self report. */
  lemma LevelColumnsMislabelled(b: Bucket)
    requires CsvRow(b).Ok?
    ensures LevelHeader()[5] == "transmission_risk_level_negative_case_count"
    ensures LevelHeader()[6] == "transmission_risk_level_recursive_case_count"
    ensures CsvRow(b).value[11 + 5] == IntCell(b.transmissionRiskLevelDistribution[5])
    ensures CsvRow(b).value[11 + 6] == IntCell(b.transmissionRiskLevelDistribution[6])
    ensures TransmissionRiskLevelName(5) == Some("Self report")
    ensures TransmissionRiskLevelName(6) == Some("Negative case")
    ensures TransmissionRiskLevelName(7) == Some("Recursive case")
  {
    LevelLabels();
    CsvRowLevelCells(b);
  }

  /** The whole conversion: it succeeds exactly when every primary key is
      in the histogram domains and every bucket's date can be rendered; the
      report then holds one row per bucket of `_statistics`, in traversal
      order, and those buckets count every primary key once. */
  lemma ConvertReport(entries: seq<Entry>)
    ensures Convert(entries).Ok? <==>
      && AllInDomain(ChainKeys(entries))
      && StatisticsOf(entries).Ok?
      && forall i :: 0 <= i < |StatisticsOf(entries).value| ==> CsvRow(StatisticsOf(entries).value[i]).Ok?
    ensures Convert(entries).Ok? ==>
      var buckets := StatisticsOf(entries).value;
      && |Convert(entries).value| == |buckets|
      && (forall i :: 0 <= i < |buckets| ==> Convert(entries).value[i] == CsvRow(buckets[i]).value)
      && TotalKeyCount(buckets) == |ChainKeys(entries)|
  {
    StatisticsCountsEveryKey(entries);
    if StatisticsOf(entries).Ok? {
      WriteRowsMeaning(StatisticsOf(entries).value);
    }
  }

  /** The export header is 16 bytes long and is exactly what is skipped. */
  lemma StripHeaderDropsHeader(header: seq<bv8>, payload: seq<bv8>)
    requires |header| == |BinHeader|
    ensures StripHeader(header + payload) == payload
  {
    if payload != [] {
      assert (header + payload)[BinHeaderBytesLength..] == payload;
    }
  }

  /** The text before the first quote. */
  function BeforeQuote(s: string): string
  {
    if s == [] || s[0] == '\'' then [] else [s[0]] + BeforeQuote(s[1..])
  }

  /** A text without quotes is what comes before the first quote of itself
      followed by a quoted rest. */
  lemma {:induction false} BeforeQuoteOf(x: string, u: string)
    requires '\'' !in x
    requires u != [] && u[0] == '\''
    ensures BeforeQuote(x + u) == x
    decreases |x|
  {
    if x == [] {
      assert x + u == u;
    } else {
      assert (x + u)[0] == x[0] && (x + u)[1..] == x[1..] + u;
      BeforeQuoteOf(x[1..], u);
    }
  }

  /** Base 64 text never holds a quote. */
  lemma EncodeHasNoQuote(b: seq<bv8>)
    ensures '\'' !in Base64.Encode(b)
  {
    Base64.EncodeAlphabet(b);
    assert Base64.SextetValue('\'') == None;
  }

  lemma CancelPrefix<T>(p: seq<T>, x: seq<T>, y: seq<T>)
    requires p + x == p + y
    ensures x == y
  {
    assert x == (p + x)[|p|..];
    assert y == (p + y)[|p|..];
  }

  lemma Regroup<T>(p: seq<T>, e: seq<T>, q: seq<T>, d: seq<T>, r: seq<T>)
    ensures p + e + q + d + r == p + (e + (q + d + r))
  {
  }

  /** The key-data message names the key data: two keys with the same
      message have the same bytes. */
  lemma KeyDataMessageInjective(a: seq<bv8>, b: seq<bv8>)
    requires KeyDataMessage(a) == KeyDataMessage(b)
    ensures a == b
  {
    var p, q, r := "key_data b'", "' length ", " is invalid.";
    var ea, eb := Base64.Encode(a), Base64.Encode(b);
    var ua, ub := q + IntToDecimal(|a|) + r, q + IntToDecimal(|b|) + r;
    Regroup(p, ea, q, IntToDecimal(|a|), r);
    Regroup(p, eb, q, IntToDecimal(|b|), r);
    CancelPrefix(p, ea + ua, eb + ub);
    assert ua[0] == q[0] && ub[0] == q[0];
    EncodeHasNoQuote(a);
    EncodeHasNoQuote(b);
    BeforeQuoteOf(ea, ua);
    BeforeQuoteOf(eb, ub);
    Base64.DecodeEncode(a);
    Base64.DecodeEncode(b);
  }

  /** The bucket the unit test of `write_to_csv` fills in by hand: the
      identifiers 1 and 2, the counters 3 to 10, level `k` counted
      `100 + k` times, report type `k < 6` counted `1000 + k` times and
      onset day `d` counted `10000 + d` times. */
  ghost predicate IsTestBucket(b: Bucket)
  {
    && b.created == 1 && b.rollingStartIntervalNumber == 2
    && b.keyCount == 3 && b.invalidTransmissionRiskLevelKeyCount == 4
    && b.invalidReportTypeKeyCount == 5 && b.invalidDaysSinceOnsetOfSymptomsKeyCount == 6
    && b.invalidKeyDataCount == 7 && b.validKeyCount == 8
    && b.hasNotDaysSinceOnsetOfSymptomsCount == 9 && b.hasNotReportTypeCount == 10
    && (forall k :: 0 <= k < 8 ==> k in b.transmissionRiskLevelDistribution && b.transmissionRiskLevelDistribution[k] == 100 + k)
    && (forall k :: 0 <= k < 6 ==> k in b.reportTypeDistribution && b.reportTypeDistribution[k] == 1000 + k)
    && (forall d :: -14 <= d < 15 ==> d in b.daysSinceOnsetOfSymptomsDistribution && b.daysSinceOnsetOfSymptomsDistribution[d] == 10000 + d)
  }

  lemma TestYearText()
    ensures NatToDecimal(1970) == "1970"
  {
    assert NatToDecimal(19) == "19";
    assert NatToDecimal(197) == "197";
  }

  /** Interval 2 is 09:20 on the first day of 1970 in Tokyo. */
  lemma TestBucketDate()
    ensures RollingStartIntervalNumberToDate(2) == Ok(DateTime(Date(1970, 1, 1), 9, 20, 0))
  {
    var t := DateTime(Date(1970, 1, 1), 9, 20, 0);
    assert DayNumber(t.date) == 0;
    assert SecondsOf(t) == 2 * EnIntervalWindow + JstOffsetSeconds;
    DateTimeOfSeconds(t);
  }

  lemma TestBucketDateText()
    ensures Strftime(DateTime(Date(1970, 1, 1), 9, 20, 0)) == "1970-01-01T09:20:00.000000+0900"
  {
    var t := DateTime(Date(1970, 1, 1), 9, 20, 0);
    TestYearText();
    TestClockText();
    TestTimestampJoin();
  }

  lemma TestClockText()
    ensures ClockText(DateTime(Date(1970, 1, 1), 9, 20, 0)) == "-01-01T09:20:00.000000+0900"
  {
    assert TwoDigits(1) == "01" && TwoDigits(9) == "09" && TwoDigits(20) == "20" && TwoDigits(0) == "00";
  }

  lemma TestTimestampJoin()
    ensures "1970" + "-01-01T09:20:00.000000+0900" == "1970-01-01T09:20:00.000000+0900"
  {
  }

  /** The row of that bucket holds the values the unit test expects, in the
      same order, up to the comment column the model does not write. */
  lemma TestBucketRow(b: Bucket)
    requires IsTestBucket(b)
    ensures CsvRow(b).Ok?
    ensures var row := CsvRow(b).value;
      && |row| == 53
      && row[..11] == [IntCell(1), IntCell(2), TextCell("1970-01-01T09:20:00.000000+0900"), IntCell(3), IntCell(8),
                       IntCell(7), IntCell(4), IntCell(5), IntCell(6), IntCell(10), IntCell(9)]
      && (forall i :: 11 <= i < 18 ==> row[i] == IntCell(89 + i))
      && (forall i :: 18 <= i < 24 ==> row[i] == IntCell(982 + i))
      && (forall i :: 24 <= i < 53 ==> row[i] == IntCell(9962 + i))
  {
    TestBucketDate();
    TestBucketDateText();
    var row := CsvRow(b).value;
    CsvRowLead(b);
    CsvRowLevelCells(b);
    TestBucketLevels(b, row);
    CsvRowTypeCells(b);
    TestBucketTypes(b, row);
    CsvRowOnsetCells(b);
    TestBucketDays(b, row);
  }

  lemma TestBucketLevels(b: Bucket, row: seq<Cell>)
    requires IsTestBucket(b) && |row| == 53
    requires forall k :: 0 <= k < 7 ==> row[11 + k] == IntCell(b.transmissionRiskLevelDistribution[k])
    ensures forall i :: 11 <= i < 18 ==> row[i] == IntCell(89 + i)
  {
    forall i | 11 <= i < 18 ensures row[i] == IntCell(89 + i) {
      assert row[11 + (i - 11)] == IntCell(b.transmissionRiskLevelDistribution[i - 11]);
    }
  }

  lemma TestBucketTypes(b: Bucket, row: seq<Cell>)
    requires IsTestBucket(b) && |row| == 53
    requires forall k :: 0 <= k < 6 ==> row[18 + k] == IntCell(b.reportTypeDistribution[k])
    ensures forall i :: 18 <= i < 24 ==> row[i] == IntCell(982 + i)
  {
    forall i | 18 <= i < 24 ensures row[i] == IntCell(982 + i) {
      assert row[18 + (i - 18)] == IntCell(b.reportTypeDistribution[i - 18]);
    }
  }

  lemma TestBucketDays(b: Bucket, row: seq<Cell>)
    requires IsTestBucket(b) && |row| == 53
    requires forall d :: -14 <= d <= 14 ==> row[38 + d] == IntCell(b.daysSinceOnsetOfSymptomsDistribution[d])
    ensures forall i :: 24 <= i < 53 ==> row[i] == IntCell(9962 + i)
  {
    forall i | 24 <= i < 53 ensures row[i] == IntCell(9962 + i) {
      assert row[38 + (i - 38)] == IntCell(b.daysSinceOnsetOfSymptomsDistribution[i - 38]);
    }
  }
}
