/** `SummaryUtils`: per-period call summaries for the dashboard. The records are
    grouped by a period key, each group is summarised, and the summaries are
    listed in descending order of their label. The calendar (time zone, local
    date, week fields) is a parameter: the key function. */
module SummaryUtils {
  import opened Wrappers
  import opened Text
  import opened Domain

  datatype SummaryMetrics = SummaryMetrics(periodLabel: string, totalCalls: nat, answered: nat, missed: nat,
                                           suspicious: nat, blocked: nat, warned: nat,
                                           avgConfidence: real)

  /** The marker for "no suspicious call, no average". */
  const NO_AVERAGE: real := -1.0

  // ------------------------------------------------------------ counting

  /** `lastDetection?.isDeepfake == true`. */
  predicate Suspicious(r: CallRecord) {
    LastDetection(r).Some? && LastDetection(r).value.isDeepfake
  }

  function CountStatus(rs: seq<CallRecord>, s: CallStatus): (n: nat)
    ensures n <= |rs|
  {
    if |rs| == 0 then 0 else (if rs[0].status == s then 1 else 0) + CountStatus(rs[1..], s)
  }

  function CountSuspicious(rs: seq<CallRecord>): (n: nat)
    ensures n <= |rs|
  {
    if |rs| == 0 then 0 else (if Suspicious(rs[0]) then 1 else 0) + CountSuspicious(rs[1..])
  }

  /** Suspicious calls that were not blocked. */
  function CountWarned(rs: seq<CallRecord>): nat {
    if |rs| == 0 then 0
    else (if Suspicious(rs[0]) && rs[0].status != Blocked then 1 else 0) + CountWarned(rs[1..])
  }

  /** Suspicious calls that were blocked. */
  function CountSuspiciousBlocked(rs: seq<CallRecord>): nat {
    if |rs| == 0 then 0
    else (if Suspicious(rs[0]) && rs[0].status == Blocked then 1 else 0) + CountSuspiciousBlocked(rs[1..])
  }

  /** The probabilities of the suspicious calls' last detections, in order. */
  function Confidences(rs: seq<CallRecord>): (cs: seq<real>)
    ensures |cs| == CountSuspicious(rs)
  {
    if |rs| == 0 then []
    else (if Suspicious(rs[0]) then [LastDetection(rs[0]).value.probability] else []) + Confidences(rs[1..])
  }

  function Sum(xs: seq<real>): real {
    if |xs| == 0 then 0.0 else xs[0] + Sum(xs[1..])
  }

  /** Every last detection's probability lies in [0, 1]. */
  predicate ProbabilitiesInRange(rs: seq<CallRecord>) {
    forall i :: 0 <= i < |rs| && LastDetection(rs[i]).Some? ==>
      0.0 <= LastDetection(rs[i]).value.probability <= 1.0
  }

  /** Warned and suspicious-blocked calls split the suspicious ones. */
  lemma {:induction false} WarnedSplitsSuspicious(rs: seq<CallRecord>)
    ensures CountWarned(rs) + CountSuspiciousBlocked(rs) == CountSuspicious(rs)
    ensures CountSuspiciousBlocked(rs) <= CountStatus(rs, Blocked)
  {
    if |rs| > 0 {
      WarnedSplitsSuspicious(rs[1..]);
    }
  }

  /** Answered, missed and blocked calls are distinct statuses, so they add up to
      at most the total. */
  lemma {:induction false} StatusCountsBounded(rs: seq<CallRecord>)
    ensures CountStatus(rs, Completed) + CountStatus(rs, Dropped) + CountStatus(rs, Blocked) <= |rs|
  {
    if |rs| > 0 {
      StatusCountsBounded(rs[1..]);
    }
  }

  /** A sum of values in [0, 1] lies between 0 and their number. */
  lemma {:induction false} ConfidencesBounded(rs: seq<CallRecord>)
    ensures ProbabilitiesInRange(rs) ==> 0.0 <= Sum(Confidences(rs)) <= |Confidences(rs)| as real
  {
    if |rs| > 0 && ProbabilitiesInRange(rs) {
      assert ProbabilitiesInRange(rs[1..]) by {
        forall i | 0 <= i < |rs[1..]| && LastDetection(rs[1..][i]).Some?
          ensures 0.0 <= LastDetection(rs[1..][i]).value.probability <= 1.0
        {
          assert rs[1..][i] == rs[i + 1];
        }
      }
      ConfidencesBounded(rs[1..]);
      var head := if Suspicious(rs[0]) then [LastDetection(rs[0]).value.probability] else [];
      assert Confidences(rs) == head + Confidences(rs[1..]);
      SumAppend(head, Confidences(rs[1..]));
    }
  }

  lemma {:induction false} SumAppend(xs: seq<real>, ys: seq<real>)
    ensures Sum(xs + ys) == Sum(xs) + Sum(ys)
  {
    if |xs| > 0 {
      assert (xs + ys)[1..] == xs[1..] + ys;
      SumAppend(xs[1..], ys);
    } else {
      assert xs + ys == ys;
    }
  }

  /** The mean of a total between 0 and the count lies in [0, 1]. */
  lemma MeanBounds(total: real, count: nat)
    ensures count > 0 ==> (total / count as real) * count as real == total
    ensures count > 0 && 0.0 <= total <= count as real ==> 0.0 <= total / count as real <= 1.0
  {
  }

  /** `confidences.average()`, or -1 when there are no suspicious calls. */
  function MeanConfidence(rs: seq<CallRecord>): (avg: real)
    ensures CountSuspicious(rs) == 0 ==> avg == NO_AVERAGE
    ensures CountSuspicious(rs) > 0 ==> avg * CountSuspicious(rs) as real == Sum(Confidences(rs))
    ensures ProbabilitiesInRange(rs) && CountSuspicious(rs) > 0 ==> 0.0 <= avg <= 1.0
  {
    var confidences := Confidences(rs);
    if |confidences| > 0 then
      ConfidencesBounded(rs);
      MeanBounds(Sum(confidences), |confidences|);
      Sum(confidences) / |confidences| as real
    else
      NO_AVERAGE
  }

  /** `summarizeRecords`: the counts of one group, with an empty label and the mean
      confidence of its suspicious calls (-1 when there is none). */
  function SummarizeRecords(rs: seq<CallRecord>): (m: SummaryMetrics)
    ensures m.periodLabel == "" && m.totalCalls == |rs|
    ensures m.answered + m.missed + m.blocked <= m.totalCalls
    ensures m.warned <= m.suspicious <= m.totalCalls
    ensures m.suspicious - m.blocked <= m.warned
    ensures m.suspicious == 0 ==> m.avgConfidence == NO_AVERAGE
    ensures m.suspicious > 0 ==> m.avgConfidence * m.suspicious as real == Sum(Confidences(rs))
    ensures ProbabilitiesInRange(rs) ==> (m.avgConfidence == NO_AVERAGE <==> m.suspicious == 0)
    ensures m.suspicious > 0 && ProbabilitiesInRange(rs) ==> 0.0 <= m.avgConfidence <= 1.0
  {
    StatusCountsBounded(rs);
    WarnedSplitsSuspicious(rs);
    SummaryMetrics("", |rs|, CountStatus(rs, Completed), CountStatus(rs, Dropped), CountSuspicious(rs),
                   CountStatus(rs, Blocked), CountWarned(rs), MeanConfidence(rs))
  }

  // ------------------------------------------------------------ grouping

  /** The distinct keys of the records in order of first occurrence, as the
      `LinkedHashMap` built by `groupBy` iterates them. */
  function Keys<K(==)>(rs: seq<CallRecord>, key: CallRecord -> K): (ks: seq<K>)
    ensures forall i, j :: 0 <= i < j < |ks| ==> ks[i] != ks[j]
    ensures forall i :: 0 <= i < |rs| ==> key(rs[i]) in ks
  {
    if |rs| == 0 then []
    else
      var front := rs[..|rs| - 1];
      var ks := Keys(front, key);
      var k := key(rs[|rs| - 1]);
      assert forall i :: 0 <= i < |rs| - 1 ==> rs[i] == front[i];
      if k in ks then ks else ks + [k]
  }

  /** The records with key `k`, in their original order. */
  function Group<K(==)>(rs: seq<CallRecord>, key: CallRecord -> K, k: K): (g: seq<CallRecord>)
    ensures |g| <= |rs|
  {
    if |rs| == 0 then []
    else Group(rs[..|rs| - 1], key, k) + (if key(rs[|rs| - 1]) == k then [rs[|rs| - 1]] else [])
  }

  lemma {:induction false} GroupOfAbsentKey<K>(rs: seq<CallRecord>, key: CallRecord -> K, k: K)
    requires k !in Keys(rs, key)
    ensures Group(rs, key, k) == []
  {
    if |rs| > 0 {
      var front := rs[..|rs| - 1];
      assert key(rs[|rs| - 1]) in Keys(rs, key);
      assert k !in Keys(front, key);
      GroupOfAbsentKey(front, key, k);
    }
  }

  /** The sizes of the groups of `ks`, added up. */
  function GroupTotal<K(==)>(ks: seq<K>, rs: seq<CallRecord>, key: CallRecord -> K): nat {
    if |ks| == 0 then 0 else GroupTotal(ks[..|ks| - 1], rs, key) + |Group(rs, key, ks[|ks| - 1])|
  }

  predicate Distinct<K(==)>(ks: seq<K>) {
    forall i, j :: 0 <= i < j < |ks| ==> ks[i] != ks[j]
  }

  /** One more record adds one to the group total exactly when its key is listed. */
  lemma {:induction false} GroupTotalAddRecord<K>(ks: seq<K>, rs: seq<CallRecord>, key: CallRecord -> K,
                                                      r: CallRecord)
    requires Distinct(ks)
    ensures GroupTotal(ks, rs + [r], key) == GroupTotal(ks, rs, key) + (if key(r) in ks then 1 else 0)
  {
    if |ks| > 0 {
      var front := ks[..|ks| - 1];
      var k := ks[|ks| - 1];
      assert Distinct(front);
      GroupTotalAddRecord(front, rs, key, r);
      assert (rs + [r])[..|rs|] == rs;
      assert key(r) in ks <==> key(r) in front || key(r) == k;
      assert key(r) == k ==> key(r) !in front;
    }
  }

  /** Every record lands in exactly one group: the groups' sizes add up to the
      number of records. */
  lemma {:induction false} GroupsCoverRecords<K>(rs: seq<CallRecord>, key: CallRecord -> K)
    ensures GroupTotal(Keys(rs, key), rs, key) == |rs|
  {
    if |rs| > 0 {
      var front := rs[..|rs| - 1];
      var r := rs[|rs| - 1];
      var ks := Keys(front, key);
      assert rs == front + [r];
      GroupsCoverRecords(front, key);
      GroupTotalAddRecord(ks, front, key, r);
      if key(r) !in ks {
        var ks' := ks + [key(r)];
        assert ks'[..|ks|] == ks;
        GroupOfAbsentKey(front, key, key(r));
      }
    }
  }

  // ------------------------------------------------------------ summaries

  /** One summary together with the key of its group. */
  datatype Row<K> = Row(key: K, metrics: SummaryMetrics)

  /** `grouped.entries.map { ... summarizeRecords(records).copy(label = ...) }`. */
  function Rows<K(==)>(ks: seq<K>, rs: seq<CallRecord>, key: CallRecord -> K, labelOf: K -> string)
    : (rows: seq<Row<K>>)
    ensures |rows| == |ks|
    ensures forall i :: 0 <= i < |ks| ==>
              rows[i] == Row(ks[i], SummarizeRecords(Group(rs, key, ks[i])).(periodLabel := labelOf(ks[i])))
  {
    seq(|ks|, i requires 0 <= i < |ks| =>
                Row(ks[i], SummarizeRecords(Group(rs, key, ks[i])).(periodLabel := labelOf(ks[i]))))
  }

  function SumTotals<K>(rows: seq<Row<K>>): nat {
    if |rows| == 0 then 0 else rows[0].metrics.totalCalls + SumTotals(rows[1..])
  }

  lemma {:induction false} SumTotalsAppend<K>(a: seq<Row<K>>, b: seq<Row<K>>)
    ensures SumTotals(a + b) == SumTotals(a) + SumTotals(b)
  {
    if |a| > 0 {
      assert (a + b)[1..] == a[1..] + b;
      SumTotalsAppend(a[1..], b);
    } else {
      assert a + b == b;
    }
  }

  lemma {:induction false} RowsTotal<K>(ks: seq<K>, rs: seq<CallRecord>, key: CallRecord -> K,
                                            labelOf: K -> string)
    ensures SumTotals(Rows(ks, rs, key, labelOf)) == GroupTotal(ks, rs, key)
  {
    if |ks| > 0 {
      var front := ks[..|ks| - 1];
      var rows := Rows(ks, rs, key, labelOf);
      assert rows == Rows(front, rs, key, labelOf) + [rows[|ks| - 1]];
      RowsTotal(front, rs, key, labelOf);
      SumTotalsAppend(Rows(front, rs, key, labelOf), [rows[|ks| - 1]]);
    }
  }

  // ------------------------------------------------------------ sorting

  /** `String.compareTo(other) <= 0`: character by character, a proper prefix first. */
  predicate StringLe(a: string, b: string) {
    if |a| == 0 then true
    else if |b| == 0 then false
    else if a[0] != b[0] then a[0] < b[0]
    else StringLe(a[1..], b[1..])
  }

  lemma {:induction false} StringLeTotal(a: string, b: string)
    ensures StringLe(a, b) || StringLe(b, a)
  {
    if |a| > 0 && |b| > 0 && a[0] == b[0] {
      StringLeTotal(a[1..], b[1..]);
    }
  }

  lemma {:induction false} StringLeTransitive(a: string, b: string, c: string)
    requires StringLe(a, b) && StringLe(b, c)
    ensures StringLe(a, c)
  {
    if |a| > 0 && |b| > 0 && |c| > 0 && a[0] == b[0] && b[0] == c[0] {
      StringLeTransitive(a[1..], b[1..], c[1..]);
    }
  }

  ghost predicate TotalOrder<T(!new)>(le: (T, T) -> bool) {
    (forall a, b :: le(a, b) || le(b, a))
    && (forall a, b, c :: le(a, b) && le(b, c) ==> le(a, c))
  }

  /** Largest first: no later element is above an earlier one. */
  predicate SortedDescending<T>(s: seq<T>, le: (T, T) -> bool) {
    forall i, j :: 0 <= i < j < |s| ==> le(s[j], s[i])
  }

  /** Inserts `x` before the first element not above it, so equal elements keep
      their order. */
  function Insert<T>(x: T, s: seq<T>, le: (T, T) -> bool): (r: seq<T>)
    ensures |r| == |s| + 1
    ensures multiset(r) == multiset(s) + multiset{x}
  {
    if |s| == 0 then [x]
    else if le(s[0], x) then [x] + s
    else
      assert s == [s[0]] + s[1..];
      [s[0]] + Insert(x, s[1..], le)
  }

  /** `sortedByDescending`: a stable insertion sort, largest first. */
  function SortDescending<T>(xs: seq<T>, le: (T, T) -> bool): (r: seq<T>)
    ensures multiset(r) == multiset(xs)
  {
    if |xs| == 0 then []
    else
      assert xs == [xs[0]] + xs[1..];
      Insert(xs[0], SortDescending(xs[1..], le), le)
  }

  lemma {:induction false} InsertSorted<T(!new)>(x: T, s: seq<T>, le: (T, T) -> bool)
    requires TotalOrder(le) && SortedDescending(s, le)
    ensures SortedDescending(Insert(x, s, le), le)
  {
    if |s| > 0 && !le(s[0], x) {
      assert SortedDescending(s[1..], le);
      InsertSorted(x, s[1..], le);
      var r := Insert(x, s, le);
      assert r == [s[0]] + Insert(x, s[1..], le);
      forall j | 1 <= j < |r| ensures le(r[j], r[0]) {
        assert r[j] in multiset(Insert(x, s[1..], le));
        assert r[j] in multiset(s[1..]) + multiset{x};
        if r[j] != x {
          var k :| 0 <= k < |s[1..]| && s[1..][k] == r[j];
          assert s[k + 1] == r[j];
        }
      }
    }
  }

  lemma {:induction false} SortSorted<T(!new)>(xs: seq<T>, le: (T, T) -> bool)
    requires TotalOrder(le)
    ensures SortedDescending(SortDescending(xs, le), le)
  {
    if |xs| > 0 {
      SortSorted(xs[1..], le);
      InsertSorted(xs[0], SortDescending(xs[1..], le), le);
    }
  }

  lemma {:induction false} InsertTotal<K>(x: Row<K>, s: seq<Row<K>>, le: (Row<K>, Row<K>) -> bool)
    ensures SumTotals(Insert(x, s, le)) == x.metrics.totalCalls + SumTotals(s)
  {
    if |s| > 0 && !le(s[0], x) {
      InsertTotal(x, s[1..], le);
      assert Insert(x, s, le)[1..] == Insert(x, s[1..], le);
    } else if |s| > 0 {
      assert ([x] + s)[1..] == s;
    }
  }

  lemma {:induction false} SortTotal<K>(xs: seq<Row<K>>, le: (Row<K>, Row<K>) -> bool)
    ensures SumTotals(SortDescending(xs, le)) == SumTotals(xs)
  {
    if |xs| > 0 {
      SortTotal(xs[1..], le);
      InsertTotal(xs[0], SortDescending(xs[1..], le), le);
    }
  }

  // ------------------------------------------------------------ the dashboard lists

  function RowLabelLe<K>(a: Row<K>, b: Row<K>): bool {
    StringLe(a.metrics.periodLabel, b.metrics.periodLabel)
  }

  lemma RowLabelOrder<K(!new)>()
    ensures TotalOrder(RowLabelLe<K>)
  {
    forall a: Row<K>, b: Row<K> ensures RowLabelLe(a, b) || RowLabelLe(b, a) {
      StringLeTotal(a.metrics.periodLabel, b.metrics.periodLabel);
    }
    forall a: Row<K>, b: Row<K>, c: Row<K> | RowLabelLe(a, b) && RowLabelLe(b, c) ensures RowLabelLe(a, c) {
      StringLeTransitive(a.metrics.periodLabel, b.metrics.periodLabel, c.metrics.periodLabel);
    }
  }

  function Metrics<K>(rows: seq<Row<K>>): (ms: seq<SummaryMetrics>)
    ensures |ms| == |rows|
    ensures forall i :: 0 <= i < |rows| ==> ms[i] == rows[i].metrics
  {
    seq(|rows|, i requires 0 <= i < |rows| => rows[i].metrics)
  }

  /** The rows of a summary list, largest label first. */
  function LabelSortedRows<K(==)>(rs: seq<CallRecord>, key: CallRecord -> K, labelOf: K -> string)
    : seq<Row<K>>
  {
    SortDescending(Rows(Keys(rs, key), rs, key, labelOf), RowLabelLe<K>)
  }

  /** `buildDailySummary` and `buildWeeklySummary` share this shape: group by
      `key`, summarise each group under `labelOf(key)`, sort by label, largest first. */
  function BuildSummary<K(==)>(rs: seq<CallRecord>, key: CallRecord -> K, labelOf: K -> string)
    : seq<SummaryMetrics>
  {
    Metrics(LabelSortedRows(rs, key, labelOf))
  }

  /** One summary per distinct key, labels in descending order, and every record
      counted in exactly one summary. */
  lemma BuildSummaryProperties<K(!new)>(rs: seq<CallRecord>, key: CallRecord -> K, labelOf: K -> string)
    ensures var ms := BuildSummary(rs, key, labelOf);
            |ms| == |Keys(rs, key)|
            && (forall i, j :: 0 <= i < j < |ms| ==> StringLe(ms[j].periodLabel, ms[i].periodLabel))
            && SumTotals(LabelSortedRows(rs, key, labelOf)) == |rs|
  {
    var rows := Rows(Keys(rs, key), rs, key, labelOf);
    var sorted := LabelSortedRows(rs, key, labelOf);
    assert |multiset(sorted)| == |multiset(rows)|;
    RowLabelOrder<K>();
    SortSorted(rows, RowLabelLe<K>);
    SortTotal(rows, RowLabelLe<K>);
    RowsTotal(Keys(rs, key), rs, key, labelOf);
    GroupsCoverRecords(rs, key);
  }

  /** `buildDailySummary`: `dayOf` is the record's local start date and `isoDate`
      its `toString()`. */
  function BuildDailySummary<D(==)>(rs: seq<CallRecord>, dayOf: CallRecord -> D, isoDate: D -> string)
    : seq<SummaryMetrics>
  {
    BuildSummary(rs, dayOf, isoDate)
  }

  // ------------------------------------------------------------ weeks

  /** The week-based year and week of year of a record's local start date. */
  datatype WeekKey = WeekKey(year: int, week: int)

  /** `"Week $week of $year"`. */
  function WeekLabel(k: WeekKey): string {
    "Week " + IntToString(k.week) + " of " + IntToString(k.year)
  }

  /** `buildWeeklySummary` as written: the week labels are sorted as strings. */
  function BuildWeeklySummaryAsWritten(rs: seq<CallRecord>, weekOf: CallRecord -> WeekKey): seq<SummaryMetrics> {
    BuildSummary(rs, weekOf, WeekLabel)
  }

  /** Chronological order of weeks. */
  function RowWeekLe(a: Row<WeekKey>, b: Row<WeekKey>): bool {
    a.key.year < b.key.year || (a.key.year == b.key.year && a.key.week <= b.key.week)
  }

  lemma RowWeekOrder()
    ensures TotalOrder(RowWeekLe)
  {
  }

  /** The weekly rows newest week first, as the daily list (whose ISO dates sort
      chronologically) is. */
  function WeeklyRows(rs: seq<CallRecord>, weekOf: CallRecord -> WeekKey): seq<Row<WeekKey>> {
    SortDescending(Rows(Keys(rs, weekOf), rs, weekOf, WeekLabel), RowWeekLe)
  }

  /** `buildWeeklySummary` as evidently intended: newest week first. */
  function BuildWeeklySummary(rs: seq<CallRecord>, weekOf: CallRecord -> WeekKey): seq<SummaryMetrics> {
    Metrics(WeeklyRows(rs, weekOf))
  }

  /** The corrected weekly list is chronological, newest first, and still counts
      every record once. */
  lemma WeeklySummaryNewestFirst(rs: seq<CallRecord>, weekOf: CallRecord -> WeekKey)
    ensures var rows := WeeklyRows(rs, weekOf);
            (forall i, j :: 0 <= i < j < |rows| ==>
               rows[j].key.year < rows[i].key.year
               || (rows[j].key.year == rows[i].key.year && rows[j].key.week <= rows[i].key.week))
            && SumTotals(rows) == |rs|
  {
    var rows := Rows(Keys(rs, weekOf), rs, weekOf, WeekLabel);
    RowWeekOrder();
    SortSorted(rows, RowWeekLe);
    SortTotal(rows, RowWeekLe);
    RowsTotal(Keys(rs, weekOf), rs, weekOf, WeekLabel);
    GroupsCoverRecords(rs, weekOf);
  }

  /** A shared prefix does not change how two strings compare. */
  lemma {:induction false} StringLeCommonPrefix(p: string, a: string, b: string)
    ensures StringLe(p + a, p + b) == StringLe(a, b)
  {
    if |p| > 0 {
      assert (p + a)[1..] == p[1..] + a && (p + b)[1..] == p[1..] + b;
      StringLeCommonPrefix(p[1..], a, b);
    } else {
      assert p + a == a && p + b == b;
    }
  }

  /** "Week 10 of 2024" sorts below "Week 9 of 2024" as a string. */
  lemma Week10LabelBelowWeek9()
    ensures StringLe(WeekLabel(WeekKey(2024, 10)), WeekLabel(WeekKey(2024, 9)))
    ensures !StringLe(WeekLabel(WeekKey(2024, 9)), WeekLabel(WeekKey(2024, 10)))
  {
    var t10 := IntToString(10) + " of " + IntToString(2024);
    var t9 := IntToString(9) + " of " + IntToString(2024);
    assert WeekLabel(WeekKey(2024, 10)) == "Week " + t10;
    assert WeekLabel(WeekKey(2024, 9)) == "Week " + t9;
    assert IntToString(10)[0] == '1' by {
      assert NatToString(10) == NatToString(1) + [DigitChar(0)];
    }
    assert IntToString(9)[0] == '9';
    assert t10[0] == '1' && t9[0] == '9';
    StringLeCommonPrefix("Week ", t10, t9);
    StringLeCommonPrefix("Week ", t9, t10);
  }

  /** Sorting labels as strings puts week 9 above week 10 of the same year, where
      the chronological order puts week 10 first. */
  lemma WeekLabelsMisordered(m: SummaryMetrics)
    ensures var w9 := Row(WeekKey(2024, 9), m.(periodLabel := WeekLabel(WeekKey(2024, 9))));
            var w10 := Row(WeekKey(2024, 10), m.(periodLabel := WeekLabel(WeekKey(2024, 10))));
            SortDescending([w10, w9], RowLabelLe<WeekKey>) == [w9, w10]
            && SortDescending([w10, w9], RowWeekLe) == [w10, w9]
  {
    var w9 := Row(WeekKey(2024, 9), m.(periodLabel := WeekLabel(WeekKey(2024, 9))));
    var w10 := Row(WeekKey(2024, 10), m.(periodLabel := WeekLabel(WeekKey(2024, 10))));
    Week10LabelBelowWeek9();
    assert !RowLabelLe(w9, w10);
    assert [w10, w9][1..] == [w9];
    assert SortDescending([w9], RowLabelLe<WeekKey>) == [w9];
    assert SortDescending([w9], RowWeekLe) == [w9];
    assert Insert(w10, [w9], RowLabelLe<WeekKey>) == [w9] + Insert(w10, [], RowLabelLe<WeekKey>);
  }
}
