/** The in-memory report store: generated reports keyed by id, each owned by the user who
    asked for it. Clock readings are passed in as `Moment` values. */
module Reports {
  import opened Text
  import opened Options

  // ---------------------------------------------------------------------------
  // Clock readings

  /** A reading of the local wall clock, as `datetime.now()` returns it. */
  datatype Moment = Moment(year: nat, month: nat, day: nat, hour: nat, minute: nat, second: nat, microsecond: nat)
  {
    /** A reading with a four-digit year and every field in range. */
    predicate Valid() {
      && 1000 <= year <= 9999 && 1 <= month <= 12 && 1 <= day <= 31
      && hour < 24 && minute < 60 && second < 60 && microsecond < 1000000
    }
  }

  /** `f"{n:0{w}d}"`. */
  function Digits(n: nat, w: nat): string {
    ZeroPad(NatToString(n), w)
  }

  /** `strftime('%Y%m%d')`. */
  function DateStamp(m: Moment): string {
    Digits(m.year, 4) + Digits(m.month, 2) + Digits(m.day, 2)
  }

  function DateText(m: Moment): string {
    Digits(m.year, 4) + "-" + Digits(m.month, 2) + "-" + Digits(m.day, 2)
  }

  function ClockText(m: Moment): string {
    Digits(m.hour, 2) + ":" + Digits(m.minute, 2) + ":" + Digits(m.second, 2)
  }

  /** `isoformat()`: the fraction of a second is left out when it is zero. */
  function IsoFormat(m: Moment): string {
    DateText(m) + "T" + ClockText(m) + (if m.microsecond == 0 then "" else "." + Digits(m.microsecond, 6))
  }

  /** The rank of a reading in the order of its `isoformat()` text: the fields compared
      from the year down, which is how the text of four-digit-year readings compares. */
  function StampOrder(m: Moment): int {
    ((((((m.year * 13 + m.month) * 32 + m.day) * 24 + m.hour) * 60 + m.minute) * 60 + m.second) * 1000000)
      + m.microsecond
  }

  /** Days from 1970-01-01 to the given proleptic Gregorian date. */
  function DaysFromCivil(year: int, month: int, day: int): int {
    var y := if month <= 2 then year - 1 else year;
    var era := y / 400;
    var yearOfEra := y - era * 400;
    var shiftedMonth := if month > 2 then month - 3 else month + 9;
    var dayOfYear := (153 * shiftedMonth + 2) / 5 + day - 1;
    var dayOfEra := yearOfEra * 365 + yearOfEra / 4 - yearOfEra / 100 + dayOfYear;
    era * 146097 + dayOfEra - 719468
  }

  /** Microseconds since 1970-01-01 00:00, the scale on which `datetime` subtracts. */
  function Microseconds(m: Moment): int {
    (((DaysFromCivil(m.year, m.month, m.day) * 24 + m.hour) * 60 + m.minute) * 60 + m.second) * 1000000
      + m.microsecond
  }

  lemma CalendarAnchors()
    ensures DaysFromCivil(1970, 1, 1) == 0
    ensures DaysFromCivil(2000, 3, 1) == 11017
    ensures DaysFromCivil(2024, 1, 1) == 19723
  {
  }

  // ---------------------------------------------------------------------------
  // Reports and their ids

  /** A stored report; `data` is the lookup result the report was made from. */
  datatype Report<D> = Report(id: string, userId: int, reportType: string, timestamp: Moment, data: D, formattedOutput: string)

  /** What `get_report` hands back: the report, or a dictionary holding only an error. */
  datatype Fetched<D> = Found(report: Report<D>) | Failed(error: string)

  const NotFoundError := "Report tidak ditemukan"

  const AccessDeniedError := "Anda tidak memiliki akses ke report ini"

  /** Whether a caller id takes part in the ownership check: Python skips it for `None`
      and for the falsy id `0`, which is how administrators read any report. */
  predicate ChecksOwner(userId: Option<int>) {
    userId.Some? && userId.value != 0
  }

  /** `RPT`, the date, and the serial number zero-padded to at least four digits. */
  function ReportId(now: Moment, serial: nat): (id: string)
    ensures |id| >= 3 + |Digits(serial, 4)| && id[..3] == "RPT"
    ensures id[|id| - |Digits(serial, 4)|..] == Digits(serial, 4)
  {
    "RPT" + DateStamp(now) + Digits(serial, 4)
  }

  /** An id whose characters from the twelfth on are digits. */
  predicate IdShape(id: string) {
    |id| >= 11 && AllDigits(id[11..])
  }

  /** The serial number written at the end of an id. */
  function Serial(id: string): nat
    requires IdShape(id)
  {
    DecimalValue(id[11..])
  }

  /** An id made on a valid date carries its serial number back. */
  lemma IdCarriesSerial(now: Moment, serial: nat)
    requires now.Valid()
    ensures IdShape(ReportId(now, serial)) && Serial(ReportId(now, serial)) == serial
  {
    PaddedWidth(now.year, 4);
    PaddedWidth(now.month, 2);
    PaddedWidth(now.day, 2);
    PaddedNumeralValue(serial, 4);
    assert |"RPT" + DateStamp(now)| == 11;
    assert ReportId(now, serial)[11..] == Digits(serial, 4);
  }

  /** Two different serial numbers never give the same id, whatever the dates. */
  lemma IdsNeverRepeat(a: Moment, b: Moment, m: nat, n: nat)
    requires a.Valid() && b.Valid() && m != n
    ensures ReportId(a, m) != ReportId(b, n)
  {
    IdCarriesSerial(a, m);
    IdCarriesSerial(b, n);
  }

  predicate Distinct<T(==)>(s: seq<T>) {
    forall i, j | 0 <= i < j < |s| :: s[i] != s[j]
  }

  /** `s` without the elements of `gone`, in order. */
  function Retain(s: seq<string>, gone: set<string>): seq<string> {
    if s == [] then []
    else (if s[0] in gone then [] else [s[0]]) + Retain(s[1..], gone)
  }

  lemma {:induction false} RetainMembers(s: seq<string>, gone: set<string>)
    ensures forall x :: x in Retain(s, gone) <==> x in s && x !in gone
    decreases |s|
  {
    if s != [] {
      RetainMembers(s[1..], gone);
      assert forall x :: x in s <==> x == s[0] || x in s[1..];
    }
  }

  lemma {:induction false} RetainNothing(s: seq<string>)
    ensures Retain(s, {}) == s
    decreases |s|
  {
    if s != [] {
      RetainNothing(s[1..]);
      assert s == [s[0]] + s[1..];
    }
  }

  lemma {:induction false} RetainDistinct(s: seq<string>, gone: set<string>)
    requires Distinct(s)
    ensures Distinct(Retain(s, gone))
    decreases |s|
  {
    if s != [] {
      var rest := Retain(s[1..], gone);
      RetainDistinct(s[1..], gone);
      RetainMembers(s[1..], gone);
      assert s[0] !in s[1..];
      if s[0] in gone {
        assert Retain(s, gone) == rest by {
          assert Retain(s, gone) == [] + rest;
        }
      } else {
        var r := [s[0]] + rest;
        forall i, j | 0 <= i < j < |r| ensures r[i] != r[j] {
          assert r[j] == rest[j - 1];
          if i > 0 {
            assert r[i] == rest[i - 1];
          } else {
            assert rest[j - 1] in rest;
          }
        }
      }
    }
  }

  lemma {:induction false} RetainTwice(s: seq<string>, a: set<string>, b: set<string>)
    ensures Retain(Retain(s, a), b) == Retain(s, a + b)
    decreases |s|
  {
    if s != [] {
      var tail := Retain(s[1..], a);
      if s[0] in a {
        assert Retain(s, a) == tail by {
          assert Retain(s, a) == [] + tail;
        }
        calc {
          Retain(Retain(s, a), b);
          Retain(tail, b);
          { RetainTwice(s[1..], a, b); }
          Retain(s[1..], a + b);
          Retain(s, a + b);
        }
      } else {
        var r := [s[0]] + tail;
        assert r[0] == s[0] && r[1..] == tail;
        calc {
          Retain(Retain(s, a), b);
          Retain(r, b);
          (if s[0] in b then [] else [s[0]]) + Retain(tail, b);
          { RetainTwice(s[1..], a, b); }
          (if s[0] in b then [] else [s[0]]) + Retain(s[1..], a + b);
          Retain(s, a + b);
        }
      }
    }
  }

  // ---------------------------------------------------------------------------
  // Listing

  /** Newest first: no report is older than one after it. */
  predicate NewestFirst<D>(rs: seq<Report<D>>) {
    forall i, j | 0 <= i < j < |rs| :: StampOrder(rs[i].timestamp) >= StampOrder(rs[j].timestamp)
  }

  /** Puts `r` in front of the first report that is not newer than it. */
  function InsertByAge<D(==)>(r: Report<D>, rs: seq<Report<D>>): (s: seq<Report<D>>)
    requires NewestFirst(rs)
    ensures NewestFirst(s)
    ensures multiset(s) == multiset(rs) + multiset{r}
    ensures |s| == |rs| + 1
  {
    if rs == [] || StampOrder(rs[0].timestamp) <= StampOrder(r.timestamp) then
      InsertedAtHead(r, rs);
      [r] + rs
    else
      var rest := InsertByAge(r, rs[1..]);
      InsertedBelowHead(r, rs, rest);
      assert rs == [rs[0]] + rs[1..];
      [rs[0]] + rest
  }

  /** A report no older than the head of a sorted list can go in front of it. */
  lemma InsertedAtHead<D>(r: Report<D>, rs: seq<Report<D>>)
    requires NewestFirst(rs) && (rs == [] || StampOrder(rs[0].timestamp) <= StampOrder(r.timestamp))
    ensures NewestFirst([r] + rs)
  {
    var s := [r] + rs;
    forall i, j | 0 <= i < j < |s| ensures StampOrder(s[i].timestamp) >= StampOrder(s[j].timestamp) {
      assert s[j] == rs[j - 1];
      if i > 0 {
        assert s[i] == rs[i - 1];
      }
    }
  }

  /** Inserting below the head of a sorted list keeps the head in front. */
  lemma InsertedBelowHead<D>(r: Report<D>, rs: seq<Report<D>>, rest: seq<Report<D>>)
    requires rs != [] && NewestFirst(rs) && StampOrder(rs[0].timestamp) > StampOrder(r.timestamp)
    requires NewestFirst(rest) && multiset(rest) == multiset(rs[1..]) + multiset{r}
    ensures NewestFirst([rs[0]] + rest)
  {
    var head := rs[0];
    forall j | 0 <= j < |rest| ensures StampOrder(head.timestamp) >= StampOrder(rest[j].timestamp) {
      HeadAbove(r, rs, rest, j);
    }
    var s := [head] + rest;
    forall i, j | 0 <= i < j < |s| ensures StampOrder(s[i].timestamp) >= StampOrder(s[j].timestamp) {
      if i > 0 {
        assert s[i] == rest[i - 1] && s[j] == rest[j - 1];
      } else {
        assert s[j] == rest[j - 1];
      }
    }
  }

  lemma HeadAbove<D>(r: Report<D>, rs: seq<Report<D>>, rest: seq<Report<D>>, j: nat)
    requires rs != [] && NewestFirst(rs) && StampOrder(rs[0].timestamp) > StampOrder(r.timestamp)
    requires multiset(rest) == multiset(rs[1..]) + multiset{r} && j < |rest|
    ensures StampOrder(rs[0].timestamp) >= StampOrder(rest[j].timestamp)
  {
    assert rest[j] in multiset(rest);
    if rest[j] != r {
      assert rest[j] in multiset(rs[1..]);
      var k :| 0 <= k < |rs[1..]| && rs[1..][k] == rest[j];
      assert rs[k + 1] == rest[j];
    }
  }

  /** `sort(key=timestamp, reverse=True)`: a stable sort, newest first. */
  function SortNewestFirst<D(==)>(rs: seq<Report<D>>): (s: seq<Report<D>>)
    ensures NewestFirst(s)
    ensures multiset(s) == multiset(rs)
    ensures |s| == |rs|
  {
    if rs == [] then []
    else
      assert rs == [rs[0]] + rs[1..];
      InsertByAge(rs[0], SortNewestFirst(rs[1..]))
  }

  /** The reports of `userId`, in the store's insertion order. */
  function UserReports<D(==)>(order: seq<string>, reports: map<string, Report<D>>, userId: int): (rs: seq<Report<D>>)
    requires forall k | k in order :: k in reports
    ensures forall r | r in rs :: r.userId == userId && r in reports.Values
    ensures forall k | k in order && reports[k].userId == userId :: reports[k] in rs
  {
    if order == [] then []
    else
      var r := reports[order[0]];
      (if r.userId == userId then [r] else []) + UserReports(order[1..], reports, userId)
  }

  /** Everything a sorted list leaves out beyond its first `n` entries is no newer than
      what it keeps. */
  lemma PrefixIsNewest<D>(s: seq<Report<D>>, n: nat, q: Report<D>)
    requires NewestFirst(s) && n <= |s| && q in s && q !in s[..n]
    ensures forall r | r in s[..n] :: StampOrder(r.timestamp) >= StampOrder(q.timestamp)
  {
    var j :| 0 <= j < |s| && s[j] == q;
    forall i | 0 <= i < n ensures s[i] != q {
      assert s[i] == s[..n][i];
    }
    forall r | r in s[..n] ensures StampOrder(r.timestamp) >= StampOrder(q.timestamp) {
      var i :| 0 <= i < n && s[..n][i] == r;
    }
  }

  /** The first `limit` reports of the sorted list are the newest ones of the user. */
  lemma TakeNewest<D>(all: seq<Report<D>>, reports: map<string, Report<D>>, userId: int, limit: int)
    requires forall r | r in all :: r.userId == userId && r in reports.Values
    requires forall k | k in reports && reports[k].userId == userId :: reports[k] in all
    ensures var rs := Take(SortNewestFirst(all), limit);
      && (forall r | r in rs :: r.userId == userId && r in reports.Values)
      && NewestFirst(rs)
      && multiset(rs) <= multiset(all)
      && (limit >= |all| ==> multiset(rs) == multiset(all))
      && forall k | k in reports && reports[k].userId == userId && reports[k] !in rs ::
           forall r | r in rs :: StampOrder(r.timestamp) >= StampOrder(reports[k].timestamp)
  {
    var sorted := SortNewestFirst(all);
    var rs := Take(sorted, limit);
    TakeOfSorted(sorted, limit);
    forall r | r in rs ensures r.userId == userId && r in reports.Values {
      SortedMember(all, r);
    }
    forall k | k in reports && reports[k].userId == userId && reports[k] !in rs
      ensures forall r | r in rs :: StampOrder(r.timestamp) >= StampOrder(reports[k].timestamp)
    {
      assert reports[k] in multiset(sorted);
      PrefixIsNewest(sorted, |rs|, reports[k]);
    }
  }

  /** A prefix of a sorted list is sorted and drawn from the list. */
  lemma TakeOfSorted<D>(s: seq<Report<D>>, limit: int)
    requires NewestFirst(s)
    ensures NewestFirst(Take(s, limit))
    ensures forall r | r in Take(s, limit) :: r in s
    ensures multiset(Take(s, limit)) <= multiset(s)
  {
    var t := Take(s, limit);
    assert t == s[..|t|];
    assert s == t + s[|t|..];
    forall i, j | 0 <= i < j < |t| ensures StampOrder(t[i].timestamp) >= StampOrder(t[j].timestamp) {
      assert t[i] == s[i] && t[j] == s[j];
    }
  }

  /** The sorted list holds the reports it was given. */
  lemma SortedMember<D>(all: seq<Report<D>>, r: Report<D>)
    requires r in SortNewestFirst(all)
    ensures r in all
  {
    assert r in multiset(SortNewestFirst(all));
  }

  // ---------------------------------------------------------------------------
  // Age

  /** Older than `maxAgeHours` hours at `now`: `(now - timestamp).total_seconds() / 3600`
      above the bound, on exact arithmetic. */
  predicate Expired<D>(r: Report<D>, now: Moment, maxAgeHours: int) {
    Microseconds(now) - Microseconds(r.timestamp) > maxAgeHours * 3600 * 1000000
  }

  /** The ids of the reports `cleanup_old_reports` removes. */
  function ExpiredIds<D>(reports: map<string, Report<D>>, now: Moment, maxAgeHours: int): set<string> {
    set k | k in reports && Expired(reports[k], now, maxAgeHours)
  }

  /** Cleaning up once leaves nothing to clean up at the same moment. */
  lemma CleanupIdempotent<D>(reports: map<string, Report<D>>, now: Moment, maxAgeHours: int)
    ensures var kept := reports - ExpiredIds(reports, now, maxAgeHours);
      && ExpiredIds(kept, now, maxAgeHours) == {}
      && forall k | k in kept :: kept[k] == reports[k] && !Expired(reports[k], now, maxAgeHours)
  {
  }

  /** The expired ids among `ids`, in order. */
  function ExpiredAmong<D>(ids: seq<string>, reports: map<string, Report<D>>, now: Moment, maxAgeHours: int): (r: seq<string>)
    requires forall k | k in ids :: k in reports
    ensures forall k :: k in r <==> k in ids && Expired(reports[k], now, maxAgeHours)
    decreases |ids|
  {
    if ids == [] then []
    else
      var last := ids[|ids| - 1];
      assert forall k | k in ids[..|ids| - 1] :: k in ids;
      var rest := ExpiredAmong(ids[..|ids| - 1], reports, now, maxAgeHours);
      rest + (if Expired(reports[last], now, maxAgeHours) then [last] else [])
  }

  /** From distinct ids, each expired id is collected once. */
  lemma {:induction false} ExpiredAmongDistinct<D>(ids: seq<string>, reports: map<string, Report<D>>, now: Moment, maxAgeHours: int)
    requires forall k | k in ids :: k in reports
    requires Distinct(ids)
    ensures Distinct(ExpiredAmong(ids, reports, now, maxAgeHours))
    decreases |ids|
  {
    if ids != [] {
      var init := ids[..|ids| - 1];
      var last := ids[|ids| - 1];
      assert forall k | k in init :: k in ids;
      assert Distinct(init);
      ExpiredAmongDistinct(init, reports, now, maxAgeHours);
      var rest := ExpiredAmong(init, reports, now, maxAgeHours);
      assert last !in init;
      assert last !in rest;
      var r := rest + (if Expired(reports[last], now, maxAgeHours) then [last] else []);
      forall i, j | 0 <= i < j < |r| ensures r[i] != r[j] {
        if j >= |rest| {
          assert r[i] == rest[i] && r[j] == last;
        }
      }
    }
  }

  lemma ExpiredAmongStep<D>(ids: seq<string>, reports: map<string, Report<D>>, now: Moment, maxAgeHours: int, i: nat)
    requires forall k | k in ids :: k in reports
    requires i < |ids|
    ensures forall k | k in ids[..i + 1] :: k in reports
    ensures ExpiredAmong(ids[..i + 1], reports, now, maxAgeHours)
         == ExpiredAmong(ids[..i], reports, now, maxAgeHours)
            + (if Expired(reports[ids[i]], now, maxAgeHours) then [ids[i]] else [])
  {
    assert ids[..i + 1][..i] == ids[..i];
    assert forall k | k in ids[..i + 1] :: k in ids;
  }

  /** Collecting the expired ids along a distinct listing of all ids finds each expired
      id exactly once. */
  lemma CollectsExpired<D>(order: seq<string>, reports: map<string, Report<D>>, now: Moment, maxAgeHours: int)
    requires forall k :: k in reports <==> k in order
    requires Distinct(order)
    ensures var found := ExpiredAmong(order, reports, now, maxAgeHours);
      Elems(found) == ExpiredIds(reports, now, maxAgeHours)
      && |found| == |ExpiredIds(reports, now, maxAgeHours)|
  {
    var found := ExpiredAmong(order, reports, now, maxAgeHours);
    assert Elems(found) == ExpiredIds(reports, now, maxAgeHours);
    ExpiredAmongDistinct(order, reports, now, maxAgeHours);
    DistinctSize(found);
  }

  /** The set of elements of a sequence. */
  function Elems(s: seq<string>): set<string> {
    set x | x in s
  }

  lemma ElemsStep(s: seq<string>, j: nat)
    requires j < |s|
    ensures Elems(s[..j + 1]) == Elems(s[..j]) + {s[j]}
  {
    assert s[..j + 1] == s[..j] + [s[j]];
  }

  lemma {:induction false} DistinctSize(s: seq<string>)
    requires Distinct(s)
    ensures |Elems(s)| == |s|
    decreases |s|
  {
    if s != [] {
      var tail := s[1..];
      DistinctSize(tail);
      assert Elems(s) == Elems(tail) + {s[0]};
      assert s[0] !in tail;
    }
  }

  // ---------------------------------------------------------------------------
  // Summary text

  /** `timestamp[:19].replace('T', ' ')`. */
  function Generated(m: Moment): string {
    ReplaceChar(Take(IsoFormat(m), 19), 'T', ' ')
  }

  /** The summary shows a valid reading to the second, date and time apart. */
  lemma GeneratedToTheSecond(m: Moment)
    requires m.Valid()
    ensures Generated(m) == DateText(m) + " " + ClockText(m)
  {
    TextWidths(m);
    var date, clock := DateText(m), ClockText(m);
    var tail := if m.microsecond == 0 then "" else "." + Digits(m.microsecond, 6);
    assert IsoFormat(m) == (date + "T" + clock) + tail;
    assert Take(IsoFormat(m), 19) == date + "T" + clock;
    ReplaceSeparator(date, clock);
  }

  /** A valid reading's date is ten characters and its clock eight, neither holding `T`. */
  lemma TextWidths(m: Moment)
    requires m.Valid()
    ensures |DateText(m)| == 10 && forall i | 0 <= i < 10 :: DateText(m)[i] != 'T'
    ensures |ClockText(m)| == 8 && forall i | 0 <= i < 8 :: ClockText(m)[i] != 'T'
  {
    PaddedWidth(m.year, 4);
    PaddedWidth(m.month, 2);
    PaddedWidth(m.day, 2);
    PaddedWidth(m.hour, 2);
    PaddedWidth(m.minute, 2);
    PaddedWidth(m.second, 2);
  }

  /** Replacing `T` touches only the separator when neither side holds one. */
  lemma ReplaceSeparator(a: string, b: string)
    requires forall i | 0 <= i < |a| :: a[i] != 'T'
    requires forall i | 0 <= i < |b| :: b[i] != 'T'
    ensures ReplaceChar(a + "T" + b, 'T', ' ') == a + " " + b
  {
    var s := a + "T" + b;
    forall i | 0 <= i < |s| ensures ReplaceChar(s, 'T', ' ')[i] == (a + " " + b)[i] {
      if i > |a| {
        assert s[i] == b[i - |a| - 1];
      }
    }
  }

  /** Forty `=` signs. */
  const Rule := "========================================"

  /** The summary up to its type: the title and the report id. */
  function SummaryTop(id: string): string {
    "\U{1F4CA} <b>Report Summary</b>\n" + "\n" + "\U{1F194} <b>Report ID:</b> <code>" + id + "</code>" + "\n"
    + "\U{1F4CB} <b>Type:</b> "
  }

  /** The summary after its type: the generation time and the rule. */
  function SummaryBottom(m: Moment): string {
    "\n" + GeneratedLine(m) + RuleBlock
  }

  const GeneratedLabel := "\U{23F0} <b>Generated:</b> "

  /** The summary's line giving the generation time. */
  function GeneratedLine(m: Moment): string {
    GeneratedLabel + Generated(m) + "\n"
  }

  /** The blank line, the rule and the blank line before the formatted output. */
  const RuleBlock := "\n" + Rule + "\n" + "\n"

  /** The summary up to the line holding the formatted output. */
  function SummaryHead<D>(r: Report<D>): string {
    SummaryTop(r.id) + Upper(r.reportType) + SummaryBottom(r.timestamp)
  }

  /** `format_report_summary`: an error becomes one error line; a report becomes its
      header lines joined with the formatted output. */
  function FormatReportSummary<D>(f: Fetched<D>): string {
    match f
    case Failed(e) => "\U{274C} <b>Error:</b> " + e
    case Found(r) => SummaryHead(r) + r.formattedOutput
  }

  /** A report's summary shows its id, its upper-cased type and the line with its
      generation time to the second, and ends with its formatted output verbatim. */
  lemma SummaryShowsReport<D>(r: Report<D>)
    ensures Contains(FormatReportSummary(Found(r)), r.id)
    ensures Contains(FormatReportSummary(Found(r)), Upper(r.reportType))
    ensures Contains(FormatReportSummary(Found(r)), GeneratedLabel + Generated(r.timestamp) + "\n")
    ensures var s := FormatReportSummary(Found(r));
      |s| >= |r.formattedOutput| && s[|s| - |r.formattedOutput|..] == r.formattedOutput
  {
    var top, kind, bottom := SummaryTop(r.id), Upper(r.reportType), SummaryBottom(r.timestamp);
    var out := r.formattedOutput;
    assert FormatReportSummary(Found(r)) == top + kind + bottom + out;
    SummaryTopShowsId(r.id);
    ContainsAppend(top, kind + bottom + out, r.id);
    AppendAssociative(top, kind, bottom);
    AppendAssociative(top, kind + bottom, out);
    AppendAssociative(kind, bottom, out);
    ContainsMiddle(top, kind, bottom + out);
    AppendAssociative(top + kind, bottom, out);
    SummaryShowsGenerated(r);
  }

  lemma SummaryShowsGenerated<D>(r: Report<D>)
    ensures Contains(FormatReportSummary(Found(r)), GeneratedLine(r.timestamp))
  {
    var top, kind, line := SummaryTop(r.id), Upper(r.reportType), GeneratedLine(r.timestamp);
    var out := r.formattedOutput;
    assert FormatReportSummary(Found(r)) == top + kind + ("\n" + line + RuleBlock) + out;
    AppendAssociative(top + kind, "\n" + line + RuleBlock, out);
    AppendAssociative("\n" + line, RuleBlock, out);
    AppendAssociative(top + kind, "\n" + line, RuleBlock + out);
    AppendAssociative(top + kind, "\n", line);
    ContainsMiddle(top + kind + "\n", line, RuleBlock + out);
  }

  lemma SummaryTopShowsId(id: string)
    ensures Contains(SummaryTop(id), id)
  {
    var before := "\U{1F4CA} <b>Report Summary</b>\n" + "\n" + "\U{1F194} <b>Report ID:</b> <code>";
    var after := "</code>" + "\n" + "\U{1F4CB} <b>Type:</b> ";
    assert SummaryTop(id) == before + id + after;
    ContainsMiddle(before, id, after);
  }

  /** An error summary is the error line with the message verbatim. */
  lemma SummaryOfError<D>(e: string)
    ensures var s := FormatReportSummary(Fetched<D>.Failed(e));
      |s| >= |e| && s[|s| - |e|..] == e && Contains(s, "Error")
  {
    var s := FormatReportSummary(Fetched<D>.Failed(e));
    assert s == "\U{274C} <b>" + "Error" + (":</b> " + e);
    ContainsMiddle("\U{274C} <b>", "Error", ":</b> " + e);
  }

  // ---------------------------------------------------------------------------
  // The store's invariant

  /** Every stored report sits under its own id, the insertion order lists each stored id
      once, and no id carries a serial number above the counter. */
  ghost predicate Consistent<D>(reports: map<string, Report<D>>, order: seq<string>, counter: nat) {
    && (forall k :: k in reports <==> k in order)
    && Distinct(order)
    && forall k | k in reports :: reports[k].id == k && IdShape(k) && Serial(k) <= counter
  }

  /** Removing any set of ids from both the table and the insertion order keeps the store
      consistent. */
  lemma RemovalKeepsConsistent<D>(reports: map<string, Report<D>>, order: seq<string>, counter: nat, gone: set<string>)
    requires Consistent(reports, order, counter)
    ensures Consistent(reports - gone, Retain(order, gone), counter)
  {
    RetainDistinct(order, gone);
    RetainMembers(order, gone);
  }

  lemma RemoveOneMore<D>(m: map<string, Report<D>>, gone: set<string>, id: string)
    ensures m - gone - {id} == m - (gone + {id})
  {
  }

  // ---------------------------------------------------------------------------
  // The store

  /** `ReportManager`: the reports by id, their ids in insertion order (the order a Python
      dictionary keeps), and the number of reports ever created. */
  class ReportManager<D(==)> {
    var reports: map<string, Report<D>>
    var order: seq<string>
    var counter: nat

    /** Every stored report sits under its own id, the insertion order lists each stored id
        once, and no id carries a serial number above the counter. */
    ghost predicate Valid()
      reads this
    {
      Consistent(reports, order, counter)
    }

    constructor ()
      ensures Valid()
      ensures reports == map[] && order == [] && counter == 0
    {
      reports := map[];
      order := [];
      counter := 0;
    }

    /** `get_report`: the stored report, unless the id is unknown or a caller who takes
        part in the ownership check does not own it. Nothing changes. */
    function GetReport(reportId: string, userId: Option<int>): (f: Fetched<D>)
      reads this
      ensures f == Failed(NotFoundError) <==> reportId !in reports
      ensures f == Failed(AccessDeniedError)
          <==> reportId in reports && ChecksOwner(userId) && reports[reportId].userId != userId.value
      ensures f.Found? <==> reportId in reports && !(ChecksOwner(userId) && reports[reportId].userId != userId.value)
      ensures f.Found? ==> f.report == reports[reportId]
    {
      if reportId !in reports then Failed(NotFoundError)
      else if ChecksOwner(userId) && reports[reportId].userId != userId.value then Failed(AccessDeniedError)
      else Found(reports[reportId])
    }

    /** `create_report`: stores a new report under a fresh id, made from the date and the
        incremented counter, and returns the id. The source reads the clock twice: once
        for the id's date (`idNow`) and once for the stored timestamp (`stampNow`), so the
        two may fall on different days. Its owner, or anyone skipping the ownership check,
        can fetch the report straight away. */
    method CreateReport(userId: int, reportType: string, data: D, formattedOutput: string, idNow: Moment, stampNow: Moment)
      returns (id: string)
      requires Valid() && idNow.Valid()
      modifies this
      ensures Valid()
      ensures counter == old(counter) + 1
      ensures id == ReportId(idNow, counter)
      ensures id !in old(reports)
      ensures reports == old(reports)[id := Report(id, userId, reportType, stampNow, data, formattedOutput)]
      ensures order == old(order) + [id]
      ensures GetReport(id, Some(userId)) == Found(Report(id, userId, reportType, stampNow, data, formattedOutput))
      ensures GetReport(id, None) == GetReport(id, Some(userId))
    {
      counter := counter + 1;
      id := ReportId(idNow, counter);
      IdCarriesSerial(idNow, counter);
      reports := reports[id := Report(id, userId, reportType, stampNow, data, formattedOutput)];
      order := order + [id];
    }

    /** `list_user_reports`: the caller's reports, newest first, at most `limit` of them
        (Python slicing, so a negative limit drops that many from the end). Nothing
        changes. */
    function ListUserReports(userId: int, limit: int): (rs: seq<Report<D>>)
      requires Valid()
      reads this
      ensures forall r | r in rs :: r.userId == userId && r in reports.Values
      ensures NewestFirst(rs)
      ensures 0 <= limit ==> |rs| == if limit < |UserReports(order, reports, userId)| then limit else |UserReports(order, reports, userId)|
      ensures limit < 0 ==> |rs| == if |UserReports(order, reports, userId)| + limit > 0 then |UserReports(order, reports, userId)| + limit else 0
      ensures multiset(rs) <= multiset(UserReports(order, reports, userId))
      ensures limit >= |UserReports(order, reports, userId)| ==> multiset(rs) == multiset(UserReports(order, reports, userId))
      ensures forall k | k in reports && reports[k].userId == userId && reports[k] !in rs ::
        forall r | r in rs :: StampOrder(r.timestamp) >= StampOrder(reports[k].timestamp)
    {
      var all := UserReports(order, reports, userId);
      TakeNewest(all, reports, userId, limit);
      Take(SortNewestFirst(all), limit)
    }

    /** `delete_report`: removes the report exactly when `get_report` with the same
        arguments would have returned it; otherwise nothing changes. */
    method DeleteReport(reportId: string, userId: Option<int>) returns (deleted: bool)
      requires Valid()
      modifies this
      ensures Valid()
      ensures deleted <==> old(GetReport(reportId, userId)).Found?
      ensures deleted ==> reports == old(reports) - {reportId} && order == Retain(old(order), {reportId})
      ensures !deleted ==> reports == old(reports) && order == old(order)
      ensures counter == old(counter)
    {
      if reportId !in reports {
        return false;
      }
      if ChecksOwner(userId) && reports[reportId].userId != userId.value {
        return false;
      }
      RemovalKeepsConsistent(reports, order, counter, {reportId});
      reports := reports - {reportId};
      order := Retain(order, {reportId});
      return true;
    }

    /** The first loop of `cleanup_old_reports`: the ids of the reports older than
        `maxAgeHours` hours at `now`, in insertion order. */
    method CollectExpired(now: Moment, maxAgeHours: int) returns (toDelete: seq<string>)
      requires Valid()
      ensures toDelete == ExpiredAmong(order, reports, now, maxAgeHours)
      ensures Elems(toDelete) == ExpiredIds(reports, now, maxAgeHours)
      ensures |toDelete| == |ExpiredIds(reports, now, maxAgeHours)|
    {
      toDelete := [];
      var i := 0;
      while i < |order|
        invariant 0 <= i <= |order|
        invariant toDelete == ExpiredAmong(order[..i], reports, now, maxAgeHours)
      {
        ExpiredAmongStep(order, reports, now, maxAgeHours, i);
        if Expired(reports[order[i]], now, maxAgeHours) {
          toDelete := toDelete + [order[i]];
        }
        i := i + 1;
      }
      assert order[..|order|] == order;
      CollectsExpired(order, reports, now, maxAgeHours);
    }

    /** The second loop of `cleanup_old_reports`: deletes each listed id from the table.
        The insertion order loses exactly those ids. */
    method DeleteAll(toDelete: seq<string>)
      requires Valid()
      modifies this
      ensures Valid()
      ensures reports == old(reports) - Elems(toDelete)
      ensures order == Retain(old(order), Elems(toDelete))
      ensures counter == old(counter)
    {
      var j := 0;
      ghost var gone: set<string> := {};
      RetainNothing(order);
      while j < |toDelete|
        invariant 0 <= j <= |toDelete|
        invariant gone == Elems(toDelete[..j])
        invariant reports == old(reports) - gone
        invariant order == Retain(old(order), gone)
        invariant counter == old(counter)
      {
        var id := toDelete[j];
        RemoveOneMore(old(reports), gone, id);
        reports := reports - {id};
        RetainTwice(old(order), gone, {id});
        order := Retain(order, {id});
        ElemsStep(toDelete, j);
        gone := gone + {id};
        j := j + 1;
      }
      assert toDelete[..|toDelete|] == toDelete;
      RemovalKeepsConsistent(old(reports), old(order), counter, gone);
    }

    /** `cleanup_old_reports`: collects the ids of the reports older than `maxAgeHours`
        hours at `now`, deletes them, and returns how many there were. Every other report
        stays, in its place. */
    method CleanupOldReports(now: Moment, maxAgeHours: int) returns (removed: nat)
      requires Valid()
      modifies this
      ensures Valid()
      ensures reports == old(reports) - ExpiredIds(old(reports), now, maxAgeHours)
      ensures order == Retain(old(order), ExpiredIds(old(reports), now, maxAgeHours))
      ensures removed == |ExpiredIds(old(reports), now, maxAgeHours)|
      ensures counter == old(counter)
    {
      var toDelete := CollectExpired(now, maxAgeHours);
      DeleteAll(toDelete);
      removed := |toDelete|;
    }
  }
}
