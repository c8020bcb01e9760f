/**
 * Visit statistics kept per calendar day.
 *
 * A day is an integer day number; its key in the stored object is its ISO
 * date `YYYY-MM-DD`, whose string order is the order of day numbers. The
 * stored object is a sequence of entries in its key order (insertion order,
 * since date keys are not integer-like), which is the order `Object.keys` and
 * `Object.values` list them in. Reading `analytics_data` gives nothing (or
 * the empty string), text that does not parse, or such a record.
 */
module Analytics {
  import opened Sequences

  datatype DailyStats = DailyStats(date: int, uniqueIPs: int, totalClicks: int, totalViews: int)

  /** One property of the stored object: the day of its key and that day's counters. */
  datatype Entry = Entry(day: int, stats: DailyStats)

  type Record = seq<Entry>

  /** What reading `analytics_data` gives. */
  datatype Stored = Absent | Unparsable | Data(record: Record)

  datatype TotalStats = TotalStats(totalUniqueIPs: int, totalClicks: int, totalViews: int)

  const NoTotals := TotalStats(0, 0, 0)

  /** The counters of a day's first visit. */
  function FirstVisit(today: int): DailyStats
  {
    DailyStats(today, 1, 0, 1)
  }

  /** `Object.keys(data)` */
  function Days(rec: Record): seq<int>
  {
    seq(|rec|, i requires 0 <= i < |rec| => rec[i].day)
  }

  /** `Object.values(data)` */
  function Values(rec: Record): seq<DailyStats>
  {
    seq(|rec|, i requires 0 <= i < |rec| => rec[i].stats)
  }

  /** An object holds each key once. */
  predicate ValidRecord(rec: Record)
  {
    Distinct(Days(rec))
  }

  /** Every entry carries its own key as its date, as every entry a visit writes does. */
  predicate WellKeyed(rec: Record)
  {
    forall i | 0 <= i < |rec| :: rec[i].stats.date == rec[i].day
  }

  // ---------------------------------------------------------------------------
  // Looking up a day
  // ---------------------------------------------------------------------------

  /** Position of the entry for `day`, or `|rec|` when there is none. */
  function Find(rec: Record, day: int): (i: int)
    ensures 0 <= i <= |rec|
    ensures i < |rec| ==> rec[i].day == day
    ensures forall j | 0 <= j < i :: rec[j].day != day
  {
    if rec == [] then 0
    else if rec[0].day == day then 0
    else 1 + Find(rec[1..], day)
  }

  /** The properties of `Find` pin its value down. */
  lemma FindIs(rec: Record, day: int, i: int)
    requires 0 <= i <= |rec|
    requires i < |rec| ==> rec[i].day == day
    requires forall j | 0 <= j < i :: rec[j].day != day
    ensures Find(rec, day) == i
  {
  }

  /** `data[day]` */
  function Lookup(rec: Record, day: int): (r: Option<DailyStats>)
    ensures r.None? <==> day !in Days(rec)
    ensures r.Some? ==> exists i | 0 <= i < |rec| :: rec[i] == Entry(day, r.value)
  {
    var i := Find(rec, day);
    if i < |rec| then
      assert rec[i] == Entry(day, rec[i].stats);
      assert Days(rec)[i] == day;
      Some(rec[i].stats)
    else
      assert forall j | 0 <= j < |rec| :: Days(rec)[j] != day;
      None
  }

  // ---------------------------------------------------------------------------
  // Recording a visit
  // ---------------------------------------------------------------------------

  /** The counters of `today` after one more visit. */
  function Counted(previous: Option<DailyStats>, today: int): DailyStats
  {
    match previous
    case None => FirstVisit(today)
    case Some(s) => s.(totalViews := s.totalViews + 1)
  }

  /**
   * The record after one more visit on `today`: a new day is appended as a
   * new key, an existing day is updated where it stands.
   */
  function Visited(rec: Record, today: int): (r: Record)
    ensures Lookup(r, today) == Some(Counted(Lookup(rec, today), today))
    ensures forall d | d != today :: Lookup(r, d) == Lookup(rec, d)
    ensures Days(r) == Days(rec) + (if Lookup(rec, today).None? then [today] else [])
  {
    var i := Find(rec, today);
    if i == |rec| then
      var r := rec + [Entry(today, FirstVisit(today))];
      AppendLookups(rec, Entry(today, FirstVisit(today)));
      assert Days(r) == Days(rec) + [today];
      r
    else
      var r := rec[i := Entry(today, Counted(Some(rec[i].stats), today))];
      UpdateLookups(rec, i, Counted(Some(rec[i].stats), today));
      assert Days(r) == Days(rec);
      r
  }

  lemma AppendLookups(rec: Record, e: Entry)
    requires Find(rec, e.day) == |rec|
    ensures Find(rec + [e], e.day) == |rec|
    ensures forall d | d != e.day :: Find(rec + [e], d) == (if Find(rec, d) < |rec| then Find(rec, d) else |rec| + 1)
  {
    var r := rec + [e];
    FindIs(r, e.day, |rec|);
    forall d | d != e.day ensures Find(r, d) == (if Find(rec, d) < |rec| then Find(rec, d) else |rec| + 1) {
      var i := Find(rec, d);
      assert forall j | 0 <= j < i :: r[j] == rec[j];
      if i < |rec| {
        assert r[i] == rec[i];
      }
      FindIs(r, d, if i < |rec| then i else |rec| + 1);
    }
  }

  lemma UpdateLookups(rec: Record, i: int, s: DailyStats)
    requires 0 <= i < |rec| && Find(rec, rec[i].day) == i
    ensures Find(rec[i := Entry(rec[i].day, s)], rec[i].day) == i
    ensures forall d | d != rec[i].day :: Find(rec[i := Entry(rec[i].day, s)], d) == Find(rec, d)
  {
    var r := rec[i := Entry(rec[i].day, s)];
    FindIs(r, rec[i].day, i);
    forall d | d != rec[i].day ensures Find(r, d) == Find(rec, d) {
      var k := Find(rec, d);
      assert forall j | 0 <= j < k :: r[j].day == rec[j].day;
      FindIs(r, d, k);
    }
  }

  /** The stored record after `recordVisit`: absent counts as empty, unparsable text stays as it is. */
  function AfterVisit(s: Stored, today: int): (r: Stored)
    ensures s.Unparsable? ==> r == s
    ensures s.Absent? ==> r == Data([Entry(today, FirstVisit(today))])
    ensures s.Data? ==> r == Data(Visited(s.record, today)) && Lookup(r.record, today).Some?
  {
    match s
    case Absent =>
      assert [] + [Entry(today, FirstVisit(today))] == [Entry(today, FirstVisit(today))];
      Data(Visited([], today))
    case Unparsable => Unparsable
    case Data(rec) => Data(Visited(rec, today))
  }

  /** A visit keeps each key once. */
  lemma VisitKeepsValid(rec: Record, today: int)
    requires ValidRecord(rec)
    ensures ValidRecord(Visited(rec, today))
  {
    var r := Visited(rec, today);
    if Lookup(rec, today).None? {
      var ks := Days(r);
      forall i, j | 0 <= i < j < |ks| ensures ks[i] != ks[j] {
        if j < |ks| - 1 {
          assert ks[i] == Days(rec)[i] && ks[j] == Days(rec)[j];
        } else {
          assert ks[i] == Days(rec)[i] && ks[i] in Days(rec);
        }
      }
    }
  }

  /** A visit keeps every entry's date equal to its key. */
  lemma VisitKeepsWellKeyed(rec: Record, today: int)
    requires WellKeyed(rec)
    ensures WellKeyed(Visited(rec, today))
  {
    var i := Find(rec, today);
    if i < |rec| {
      assert rec[i].day == today;
    }
  }

  /** Entries written by visits always hold one "unique IP", no clicks and at least one view. */
  predicate OnlyVisitCounters(rec: Record)
  {
    forall i | 0 <= i < |rec| :: rec[i].stats.uniqueIPs == 1 && rec[i].stats.totalClicks == 0 && rec[i].stats.totalViews >= 1
  }

  lemma VisitKeepsCounters(rec: Record, today: int)
    requires OnlyVisitCounters(rec)
    ensures OnlyVisitCounters(Visited(rec, today))
  {
  }

  // ---------------------------------------------------------------------------
  // Reading the record back
  // ---------------------------------------------------------------------------

  /** Dates never decrease. */
  predicate SortedByDate(r: seq<DailyStats>)
  {
    forall i, j | 0 <= i < j < |r| :: r[i].date <= r[j].date
  }

  /** Put `x` before the first entry dated later than or the same as it. */
  function Insert(x: DailyStats, sorted: seq<DailyStats>): (r: seq<DailyStats>)
    ensures multiset(r) == multiset(sorted) + multiset{x}
    ensures |r| == |sorted| + 1
    ensures r[0] == x || (sorted != [] && r[0] == sorted[0])
  {
    if sorted == [] || x.date <= sorted[0].date then [x] + sorted
    else
      assert sorted == [sorted[0]] + sorted[1..];
      [sorted[0]] + Insert(x, sorted[1..])
  }

  lemma {:induction false} InsertKeepsSorted(x: DailyStats, sorted: seq<DailyStats>)
    requires SortedByDate(sorted)
    ensures SortedByDate(Insert(x, sorted))
  {
    if sorted == [] || x.date <= sorted[0].date {
      SortedCons(x, sorted);
    } else {
      SortedTail(sorted);
      InsertKeepsSorted(x, sorted[1..]);
      assert |sorted| > 1 ==> sorted[0].date <= sorted[1].date;
      SortedCons(sorted[0], Insert(x, sorted[1..]));
    }
  }

  lemma SortedTail(s: seq<DailyStats>)
    requires s != [] && SortedByDate(s)
    ensures SortedByDate(s[1..])
  {
    forall i, j | 0 <= i < j < |s| - 1 ensures s[1..][i].date <= s[1..][j].date {
      assert s[1..][i] == s[i + 1] && s[1..][j] == s[j + 1];
    }
  }

  /** A first entry dated no later than a sorted rest keeps it sorted. */
  lemma SortedCons(a: DailyStats, t: seq<DailyStats>)
    ensures SortedByDate(t) && (t == [] || a.date <= t[0].date) ==> SortedByDate([a] + t)
  {
  }

  /** A stable sort by date, as `Array.prototype.sort` with a date comparator. */
  function SortByDate(s: seq<DailyStats>): (r: seq<DailyStats>)
    ensures multiset(r) == multiset(s)
    ensures SortedByDate(r)
  {
    if s == [] then []
    else
      assert s == [s[0]] + s[1..];
      InsertKeepsSorted(s[0], SortByDate(s[1..]));
      Insert(s[0], SortByDate(s[1..]))
  }

  /** The rows of the charts: the record's values, earliest date first. */
  function ChartData(rec: Record): (r: seq<DailyStats>)
    ensures multiset(r) == multiset(Values(rec))
    ensures |r| == |rec|
    ensures SortedByDate(r)
  {
    SortByDate(Values(rec))
  }

  datatype Counter = Clicks | Views

  function Field(s: DailyStats, c: Counter): int
  {
    match c
    case Clicks => s.totalClicks
    case Views => s.totalViews
  }

  /** `Object.values(data).reduce((sum, stat) => sum + stat.<counter>, 0)` */
  function Sum(rec: Record, c: Counter): int
  {
    if rec == [] then 0 else Sum(rec[..|rec| - 1], c) + Field(rec[|rec| - 1].stats, c)
  }

  /** With non-negative counters, a total is non-negative and at least each day's counter. */
  lemma {:induction false} SumBounds(rec: Record, c: Counter)
    requires forall i | 0 <= i < |rec| :: Field(rec[i].stats, c) >= 0
    ensures 0 <= Sum(rec, c)
    ensures forall i | 0 <= i < |rec| :: Field(rec[i].stats, c) <= Sum(rec, c)
    decreases |rec|
  {
    if rec != [] {
      var n := |rec| - 1;
      SumBounds(rec[..n], c);
      assert forall i | 0 <= i < n :: rec[..n][i] == rec[i];
    }
  }

  lemma SumNonNegative(rec: Record, c: Counter)
    ensures (forall i | 0 <= i < |rec| :: Field(rec[i].stats, c) >= 0) ==> 0 <= Sum(rec, c)
  {
    if forall i | 0 <= i < |rec| :: Field(rec[i].stats, c) >= 0 {
      SumBounds(rec, c);
    }
  }

  /**
   * The three summary cards. The card labelled with unique IPs shows the
   * number of keys, that is of days with a visit.
   */
  function Totals(rec: Record): (t: TotalStats)
    ensures t.totalUniqueIPs == |Days(rec)|
    ensures (forall i | 0 <= i < |rec| :: rec[i].stats.totalClicks >= 0) ==> 0 <= t.totalClicks
    ensures (forall i | 0 <= i < |rec| :: rec[i].stats.totalViews >= 0) ==> 0 <= t.totalViews
  {
    SumNonNegative(rec, Clicks);
    SumNonNegative(rec, Views);
    TotalStats(|rec|, Sum(rec, Clicks), Sum(rec, Views))
  }

  /** Replacing one entry changes a total by the difference of that entry's counter. */
  lemma {:induction false} SumUpdate(rec: Record, i: int, e: Entry, c: Counter)
    requires 0 <= i < |rec|
    ensures Sum(rec[i := e], c) == Sum(rec, c) - Field(rec[i].stats, c) + Field(e.stats, c)
    decreases |rec|
  {
    var n := |rec| - 1;
    var r := rec[i := e];
    assert r[..n] == if i < n then rec[..n][i := e] else rec[..n];
    if i < n {
      SumUpdate(rec[..n], i, e, c);
    }
  }

  lemma SumAppend(rec: Record, e: Entry, c: Counter)
    ensures Sum(rec + [e], c) == Sum(rec, c) + Field(e.stats, c)
  {
    assert (rec + [e])[..|rec|] == rec;
  }

  /**
   * One visit adds one view to the total, leaves the click total alone, and
   * counts one more day exactly when `today` had no entry.
   */
  lemma VisitTotals(rec: Record, today: int)
    ensures Totals(Visited(rec, today)).totalViews == Totals(rec).totalViews + 1
    ensures Totals(Visited(rec, today)).totalClicks == Totals(rec).totalClicks
    ensures Totals(Visited(rec, today)).totalUniqueIPs == Totals(rec).totalUniqueIPs + (if Lookup(rec, today).None? then 1 else 0)
  {
    var i := Find(rec, today);
    if i == |rec| {
      SumAppend(rec, Entry(today, FirstVisit(today)), Views);
      SumAppend(rec, Entry(today, FirstVisit(today)), Clicks);
    } else {
      var e := Entry(today, Counted(Some(rec[i].stats), today));
      SumUpdate(rec, i, e, Views);
      SumUpdate(rec, i, e, Clicks);
    }
    assert |Visited(rec, today)| == |Days(Visited(rec, today))|;
  }

  /** The record after one visit on each day of `days`, in order. */
  function VisitAll(rec: Record, days: seq<int>): Record
    decreases |days|
  {
    if days == [] then rec else Visited(VisitAll(rec, days[..|days| - 1]), days[|days| - 1])
  }

  /** The distinct days of a run of visits. */
  function DaysOf(days: seq<int>): set<int>
  {
    set d | d in days
  }

  lemma DaysOfSnoc(days: seq<int>)
    requires days != []
    ensures DaysOf(days) == DaysOf(days[..|days| - 1]) + {days[|days| - 1]}
  {
    assert days == days[..|days| - 1] + [days[|days| - 1]];
  }

  lemma DaysOfRecord(rec: Record, today: int)
    ensures DaysOf(Days(Visited(rec, today))) == DaysOf(Days(rec)) + {today}
  {
    if Lookup(rec, today).Some? {
      assert today in Days(rec);
    }
  }

  lemma CardinalityPlusOne(s: set<int>, x: int)
    ensures |s + {x}| == |s| + (if x in s then 0 else 1)
  {
    if x in s {
      assert s + {x} == s;
    } else {
      assert (s + {x}) - {x} == s;
    }
  }

  /**
   * From an empty record, the summary after a run of visits counts every
   * visit as a view, no clicks, and one "unique IP" per distinct day; the
   * record lists each of those days once.
   */
  lemma {:induction false} TotalsCountVisits(days: seq<int>)
    ensures Totals(VisitAll([], days)) == TotalStats(|DaysOf(days)|, 0, |days|)
    ensures ValidRecord(VisitAll([], days))
    ensures DaysOf(Days(VisitAll([], days))) == DaysOf(days)
    decreases |days|
  {
    if days != [] {
      var n := |days| - 1;
      var front := days[..n];
      TotalsCountVisits(front);
      var rec := VisitAll([], front);
      assert VisitAll([], days) == Visited(rec, days[n]);
      DaysOfSnoc(days);
      DaysOfRecord(rec, days[n]);
      VisitKeepsValid(rec, days[n]);
      VisitTotals(rec, days[n]);
      assert Lookup(rec, days[n]).None? <==> days[n] !in DaysOf(front);
      CardinalityPlusOne(DaysOf(front), days[n]);
    }
  }

  // ---------------------------------------------------------------------------
  // Browser storage and the panel's state, updated in place
  // ---------------------------------------------------------------------------

  /** The two stored items this panel uses: `analytics_data` and `client_id`. */
  class Storage {
    var analytics: Stored
    var clientId: Option<string>

    constructor (analytics: Stored, clientId: Option<string>)
      ensures this.analytics == analytics && this.clientId == clientId
    {
      this.analytics := analytics;
      this.clientId := clientId;
    }

    /**
     * `recordVisit`: keep the client id (an absent or empty one is replaced
     * by `freshClientId`), then count one view for `today`. Unparsable
     * statistics abort the update after the id is written.
     */
    method RecordVisit(today: int, freshClientId: string)
      modifies this
      ensures clientId == if old(clientId) == None || old(clientId) == Some("") then Some(freshClientId) else old(clientId)
      ensures analytics == AfterVisit(old(analytics), today)
    {
      if clientId == None || clientId == Some("") {
        clientId := Some(freshClientId);
      }
      match analytics
      case Unparsable =>
      case Absent =>
        analytics := Data(Visited([], today));
      case Data(rec) =>
        analytics := Data(Visited(rec, today));
    }
  }

  class Panel {
    var analyticsData: Record
    var chartData: seq<DailyStats>
    var totalStats: TotalStats

    /** The chart and the summary cards are derived from the loaded record. */
    ghost predicate Valid()
      reads this
    {
      chartData == ChartData(analyticsData) && totalStats == Totals(analyticsData)
    }

    constructor ()
      ensures Valid() && analyticsData == [] && chartData == [] && totalStats == NoTotals
    {
      analyticsData := [];
      chartData := [];
      totalStats := NoTotals;
    }

    /** `loadAnalytics`: a readable record replaces the state; anything else leaves it. */
    method LoadAnalytics(stored: Stored)
      requires Valid()
      modifies this
      ensures Valid()
      ensures stored.Data? ==> analyticsData == stored.record
      ensures !stored.Data? ==> analyticsData == old(analyticsData) && chartData == old(chartData) && totalStats == old(totalStats)
    {
      if stored.Data? {
        var data := stored.record;
        analyticsData := data;
        chartData := SortByDate(Values(data));
        totalStats := TotalStats(|data|, Sum(data, Clicks), Sum(data, Views));
      }
    }
  }
}
