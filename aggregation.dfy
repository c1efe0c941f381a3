/** The three aggregation pipelines of backend/server.js, as pure functions
    of the collection and a clock reading: the today rollup, the 7-day
    historical rollup and the 30-day insights. Each follows the pipeline's
    stages: `$match` (Window), `$group` (Accumulate, GroupByDay), `$project`
    and `$sort` (the days come out newest first). */
module Aggregation {
  import opened Records

  const MsPerDay := 86_400_000
  /** Days subtracted from the start of today for the stats window. */
  const HistoryDays := 7
  /** Days subtracted from the current instant for the insights window. */
  const InsightDays := 30
  /** A visit shorter than this many seconds is a bounce. */
  const BounceThreshold := 30

  /** The `$dateToString: '%Y-%m-%d'` group key, as the UTC day number of
      the instant. Ordering day numbers agrees with ordering the date
      strings. */
  function DayKey(timestamp: int): int
  {
    timestamp / MsPerDay
  }

  /** The key names the day whose span of `MsPerDay` milliseconds holds the
      instant. */
  lemma DayKeyContains(timestamp: int)
    ensures MsPerDay * DayKey(timestamp) <= timestamp < MsPerDay * (DayKey(timestamp) + 1)
  {
  }

  // ---- $match --------------------------------------------------------

  /** `$match: { timestamp: { $gte: from } }`: the documents at or after
      `from`, in collection order, each as often as it occurs. */
  function Window(s: seq<Visit>, from: int): (w: seq<Visit>)
    ensures forall v {:trigger multiset(w)[v]} ::
      multiset(w)[v] == if v.timestamp >= from then multiset(s)[v] else 0
    ensures forall v :: v in w <==> v in s && v.timestamp >= from
  {
    if s == [] then []
    else
      assert s == [s[0]] + s[1..];
      (if s[0].timestamp >= from then [s[0]] else []) + Window(s[1..], from)
  }

  /** The documents of `w` whose group key is `day`. */
  function OnDay(w: seq<Visit>, day: int): (d: seq<Visit>)
    ensures forall v {:trigger multiset(d)[v]} ::
      multiset(d)[v] == if DayKey(v.timestamp) == day then multiset(w)[v] else 0
    ensures forall v :: v in d <==> v in w && DayKey(v.timestamp) == day
  {
    if w == [] then []
    else
      assert w == [w[0]] + w[1..];
      (if DayKey(w[0].timestamp) == day then [w[0]] else []) + OnDay(w[1..], day)
  }

  // ---- $group accumulators --------------------------------------------

  predicate NoDuplicates(xs: seq<string>)
  {
    forall i, j :: 0 <= i < j < |xs| ==> xs[i] != xs[j]
  }

  /** `$addToSet`: every value once. The order of the array Mongo builds is
      unspecified; this model keeps first occurrences. */
  function Distinct(xs: seq<string>): (r: seq<string>)
    ensures NoDuplicates(r)
    ensures forall x :: x in r <==> x in xs
    ensures |r| <= |xs|
  {
    if xs == [] then []
    else
      var rest := Distinct(xs[..|xs| - 1]);
      if xs[|xs| - 1] in rest then rest else rest + [xs[|xs| - 1]]
  }

  /** A sequence without duplicates has as many elements as the set of its
      elements. */
  lemma {:induction false} NoDuplicatesCardinality(xs: seq<string>)
    requires NoDuplicates(xs)
    ensures |set x | x in xs| == |xs|
  {
    if xs != [] {
      var init := xs[..|xs| - 1];
      assert NoDuplicates(init);
      NoDuplicatesCardinality(init);
      assert (set x | x in xs) == (set x | x in init) + {xs[|xs| - 1]};
      assert xs[|xs| - 1] !in init;
    }
  }

  function VisitorIds(d: seq<Visit>): seq<string>
  {
    seq(|d|, i requires 0 <= i < |d| => d[i].visitorId)
  }

  /** `$sum: '$viewDuration'`. */
  function TotalDuration(d: seq<Visit>): int
  {
    if d == [] then 0 else d[0].viewDuration + TotalDuration(d[1..])
  }

  /** `$sum: { $cond: ['$isNewVisitor', 1, 0] }`. */
  function NewCount(d: seq<Visit>): (n: nat)
    ensures n <= |d|
    ensures n == |d| <==> forall v :: v in d ==> v.isNewVisitor
  {
    if d == [] then 0
    else (if d[0].isNewVisitor then 1 else 0) + NewCount(d[1..])
  }

  /** `$sum: { $cond: [{ $lt: ['$viewDuration', 30] }, 1, 0] }`. */
  function ShortCount(d: seq<Visit>): (n: nat)
    ensures n <= |d|
    ensures n == |d| <==> forall v :: v in d ==> v.viewDuration < BounceThreshold
    ensures n == 0 <==> forall v :: v in d ==> v.viewDuration >= BounceThreshold
  {
    if d == [] then 0
    else (if d[0].viewDuration < BounceThreshold then 1 else 0) + ShortCount(d[1..])
  }

  /** What the `$group` stages accumulate over one group of documents. */
  datatype Totals = Totals(
    visits: nat,
    visitors: seq<string>,
    totalDuration: int,
    newVisitors: nat,
    shortVisits: nat)

  /** The distinct visitor ids among the documents `d`. */
  function VisitorSet(d: seq<Visit>): set<string>
  {
    set v | v in d :: v.visitorId
  }

  function Accumulate(d: seq<Visit>): (t: Totals)
    ensures t.visits == |d|
    ensures NoDuplicates(t.visitors) && (set x | x in t.visitors) == VisitorSet(d)
    ensures |t.visitors| == |VisitorSet(d)|
    ensures |t.visitors| <= t.visits && t.newVisitors <= t.visits && t.shortVisits <= t.visits
  {
    var ids := VisitorIds(d);
    var r := Distinct(ids);
    assert (set x | x in r) == VisitorSet(d) by {
      forall x | x in VisitorSet(d) ensures x in r {
        var v :| v in d && v.visitorId == x;
        var i :| 0 <= i < |d| && d[i] == v;
        assert ids[i] == x;
      }
    }
    NoDuplicatesCardinality(r);
    Totals(|d|, r, TotalDuration(d), NewCount(d), ShortCount(d))
  }

  // ---- Today rollup (server.js 51-66, fallback 99-105) ----------------

  datatype TodayStats = TodayStats(
    totalVisits: nat,
    uniqueVisitors: seq<string>,
    totalViewDuration: int,
    newVisitors: nat)

  /** `todayStats[0] || { ...zeros... }`: what is shown when nothing matched. */
  const EmptyToday := TodayStats(0, [], 0, 0)

  function Today(s: seq<Visit>, startOfToday: int): (t: TodayStats)
    ensures t.totalVisits == |Window(s, startOfToday)|
    ensures t.totalViewDuration == TotalDuration(Window(s, startOfToday))
    ensures t.newVisitors == NewCount(Window(s, startOfToday))
    ensures NoDuplicates(t.uniqueVisitors)
    ensures (set x | x in t.uniqueVisitors) == VisitorSet(Window(s, startOfToday))
    ensures |t.uniqueVisitors| <= t.totalVisits && t.newVisitors <= t.totalVisits
    ensures t.totalVisits == 0 <==> t == EmptyToday
  {
    var w := Window(s, startOfToday);
    if |w| == 0 then EmptyToday
    else
      var g := Accumulate(w);
      TodayStats(g.visits, g.visitors, g.totalDuration, g.newVisitors)
  }

  // ---- grouping by day and sorting ------------------------------------

  predicate StrictlyDescending(ks: seq<int>)
  {
    forall i, j :: 0 <= i < j < |ks| ==> ks[i] > ks[j]
  }

  /** A key above every key of a descending sequence can go in front. */
  lemma ConsDescending(h: int, t: seq<int>)
    requires StrictlyDescending(t) && forall x :: x in t ==> x < h
    ensures StrictlyDescending([h] + t)
  {
    var r := [h] + t;
    forall i, j | 0 <= i < j < |r| ensures r[i] > r[j] {
      assert r[j] == t[j - 1];
      if i > 0 {
        assert r[i] == t[i - 1];
      } else {
        assert t[j - 1] in t;
      }
    }
  }

  /** Places `k` into a strictly descending sequence of keys, once. */
  function Insert(k: int, ks: seq<int>): (r: seq<int>)
    requires StrictlyDescending(ks)
    ensures StrictlyDescending(r)
    ensures forall x :: x in r <==> x == k || x in ks
  {
    if ks == [] then [k]
    else if k > ks[0] then
      assert forall x :: x in ks ==> x <= ks[0];
      ConsDescending(k, ks);
      [k] + ks
    else if k == ks[0] then ks
    else
      assert forall x :: x in ks[1..] ==> x < ks[0];
      var tail := Insert(k, ks[1..]);
      ConsDescending(ks[0], tail);
      [ks[0]] + tail
  }

  /** The group keys of `w`, each once, newest first (`$sort: { _id: -1 }`). */
  function SortedDays(w: seq<Visit>): (ks: seq<int>)
    ensures StrictlyDescending(ks)
    ensures forall k :: k in ks <==> exists v :: v in w && DayKey(v.timestamp) == k
  {
    if w == [] then []
    else
      var rest := SortedDays(w[1..]);
      assert forall v :: v in w <==> v == w[0] || v in w[1..];
      Insert(DayKey(w[0].timestamp), rest)
  }

  /** One output document of a `$group` with a day key. */
  datatype Group = Group(id: int, totals: Totals)

  function GroupsFor(w: seq<Visit>, days: seq<int>): seq<Group>
  {
    seq(|days|, i requires 0 <= i < |days| => Group(days[i], Accumulate(OnDay(w, days[i]))))
  }

  /** `$group` by day followed by `$sort: { _id: -1 }`: one group per day
      that occurs in `w`, newest first, each accumulated over exactly that
      day's documents; together the groups hold every document once. */
  function GroupByDay(w: seq<Visit>): (g: seq<Group>)
    ensures forall i, j :: 0 <= i < j < |g| ==> g[i].id > g[j].id
    ensures forall v :: v in w ==> exists i :: 0 <= i < |g| && g[i].id == DayKey(v.timestamp)
    ensures forall i :: 0 <= i < |g| ==> g[i].totals == Accumulate(OnDay(w, g[i].id))
    ensures forall i :: 0 <= i < |g| ==> g[i].totals.visits > 0
    ensures SumVisits(g) == |w|
  {
    var days := SortedDays(w);
    GroupsNonEmpty(w, days);
    GroupsCoverDays(w, days);
    SumVisitsCovers(w, days);
    GroupsFor(w, days)
  }

  lemma GroupsNonEmpty(w: seq<Visit>, days: seq<int>)
    requires forall k :: k in days ==> exists v :: v in w && DayKey(v.timestamp) == k
    ensures forall i :: 0 <= i < |days| ==> GroupsFor(w, days)[i].totals.visits > 0
  {
    forall i | 0 <= i < |days| ensures GroupsFor(w, days)[i].totals.visits > 0 {
      assert days[i] in days;
      var v :| v in w && DayKey(v.timestamp) == days[i];
      assert v in OnDay(w, days[i]);
    }
  }

  lemma GroupsCoverDays(w: seq<Visit>, days: seq<int>)
    requires forall v :: v in w ==> DayKey(v.timestamp) in days
    ensures forall v :: v in w ==> exists i :: 0 <= i < |days| && GroupsFor(w, days)[i].id == DayKey(v.timestamp)
  {
    forall v | v in w ensures exists i :: 0 <= i < |days| && GroupsFor(w, days)[i].id == DayKey(v.timestamp) {
      var i :| 0 <= i < |days| && days[i] == DayKey(v.timestamp);
      assert GroupsFor(w, days)[i].id == DayKey(v.timestamp);
    }
  }

  // ---- counting visits over groups ------------------------------------

  function SumVisits(g: seq<Group>): nat
  {
    if g == [] then 0 else g[0].totals.visits + SumVisits(g[1..])
  }

  function Occurrences(ks: seq<int>, k: int): nat
  {
    if ks == [] then 0 else (if ks[0] == k then 1 else 0) + Occurrences(ks[1..], k)
  }

  lemma {:induction false} OccursOnce(ks: seq<int>, k: int)
    requires StrictlyDescending(ks) && k in ks
    ensures Occurrences(ks, k) == 1
  {
    if ks[0] != k {
      OccursOnce(ks[1..], k);
    } else {
      OccursNot(ks[1..], k);
    }
  }

  lemma {:induction false} OccursNot(ks: seq<int>, k: int)
    requires k !in ks
    ensures Occurrences(ks, k) == 0
  {
    if ks != [] {
      OccursNot(ks[1..], k);
    }
  }

  /** Splitting off the first document of `w` takes one visit away from the
      group of its own day, and only from that one. */
  lemma {:induction false} SumVisitsCons(w: seq<Visit>, days: seq<int>)
    requires w != []
    ensures SumVisits(GroupsFor(w, days))
         == Occurrences(days, DayKey(w[0].timestamp)) + SumVisits(GroupsFor(w[1..], days))
  {
    if days != [] {
      assert GroupsFor(w, days)[1..] == GroupsFor(w, days[1..]);
      assert GroupsFor(w[1..], days)[1..] == GroupsFor(w[1..], days[1..]);
      SumVisitsCons(w, days[1..]);
    }
  }

  lemma {:induction false} SumVisitsEmpty(days: seq<int>)
    ensures SumVisits(GroupsFor([], days)) == 0
  {
    if days != [] {
      assert GroupsFor([], days)[1..] == GroupsFor([], days[1..]);
      SumVisitsEmpty(days[1..]);
    }
  }

  /** When every document's day is among the (distinct) keys, the groups'
      visit counts add up to the number of documents. */
  lemma {:induction false} SumVisitsCovers(w: seq<Visit>, days: seq<int>)
    requires StrictlyDescending(days)
    requires forall v :: v in w ==> DayKey(v.timestamp) in days
    ensures SumVisits(GroupsFor(w, days)) == |w|
  {
    if w == [] {
      SumVisitsEmpty(days);
    } else {
      SumVisitsCons(w, days);
      OccursOnce(days, DayKey(w[0].timestamp));
      SumVisitsCovers(w[1..], days);
    }
  }

  // ---- $project ---------------------------------------------------------

  /** `$divide: [total, visits]`, exact. */
  function Average(total: int, visits: nat): (r: real)
    requires visits > 0
    ensures r * visits as real == total as real
    ensures total >= 0 ==> r >= 0.0
  {
    total as real / visits as real
  }

  lemma FractionAtMostOne(part: real, whole: real)
    requires 0.0 <= part <= whole && whole > 0.0
    ensures part / whole <= 1.0
  {
    assert part / whole * whole == part;
  }

  /** `$multiply: [{ $divide: [shortVisits, totalVisits] }, 100]`, exact. */
  function BounceRate(shortVisits: nat, totalVisits: nat): (r: real)
    requires shortVisits <= totalVisits && totalVisits > 0
    ensures 0.0 <= r <= 100.0
    ensures r == 100.0 <==> shortVisits == totalVisits
    ensures r == 0.0 <==> shortVisits == 0
  {
    var ratio := shortVisits as real / totalVisits as real;
    assert ratio * totalVisits as real == shortVisits as real;
    FractionAtMostOne(shortVisits as real, totalVisits as real);
    ratio * 100.0
  }

  // ---- 7-day historical rollup (server.js 69-97) ----------------------

  datatype DayStats = DayStats(id: int, visits: nat, uniqueVisitors: seq<string>, avgViewDuration: real)

  function ProjectDay(g: Group): (e: DayStats)
    requires g.totals.visits > 0
    ensures e.id == g.id && e.visits == g.totals.visits && e.uniqueVisitors == g.totals.visitors
    ensures e.avgViewDuration * e.visits as real == g.totals.totalDuration as real
  {
    DayStats(g.id, g.totals.visits, g.totals.visitors, Average(g.totals.totalDuration, g.totals.visits))
  }

  /** The window of the stats endpoint: 7 days before the start of today. */
  function HistoryStart(startOfToday: int): int
  {
    startOfToday - HistoryDays * MsPerDay
  }

  function Historical(s: seq<Visit>, startOfToday: int): seq<DayStats>
  {
    var g := GroupByDay(Window(s, HistoryStart(startOfToday)));
    seq(|g|, i requires 0 <= i < |g| => ProjectDay(g[i]))
  }

  /** The response of `GET /stats` (and of `record-visit`). */
  datatype Snapshot = Snapshot(today: TodayStats, historical: seq<DayStats>)

  function Stats(s: seq<Visit>, startOfToday: int): Snapshot
  {
    Snapshot(Today(s, startOfToday), Historical(s, startOfToday))
  }

  // ---- 30-day insights (server.js 201-246) ----------------------------

  datatype DayInsight = DayInsight(
    id: int,
    totalVisits: nat,
    uniqueVisitors: nat,
    avgViewDuration: real,
    newVisitors: nat,
    bounceRate: real)

  function ProjectInsight(g: Group): (e: DayInsight)
    requires g.totals.visits > 0 && g.totals.shortVisits <= g.totals.visits
    ensures e.id == g.id && e.totalVisits == g.totals.visits && e.newVisitors == g.totals.newVisitors
    ensures e.uniqueVisitors == |g.totals.visitors|
    ensures e.avgViewDuration * e.totalVisits as real == g.totals.totalDuration as real
    ensures 0.0 <= e.bounceRate <= 100.0
    ensures e.bounceRate == 100.0 <==> g.totals.shortVisits == g.totals.visits
  {
    var t := g.totals;
    DayInsight(g.id, t.visits, |t.visitors|, Average(t.totalDuration, t.visits), t.newVisitors,
               BounceRate(t.shortVisits, t.visits))
  }

  /** The window of the insights endpoint: 30 days before the current
      instant, not before a midnight. */
  function InsightStart(now: int): int
  {
    now - InsightDays * MsPerDay
  }

  function Insights(s: seq<Visit>, now: int): seq<DayInsight>
  {
    var g := GroupByDay(Window(s, InsightStart(now)));
    seq(|g|, i requires 0 <= i < |g| => ProjectInsight(g[i]))
  }

  // ---- properties of the rollups --------------------------------------

  function DayVisits(h: seq<DayStats>): nat
  {
    if h == [] then 0 else h[0].visits + DayVisits(h[1..])
  }

  function InsightVisits(r: seq<DayInsight>): nat
  {
    if r == [] then 0 else r[0].totalVisits + InsightVisits(r[1..])
  }

  lemma {:induction false} DayVisitsOfGroups(g: seq<Group>)
    requires forall i :: 0 <= i < |g| ==> g[i].totals.visits > 0
    ensures DayVisits(seq(|g|, i requires 0 <= i < |g| => ProjectDay(g[i]))) == SumVisits(g)
  {
    if g != [] {
      var h := seq(|g|, i requires 0 <= i < |g| => ProjectDay(g[i]));
      var tail := g[1..];
      assert h[1..] == seq(|tail|, i requires 0 <= i < |tail| => ProjectDay(tail[i]));
      DayVisitsOfGroups(tail);
    }
  }

  lemma {:induction false} InsightVisitsOfGroups(g: seq<Group>)
    requires forall i :: 0 <= i < |g| ==> g[i].totals.visits > 0 && g[i].totals.shortVisits <= g[i].totals.visits
    ensures InsightVisits(seq(|g|, i requires 0 <= i < |g| => ProjectInsight(g[i]))) == SumVisits(g)
  {
    if g != [] {
      var r := seq(|g|, i requires 0 <= i < |g| => ProjectInsight(g[i]));
      var tail := g[1..];
      assert r[1..] == seq(|tail|, i requires 0 <= i < |tail| => ProjectInsight(tail[i]));
      InsightVisitsOfGroups(tail);
    }
  }

  /** What one projected day of the 7-day rollup says about that day's
      documents `d`. */
  ghost predicate DayStatsOf(e: DayStats, d: seq<Visit>)
  {
    && e.visits == |d| > 0
    && NoDuplicates(e.uniqueVisitors)
    && |e.uniqueVisitors| <= e.visits
    && (set x | x in e.uniqueVisitors) == VisitorSet(d)
    && e.avgViewDuration == Average(TotalDuration(d), |d|)
  }

  /** What one projected day of the insights says about that day's
      documents `d`. */
  ghost predicate DayInsightOf(e: DayInsight, d: seq<Visit>)
  {
    && e.totalVisits == |d| > 0
    && e.uniqueVisitors == |VisitorSet(d)|
    && e.uniqueVisitors <= e.totalVisits
    && e.newVisitors == NewCount(d) <= e.totalVisits
    && e.avgViewDuration == Average(TotalDuration(d), |d|)
    && e.bounceRate == BounceRate(ShortCount(d), |d|)
    && 0.0 <= e.bounceRate <= 100.0
    && (e.bounceRate == 100.0 <==> forall v :: v in d ==> v.viewDuration < BounceThreshold)
  }

  lemma ProjectDayOf(g: Group, d: seq<Visit>)
    requires g.totals == Accumulate(d) && g.totals.visits > 0
    ensures DayStatsOf(ProjectDay(g), d)
  {
  }

  lemma ProjectInsightOf(g: Group, d: seq<Visit>)
    requires g.totals == Accumulate(d) && g.totals.visits > 0
    ensures DayInsightOf(ProjectInsight(g), d)
  {
  }

  /** The 7-day rollup (server.js 69-97): one entry per day that has a
      document at or after 7 days before the start of today, newest first,
      every entry with at least one visit (so its average is defined), its
      visit count, visitor set and average taken over exactly that day's
      documents, and the visit counts adding up to the whole window. */
  lemma HistoricalRollup(s: seq<Visit>, startOfToday: int)
    ensures var h := Historical(s, startOfToday);
      forall i, j :: 0 <= i < j < |h| ==> h[i].id > h[j].id
    ensures var h := Historical(s, startOfToday);
      forall v :: v in s && v.timestamp >= HistoryStart(startOfToday) ==>
        exists i :: 0 <= i < |h| && h[i].id == DayKey(v.timestamp)
    ensures var h := Historical(s, startOfToday);
      forall i :: 0 <= i < |h| ==> DayStatsOf(h[i], OnDay(Window(s, HistoryStart(startOfToday)), h[i].id))
    ensures DayVisits(Historical(s, startOfToday)) == |Window(s, HistoryStart(startOfToday))|
  {
    var w := Window(s, HistoryStart(startOfToday));
    var g := GroupByDay(w);
    var h := Historical(s, startOfToday);
    assert |h| == |g|;
    DayVisitsOfGroups(g);
    forall i | 0 <= i < |h| ensures DayStatsOf(h[i], OnDay(w, h[i].id)) {
      assert h[i] == ProjectDay(g[i]);
      ProjectDayOf(g[i], OnDay(w, g[i].id));
    }
    forall v | v in s && v.timestamp >= HistoryStart(startOfToday)
      ensures exists i :: 0 <= i < |h| && h[i].id == DayKey(v.timestamp)
    {
      assert v in w;
      var i :| 0 <= i < |g| && g[i].id == DayKey(v.timestamp);
      assert h[i].id == g[i].id;
    }
  }

  /** The 30-day insights (server.js 201-246): like the 7-day rollup but
      over the documents at or after 30 days before now, with the distinct
      visitors as a count, the new visitors, and the bounce rate: exactly
      100 times the share of visits under 30 seconds, within [0, 100], and
      100 exactly when every visit of that day in the window was short. */
  lemma InsightsRollup(s: seq<Visit>, now: int)
    ensures var r := Insights(s, now);
      forall i, j :: 0 <= i < j < |r| ==> r[i].id > r[j].id
    ensures var r := Insights(s, now);
      forall v :: v in s && v.timestamp >= InsightStart(now) ==>
        exists i :: 0 <= i < |r| && r[i].id == DayKey(v.timestamp)
    ensures var r := Insights(s, now);
      forall i :: 0 <= i < |r| ==> DayInsightOf(r[i], OnDay(Window(s, InsightStart(now)), r[i].id))
    ensures InsightVisits(Insights(s, now)) == |Window(s, InsightStart(now))|
  {
    var w := Window(s, InsightStart(now));
    var g := GroupByDay(w);
    var r := Insights(s, now);
    assert |r| == |g|;
    InsightVisitsOfGroups(g);
    forall i | 0 <= i < |r| ensures DayInsightOf(r[i], OnDay(w, r[i].id)) {
      assert r[i] == ProjectInsight(g[i]);
      ProjectInsightOf(g[i], OnDay(w, g[i].id));
    }
    forall v | v in s && v.timestamp >= InsightStart(now)
      ensures exists i :: 0 <= i < |r| && r[i].id == DayKey(v.timestamp)
    {
      assert v in w;
      var i :| 0 <= i < |g| && g[i].id == DayKey(v.timestamp);
      assert r[i].id == g[i].id;
    }
  }

  /** A day's bounce rate is 100 exactly when every document of that day in
      the 30-day window is a visit of under 30 seconds. */
  lemma BounceRateAllShort(s: seq<Visit>, now: int, i: nat)
    requires i < |Insights(s, now)|
    ensures var e := Insights(s, now)[i];
      e.bounceRate == 100.0 <==>
        forall v :: v in s && v.timestamp >= InsightStart(now) && DayKey(v.timestamp) == e.id
          ==> v.viewDuration < BounceThreshold
  {
    InsightsRollup(s, now);
  }
}
