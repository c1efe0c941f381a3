/** The four routes of backend/server.js over one Traffic collection, and
    how recording a visit and updating a duration move the rollups. */
module Server {
  import opened Records
  import opened Aggregation

  /** The Traffic collection, in insertion order. */
  class TrafficStore {
    var records: seq<Visit>

    constructor ()
      ensures records == []
    {
      records := [];
    }

    /** `POST /api/traffic/record-visit` (server.js 33-109): saves a new
        document stamped `now` with the default view duration and answers
        with the stats of the collection as it is after the save, computed
        for the start of the day `startOfToday` read after the save. */
    method RecordVisit(visitorId: string, sessionId: string, pageUrl: string, referrer: string,
                       isNewVisitor: bool, now: int, startOfToday: int)
      returns (snapshot: Snapshot)
      modifies this
      ensures records == old(records) + [Visit(visitorId, sessionId, now, pageUrl, referrer,
                                               DefaultViewDuration, isNewVisitor)]
      ensures snapshot == Stats(records, startOfToday)
      ensures now >= startOfToday ==>
        && snapshot.today.totalVisits == Today(old(records), startOfToday).totalVisits + 1
        && visitorId in snapshot.today.uniqueVisitors
      ensures now < startOfToday ==> snapshot.today == Today(old(records), startOfToday)
    {
      var traffic := Visit(visitorId, sessionId, now, pageUrl, referrer, DefaultViewDuration, isNewVisitor);
      if now >= startOfToday {
        TodayAfterRecord(records, traffic, startOfToday);
      } else {
        TodayIgnoresEarlier(records, traffic, startOfToday);
      }
      records := records + [traffic];
      snapshot := GetStats(startOfToday);
    }

    /** `POST /api/traffic/update-duration` (server.js 116-128): overwrites
        the duration of the first document of the session, if any, and
        reports success either way. */
    method UpdateDuration(sessionId: string, duration: int) returns (success: bool)
      modifies this
      ensures records == SetDuration(old(records), sessionId, duration)
      ensures |records| == |old(records)|
      ensures FirstSession(old(records), sessionId).None? ==> records == old(records)
      ensures success
    {
      SetDurationAtFirst(records, sessionId, duration);
      records := SetDuration(records, sessionId, duration);
      success := true;
    }

    /** `GET /api/traffic/stats` (server.js 130-197). */
    method GetStats(startOfToday: int) returns (snapshot: Snapshot)
      ensures snapshot == Stats(records, startOfToday)
      ensures snapshot.today.totalVisits == |Window(records, startOfToday)|
      ensures DayVisits(snapshot.historical) == |Window(records, HistoryStart(startOfToday))|
    {
      HistoricalRollup(records, startOfToday);
      snapshot := Stats(records, startOfToday);
    }

    /** `GET /api/traffic/insights` (server.js 199-253). */
    method GetInsights(now: int) returns (dailyStats: seq<DayInsight>)
      ensures dailyStats == Insights(records, now)
      ensures forall i :: 0 <= i < |dailyStats| ==> 0.0 <= dailyStats[i].bounceRate <= 100.0
      ensures InsightVisits(dailyStats) == |Window(records, InsightStart(now))|
    {
      InsightsRollup(records, now);
      dailyStats := Insights(records, now);
    }
  }

  // ---- how the today rollup moves ---------------------------------------

  lemma {:induction false} WindowAppend(s: seq<Visit>, v: Visit, from: int)
    ensures Window(s + [v], from) == Window(s, from) + (if v.timestamp >= from then [v] else [])
  {
    if s != [] {
      assert (s + [v])[1..] == s[1..] + [v];
      WindowAppend(s[1..], v, from);
    }
  }

  lemma {:induction false} TotalDurationAppend(a: seq<Visit>, b: seq<Visit>)
    ensures TotalDuration(a + b) == TotalDuration(a) + TotalDuration(b)
  {
    if a != [] {
      assert (a + b)[1..] == a[1..] + b;
      TotalDurationAppend(a[1..], b);
    } else {
      assert a + b == b;
    }
  }

  lemma {:induction false} NewCountAppend(a: seq<Visit>, b: seq<Visit>)
    ensures NewCount(a + b) == NewCount(a) + NewCount(b)
  {
    if a != [] {
      assert (a + b)[1..] == a[1..] + b;
      NewCountAppend(a[1..], b);
    } else {
      assert a + b == b;
    }
  }

  /** Saving a visit stamped at or after the start of today adds one visit
      to today's rollup, adds its visitor to the distinct visitors, counts
      it as new when it is, and adds its duration. */
  lemma TodayAfterRecord(s: seq<Visit>, v: Visit, startOfToday: int)
    requires v.timestamp >= startOfToday
    ensures var before, after := Today(s, startOfToday), Today(s + [v], startOfToday);
      && after.totalVisits == before.totalVisits + 1
      && (set x | x in after.uniqueVisitors) == (set x | x in before.uniqueVisitors) + {v.visitorId}
      && after.newVisitors == before.newVisitors + (if v.isNewVisitor then 1 else 0)
      && after.totalViewDuration == before.totalViewDuration + v.viewDuration
  {
    var w := Window(s, startOfToday);
    WindowAppend(s, v, startOfToday);
    assert Window(s + [v], startOfToday) == w + [v];
    TotalDurationAppend(w, [v]);
    NewCountAppend(w, [v]);
    assert [v][1..] == [];
    VisitorSetAppend(w, v);
  }

  lemma VisitorSetAppend(w: seq<Visit>, v: Visit)
    ensures VisitorSet(w + [v]) == VisitorSet(w) + {v.visitorId}
  {
    assert forall x :: x in w + [v] <==> x in w || x == v;
  }

  /** A visit stamped before the start of today leaves today's rollup as it
      was. */
  lemma TodayIgnoresEarlier(s: seq<Visit>, v: Visit, startOfToday: int)
    requires v.timestamp < startOfToday
    ensures Today(s + [v], startOfToday) == Today(s, startOfToday)
  {
    WindowAppend(s, v, startOfToday);
    assert s + [v] != s;
    assert Window(s + [v], startOfToday) == Window(s, startOfToday);
  }

  /** The change a duration update makes to a window's total duration: the
      new duration minus the old one of the session's first document when
      that document lies in the window, otherwise 0. */
  function DurationShift(s: seq<Visit>, sessionId: string, duration: int, from: int): int
  {
    match FirstSession(s, sessionId)
    case Some(i) => if s[i].timestamp >= from then duration - s[i].viewDuration else 0
    case None => 0
  }

  /** `r` is `s` with, at most, other view durations. */
  ghost predicate SameButDuration(r: seq<Visit>, s: seq<Visit>)
  {
    |r| == |s| && forall i :: 0 <= i < |s| ==> r[i] == s[i].(viewDuration := r[i].viewDuration)
  }

  lemma {:induction false} WindowSameButDuration(r: seq<Visit>, s: seq<Visit>, from: int)
    requires SameButDuration(r, s)
    ensures SameButDuration(Window(r, from), Window(s, from))
  {
    if s != [] {
      assert SameButDuration(r[1..], s[1..]);
      WindowSameButDuration(r[1..], s[1..], from);
    }
  }

  lemma {:induction false} SameButDurationCounts(r: seq<Visit>, s: seq<Visit>)
    requires SameButDuration(r, s)
    ensures NewCount(r) == NewCount(s) && VisitorSet(r) == VisitorSet(s)
  {
    if s != [] {
      assert SameButDuration(r[1..], s[1..]);
      SameButDurationCounts(r[1..], s[1..]);
      assert r == [r[0]] + r[1..] && s == [s[0]] + s[1..];
      assert VisitorSet(r) == {r[0].visitorId} + VisitorSet(r[1..]);
      assert VisitorSet(s) == {s[0].visitorId} + VisitorSet(s[1..]);
    }
  }

  lemma WindowDurationCons(s: seq<Visit>, from: int)
    requires s != []
    ensures TotalDuration(Window(s, from))
         == (if s[0].timestamp >= from then s[0].viewDuration else 0) + TotalDuration(Window(s[1..], from))
  {
    var head := if s[0].timestamp >= from then [s[0]] else [];
    assert Window(s, from) == head + Window(s[1..], from);
    TotalDurationAppend(head, Window(s[1..], from));
  }

  lemma DurationShiftCons(s: seq<Visit>, sessionId: string, duration: int, from: int)
    requires s != [] && s[0].sessionId != sessionId
    ensures DurationShift(s, sessionId, duration, from) == DurationShift(s[1..], sessionId, duration, from)
  {
    match FirstSession(s[1..], sessionId)
    case None =>
    case Some(i) => assert s[i + 1] == s[1..][i];
  }

  lemma {:induction false} WindowDurationAfterUpdate(s: seq<Visit>, sessionId: string, duration: int, from: int)
    ensures TotalDuration(Window(SetDuration(s, sessionId, duration), from))
         == TotalDuration(Window(s, from)) + DurationShift(s, sessionId, duration, from)
  {
    if s != [] {
      var r := SetDuration(s, sessionId, duration);
      WindowDurationCons(s, from);
      WindowDurationCons(r, from);
      if s[0].sessionId == sessionId {
        assert r[1..] == s[1..];
      } else {
        assert r[1..] == SetDuration(s[1..], sessionId, duration);
        DurationShiftCons(s, sessionId, duration, from);
        WindowDurationAfterUpdate(s[1..], sessionId, duration, from);
      }
    }
  }

  /** What a duration update changes in a window: the number of documents,
      the new-visitor count and the visitor set stay; the total duration moves
      by the difference on the updated document, if it lies in the window. */
  lemma WindowAfterUpdate(s: seq<Visit>, sessionId: string, duration: int, from: int)
    ensures var w, w' := Window(s, from), Window(SetDuration(s, sessionId, duration), from);
      && |w'| == |w|
      && NewCount(w') == NewCount(w)
      && VisitorSet(w') == VisitorSet(w)
      && TotalDuration(w') == TotalDuration(w) + DurationShift(s, sessionId, duration, from)
  {
    var r := SetDuration(s, sessionId, duration);
    SetDurationAtFirst(s, sessionId, duration);
    assert SameButDuration(r, s);
    WindowSameButDuration(r, s, from);
    SameButDurationCounts(Window(r, from), Window(s, from));
    WindowDurationAfterUpdate(s, sessionId, duration, from);
  }

  /** A duration update leaves today's visit, visitor and new-visitor figures
      as they were and moves today's total duration by the overwritten
      difference when the updated document is from today; an update for an
      unknown session changes nothing. */
  lemma TodayAfterUpdate(s: seq<Visit>, sessionId: string, duration: int, startOfToday: int)
    ensures var before, after := Today(s, startOfToday), Today(SetDuration(s, sessionId, duration), startOfToday);
      && after.totalVisits == before.totalVisits
      && (set x | x in after.uniqueVisitors) == (set x | x in before.uniqueVisitors)
      && after.newVisitors == before.newVisitors
      && after.totalViewDuration == before.totalViewDuration + DurationShift(s, sessionId, duration, startOfToday)
  {
    WindowAfterUpdate(s, sessionId, duration, startOfToday);
  }
}
