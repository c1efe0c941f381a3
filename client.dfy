/** The browser side of src/App.js: the visitor/session gate run by
    `initializeVisitor`, the duration it reports, and the projection of
    the server's stats into the displayed figures. The two Web Storage
    areas are maps; every request the page issues is appended to `sent`. */
module Client {
  import opened Records
  import opened Aggregation

  const VisitorIdKey := "visitorId"
  const FirstVisitKey := "firstVisit"
  const CurrentSessionKey := "currentSession"

  /** `!!storage.getItem(key)`: `getItem` answers null for a missing key,
      and the empty string is falsy too. */
  predicate Holds(storage: map<string, string>, key: string)
  {
    key in storage && storage[key] != ""
  }

  /** The requests the page sends to the backend. */
  datatype Request =
    | RecordVisitRequest(visitorId: string, sessionId: string, pageUrl: string, referrer: string,
                         isNewVisitor: bool)
    | UpdateDurationRequest(sessionId: string, duration: int)
    | StatsRequest

  /** The `visitorStats` state of the page. */
  datatype DisplayStats = DisplayStats(totalVisits: nat, uniqueVisitors: nat, avgViewDuration: int,
                                       newVisitors: nat)

  const InitialDisplay := DisplayStats(0, 0, 0, 0)

  /** What the `updateDuration` closure captures: this load's sessionId and
      the clock reading taken once before the listeners are installed. */
  datatype Tracker = Tracker(sessionId: string, startTime: int)

  /** `Math.floor((now - startTime) / 1000)`: whole seconds elapsed. */
  function ElapsedSeconds(startTime: int, now: int): (seconds: int)
    ensures 1000 * seconds <= now - startTime < 1000 * (seconds + 1)
    ensures now >= startTime ==> seconds >= 0
  {
    (now - startTime) / 1000
  }

  /** Because the start time is fixed, a later firing never reports less. */
  lemma ElapsedSecondsMonotone(startTime: int, earlier: int, later: int)
    requires earlier <= later
    ensures ElapsedSeconds(startTime, earlier) <= ElapsedSeconds(startTime, later)
  {
  }

  /** The figures `updateStats` puts on screen (App.js 104-110). The today
      object the backend sends has no `avgViewDuration` field, so
      `Math.round(undefined) || 0` always shows 0. */
  function Project(data: Snapshot): (shown: DisplayStats)
  {
    DisplayStats(data.today.totalVisits, |data.today.uniqueVisitors|, 0, data.today.newVisitors)
  }

  /** Shown for the backend's stats, the figures are today's visit count,
      the number of distinct visitors today, and today's new visitors. */
  lemma DisplayedToday(s: seq<Visit>, startOfToday: int)
    ensures var shown := Project(Stats(s, startOfToday));
      && shown.totalVisits == |Window(s, startOfToday)|
      && shown.uniqueVisitors == |VisitorSet(Window(s, startOfToday))|
      && shown.uniqueVisitors <= shown.totalVisits
      && shown.newVisitors == NewCount(Window(s, startOfToday))
      && shown.avgViewDuration == 0
  {
    var w := Window(s, startOfToday);
    if |w| > 0 {
      assert Today(s, startOfToday).uniqueVisitors == Accumulate(w).visitors;
    }
  }

  /** One page of the app: its storage, its React state and the requests it
      has sent. */
  class App {
    var localStorage: map<string, string>
    var sessionStorage: map<string, string>
    var visitorStats: DisplayStats
    var historicalData: seq<DayStats>
    var loading: bool
    var sent: seq<Request>

    /** A page load in a browser whose storage holds `local` and, for this
        tab, `session` (App.js 9-16). */
    constructor (local: map<string, string>, session: map<string, string>)
      ensures localStorage == local && sessionStorage == session
      ensures visitorStats == InitialDisplay && historicalData == [] && loading && sent == []
    {
      localStorage, sessionStorage := local, session;
      visitorStats, historicalData, loading, sent := InitialDisplay, [], true, [];
    }

    /** `updateStats` (App.js 104-113). */
    method UpdateStats(data: Snapshot)
      modifies this
      ensures visitorStats == Project(data) && historicalData == data.historical && !loading
      ensures localStorage == old(localStorage) && sessionStorage == old(sessionStorage)
      ensures sent == old(sent)
    {
      visitorStats := Project(data);
      historicalData := data.historical;
      loading := false;
    }

    /** `fetchStats` (App.js 93-102): asks for `/stats`; `response` is what
        comes back, None when the fetch or the JSON decoding throws. */
    method FetchStats(response: Option<Snapshot>)
      modifies this
      ensures sent == old(sent) + [StatsRequest]
      ensures localStorage == old(localStorage) && sessionStorage == old(sessionStorage)
      ensures !loading
      ensures response.Some? ==> visitorStats == Project(response.value) && historicalData == response.value.historical
      ensures response.None? ==> visitorStats == old(visitorStats) && historicalData == old(historicalData)
    {
      sent := sent + [StatsRequest];
      if response.None? {
        loading := false;
      } else {
        UpdateStats(response.value);
      }
    }

    /** `initializeVisitor` (App.js 18-91). The random ids, the clock and the
        two responses are inputs: `generatedId` is the id drawn on line 24,
        `sessionId` the one on line 29, `firstVisit` the ISO time of line 26,
        `recordResponse` the answer to `record-visit` (None when the fetch
        throws, or the body is not a stats snapshot and `updateStats`
        throws), `startTime` the reading of line 51 and `statsResponse` the
        answer to the `fetchStats` of line 78. The result is the duration
        tracker the listeners capture, None when the catch block ran. */
    method InitializeVisitor(generatedId: string, sessionId: string, firstVisit: string,
                             pageUrl: string, referrer: string, recordResponse: Option<Snapshot>,
                             startTime: int, statsResponse: Option<Snapshot>)
      returns (tracker: Option<Tracker>)
      modifies this
      // identity: a stored id is reused, otherwise the generated one is stored
      ensures VisitorIdKey in localStorage
      ensures Holds(old(localStorage), VisitorIdKey) ==> localStorage == old(localStorage)
      ensures !Holds(old(localStorage), VisitorIdKey) ==>
        localStorage == old(localStorage)[VisitorIdKey := generatedId][FirstVisitKey := firstVisit]
      // the once-per-tab gate
      ensures var recorded := !Holds(old(sessionStorage), CurrentSessionKey);
              var visitorId := if Holds(old(localStorage), VisitorIdKey)
                               then old(localStorage)[VisitorIdKey] else generatedId;
              var request := RecordVisitRequest(visitorId, sessionId, pageUrl, referrer,
                                                !Holds(old(localStorage), VisitorIdKey));
        && (!recorded ==> sent == old(sent) + [StatsRequest] && sessionStorage == old(sessionStorage))
        && (recorded && recordResponse.None? ==> sent == old(sent) + [request]
                                                 && sessionStorage == old(sessionStorage))
        && (recorded && recordResponse.Some? ==> sent == old(sent) + [request, StatsRequest]
                                                 && sessionStorage == old(sessionStorage)[CurrentSessionKey := sessionId])
      // what the listeners will report against
      ensures !Holds(old(sessionStorage), CurrentSessionKey) && recordResponse.None? ==> tracker == None
      ensures Holds(old(sessionStorage), CurrentSessionKey) || recordResponse.Some? ==>
        tracker == Some(Tracker(sessionId, startTime))
      // what is on screen
      ensures !loading
      ensures tracker.Some? && statsResponse.Some? ==>
        visitorStats == Project(statsResponse.value) && historicalData == statsResponse.value.historical
      ensures tracker.Some? && statsResponse.None? && recordResponse.Some? && !Holds(old(sessionStorage), CurrentSessionKey) ==>
        visitorStats == Project(recordResponse.value) && historicalData == recordResponse.value.historical
      ensures (tracker.None? || (statsResponse.None? && Holds(old(sessionStorage), CurrentSessionKey))) ==>
        visitorStats == old(visitorStats) && historicalData == old(historicalData)
    {
      var visitorId := if VisitorIdKey in localStorage then localStorage[VisitorIdKey] else "";
      var isNewVisitor := !Holds(localStorage, VisitorIdKey);

      if isNewVisitor {
        visitorId := generatedId;
        localStorage := localStorage[VisitorIdKey := visitorId];
        localStorage := localStorage[FirstVisitKey := firstVisit];
      }

      if !Holds(sessionStorage, CurrentSessionKey) {
        sent := sent + [RecordVisitRequest(visitorId, sessionId, pageUrl, referrer, isNewVisitor)];
        if recordResponse.None? {
          // the catch block
          loading := false;
          return None;
        }
        UpdateStats(recordResponse.value);
        sessionStorage := sessionStorage[CurrentSessionKey := sessionId];
      }

      tracker := Some(Tracker(sessionId, startTime));
      FetchStats(statsResponse);
    }

    /** The `updateDuration` closure (App.js 53-69), fired on `beforeunload`
        or when the tab is hidden at time `now`. It always reports against
        the sessionId of the load that installed it; a failed request is
        only logged. */
    method SendDuration(tracker: Tracker, now: int)
      modifies this
      ensures sent == old(sent) + [UpdateDurationRequest(tracker.sessionId, ElapsedSeconds(tracker.startTime, now))]
      ensures localStorage == old(localStorage) && sessionStorage == old(sessionStorage)
      ensures visitorStats == old(visitorStats) && historicalData == old(historicalData) && loading == old(loading)
    {
      var duration := ElapsedSeconds(tracker.startTime, now);
      sent := sent + [UpdateDurationRequest(tracker.sessionId, duration)];
    }
  }

  /** Two loads in one tab, the first recorded: the second sends no
      `record-visit`, keeps the visitor id and the marker, and its duration
      reports name its own sessionId, which no `record-visit` carried. */
  method ReloadInSameTab(local: map<string, string>, session: map<string, string>,
                         firstId: string, secondId: string, now: int, data: Snapshot)
    returns (first: App, second: App, tracker: Option<Tracker>)
    requires !Holds(session, CurrentSessionKey) && firstId != "" && firstId != secondId
    ensures |first.sent| == 2 && first.sent[0].RecordVisitRequest? && first.sent[0].sessionId == firstId
    ensures first.sessionStorage == session[CurrentSessionKey := firstId]
    ensures second.sessionStorage == first.sessionStorage
    ensures second.localStorage == first.localStorage
    ensures tracker == Some(Tracker(secondId, now))
    ensures second.sent == [StatsRequest, UpdateDurationRequest(secondId, 0)]
  {
    first := new App(local, session);
    var t1 := first.InitializeVisitor("generated", firstId, "now", "/", "", Some(data), now, Some(data));
    assert first.sessionStorage[CurrentSessionKey] == firstId;
    second := new App(first.localStorage, first.sessionStorage);
    tracker := second.InitializeVisitor("generated-2", secondId, "later", "/", "", Some(data), now, Some(data));
    second.SendDuration(tracker.value, now);
  }
}
