/** The documents of the Traffic collection and the one update that
    the backend applies to them (backend/server.js). */
module Records {

  datatype Option<T> = None | Some(value: T)

  /** One document of the Traffic collection. `timestamp` is in
      milliseconds since the epoch; `viewDuration` is in seconds and is the
      only field ever changed after insertion. */
  datatype Visit = Visit(
    visitorId: string,
    sessionId: string,
    timestamp: int,
    pageUrl: string,
    referrer: string,
    viewDuration: int,
    isNewVisitor: bool)

  /** The schema default of `viewDuration`. */
  const DefaultViewDuration := 0

  /** The index of the document `findOneAndUpdate({ sessionId }, ...)` picks:
      the first one, in insertion order, whose sessionId matches. */
  function FirstSession(s: seq<Visit>, sessionId: string): (r: Option<nat>)
    ensures r.Some? ==> r.value < |s| && s[r.value].sessionId == sessionId
    ensures r.Some? ==> forall j :: 0 <= j < r.value ==> s[j].sessionId != sessionId
    ensures r.None? <==> forall j :: 0 <= j < |s| ==> s[j].sessionId != sessionId
  {
    if s == [] then None
    else if s[0].sessionId == sessionId then Some(0)
    else match FirstSession(s[1..], sessionId)
      case None => None
      case Some(i) => Some(i + 1)
  }

  /** The collection after `findOneAndUpdate({ sessionId }, { viewDuration: duration })`,
      walking the documents in insertion order. */
  function SetDuration(s: seq<Visit>, sessionId: string, duration: int): (r: seq<Visit>)
    ensures |r| == |s|
  {
    if s == [] then []
    else if s[0].sessionId == sessionId then [s[0].(viewDuration := duration)] + s[1..]
    else [s[0]] + SetDuration(s[1..], sessionId, duration)
  }

  /** The update overwrites the duration of the first document of the
      session and leaves every other document as it was; with no such
      document the collection is unchanged. */
  lemma {:induction false} SetDurationAtFirst(s: seq<Visit>, sessionId: string, duration: int)
    ensures SetDuration(s, sessionId, duration) == match FirstSession(s, sessionId)
      case None => s
      case Some(i) => s[i := s[i].(viewDuration := duration)]
  {
    if s != [] {
      var head := s[0].(viewDuration := duration);
      if s[0].sessionId == sessionId {
        assert [head] + s[1..] == s[0 := head];
      } else {
        SetDurationAtFirst(s[1..], sessionId, duration);
        assert s == [s[0]] + s[1..];
        match FirstSession(s[1..], sessionId)
        case None =>
        case Some(i) =>
          var x := s[i + 1].(viewDuration := duration);
          assert [s[0]] + s[1..][i := x] == s[i + 1 := x];
      }
    }
  }

  /** The update never touches a field other than viewDuration. */
  lemma SetDurationKeepsIdentity(s: seq<Visit>, sessionId: string, duration: int)
    ensures forall i :: 0 <= i < |s| ==>
      var r := SetDuration(s, sessionId, duration)[i];
      r.visitorId == s[i].visitorId && r.sessionId == s[i].sessionId &&
      r.timestamp == s[i].timestamp && r.pageUrl == s[i].pageUrl &&
      r.referrer == s[i].referrer && r.isNewVisitor == s[i].isNewVisitor
  {
    SetDurationAtFirst(s, sessionId, duration);
  }

  /** An update for an unknown session leaves the collection as it was. */
  lemma UnmatchedUpdateIsNoOp(s: seq<Visit>, sessionId: string, duration: int)
    requires forall j :: 0 <= j < |s| ==> s[j].sessionId != sessionId
    ensures SetDuration(s, sessionId, duration) == s
  {
    SetDurationAtFirst(s, sessionId, duration);
  }

  /** Which document matches depends only on the session ids, so an update
      does not change which document the next update for the same session
      hits. */
  lemma {:induction false} FirstSessionAfterUpdate(s: seq<Visit>, sessionId: string, other: string, duration: int)
    ensures FirstSession(SetDuration(s, other, duration), sessionId) == FirstSession(s, sessionId)
  {
    if s != [] {
      var r := SetDuration(s, other, duration);
      if s[0].sessionId == other {
        assert r[1..] == s[1..];
      } else {
        assert r[1..] == SetDuration(s[1..], other, duration);
        FirstSessionAfterUpdate(s[1..], sessionId, other, duration);
      }
    }
  }

  /** Two updates for the same session: the second value wins. */
  lemma LastWriteWins(s: seq<Visit>, sessionId: string, first: int, second: int)
    ensures SetDuration(SetDuration(s, sessionId, first), sessionId, second)
         == SetDuration(s, sessionId, second)
  {
    FirstSessionAfterUpdate(s, sessionId, sessionId, first);
    SetDurationAtFirst(s, sessionId, first);
    SetDurationAtFirst(SetDuration(s, sessionId, first), sessionId, second);
    SetDurationAtFirst(s, sessionId, second);
  }

  /** Repeating an update is the same as sending it once. */
  lemma RepeatedUpdateIsIdempotent(s: seq<Visit>, sessionId: string, duration: int)
    ensures SetDuration(SetDuration(s, sessionId, duration), sessionId, duration)
         == SetDuration(s, sessionId, duration)
  {
    LastWriteWins(s, sessionId, duration, duration);
  }
}
