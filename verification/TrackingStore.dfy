/**
 Synchronising across saves and loads: the store keeps event times to the microsecond, while events
 are told apart by their times in nanoseconds.
 */
module TrackingStore {
  import opened DecimalText
  import opened Permutations
  import opened Shared
  import opened Tracking
  import opened TrackingTheorems

  /** A timestamp column keeps whole microseconds; the rest is cut off. */
  function StoredTime(nanoseconds: int): int {
    nanoseconds - nanoseconds % 1000
  }

  predicate IsWhole(nanoseconds: int) {
    nanoseconds % 1000 == 0
  }

  function StoredEvent(e: TrackingEvent): TrackingEvent {
    e.(timestamp := StoredTime(e.timestamp))
  }

  ghost function StoredEvents(events: seq<TrackingEvent>): seq<TrackingEvent> {
    seq(|events|, i requires 0 <= i < |events| => StoredEvent(events[i]))
  }

  /** What a load returns for a saved segment; events with equal times may come in any order. */
  ghost predicate IsReloadOf(loaded: TrackingSegment, seg: TrackingSegment) {
    && loaded.id == seg.id && loaded.status == seg.status
    && multiset(loaded.events) == multiset(StoredEvents(seg.events))
  }

  lemma ReloadedMembers(loaded: TrackingSegment, seg: TrackingSegment)
    requires IsReloadOf(loaded, seg)
    ensures forall e :: e in seg.events ==> StoredEvent(e) in loaded.events
    ensures forall e :: e in loaded.events ==> IsWhole(e.timestamp)
  {
    var stored := StoredEvents(seg.events);
    SameMembers(loaded.events, stored);
    forall e | e in seg.events
      ensures StoredEvent(e) in stored
    {
      var i :| 0 <= i < |seg.events| && seg.events[i] == e;
      assert stored[i] == StoredEvent(e);
    }
    forall e | e in stored
      ensures IsWhole(e.timestamp)
    {
      var i :| 0 <= i < |stored| && stored[i] == e;
    }
  }

  /** An event that was known before the save is known after the load exactly when its time is whole. */
  lemma KnownAfterReloadIff(loaded: TrackingSegment, seg: TrackingSegment, e: TrackingEvent)
    requires IsReloadOf(loaded, seg) && KeyOf(e) in Keys(seg.events)
    ensures KeyOf(e) in Keys(loaded.events) <==> IsWhole(e.timestamp)
  {
    ReloadedMembers(loaded, seg);
    KeysMembers(seg.events);
    KeysMembers(loaded.events);
    if IsWhole(e.timestamp) {
      var known :| known in seg.events && KeyOf(known) == KeyOf(e);
      EventKeyIsInjective(known.code, known.timestamp, e.code, e.timestamp);
      assert StoredEvent(known) in loaded.events && KeyOf(StoredEvent(known)) == KeyOf(e);
    } else if KeyOf(e) in Keys(loaded.events) {
      var known :| known in loaded.events && KeyOf(known) == KeyOf(e);
      EventKeyIsInjective(known.code, known.timestamp, e.code, e.timestamp);
    }
  }

  /** The segment is not asked about, or all times of its answer are whole microseconds. */
  ghost predicate TimesAreWhole(seg: TrackingSegment, answer: Option<seq<TrackingEvent>>) {
    seg.status == Arrived || answer.None? || forall e :: e in answer.value ==> IsWhole(e.timestamp)
  }

  /** After a sync, a save and a load, the same answer brings nothing new exactly when its times are whole. */
  lemma FoundAfterReloadIff(seg: TrackingSegment, loaded: TrackingSegment, answer: Option<seq<TrackingEvent>>)
    requires IsReloadOf(loaded, Extended(seg, Found(seg, answer)))
    ensures Found(loaded, answer) == [] <==> TimesAreWhole(seg, answer)
  {
    if seg.status != Arrived && answer.Some? {
      FoundNothingIff(loaded, answer);
      forall e | e in answer.value
        ensures KeyOf(e) in Keys(loaded.events) <==> IsWhole(e.timestamp)
      {
        BatchIsKnown(seg.events, answer.value, e);
        KnownAfterReloadIff(loaded, Extended(seg, Found(seg, answer)), e);
      }
    }
  }

  // ---------------------------------------------------------------- units

  ghost predicate DistinctSegments(segments: seq<TrackingSegment>) {
    forall i, j :: 0 <= i < j < |segments| ==> segments[i].id != segments[j].id
  }

  /** Each segment's provider gives the same answer whenever it is asked. */
  ghost function AnswersFor(segments: seq<TrackingSegment>, ask: Id -> Option<seq<TrackingEvent>>)
    : (r: seq<Option<seq<TrackingEvent>>>)
    ensures |r| == |segments|
  {
    seq(|segments|, i requires 0 <= i < |segments| => ask(segments[i].id))
  }

  lemma OwnStep(segments: seq<TrackingSegment>, answers: seq<Option<seq<TrackingEvent>>>, n: nat)
    requires n < |answers| == |segments| && Owner(segments, n) == n
    ensures Synced(segments, answers, n + 1)[n] == Extended(segments[n], Found(segments[n], answers[n]))
    ensures forall i :: 0 <= i < |segments| && i != n ==>
      Synced(segments, answers, n + 1)[i] == Synced(segments, answers, n)[i]
  {
    Untouched(segments, answers, n, n);
    OwnersStay(segments, answers, n, n);
  }

  /** With distinct IDs, each segment gets its own new events. */
  lemma {:induction false} SyncedSegment(
    segments: seq<TrackingSegment>, answers: seq<Option<seq<TrackingEvent>>>, n: nat, i: nat)
    requires DistinctSegments(segments) && i < n <= |answers| == |segments|
    ensures Synced(segments, answers, n)[i] == Extended(segments[i], Found(segments[i], answers[i]))
  {
    OwnStep(segments, answers, n - 1);
    if i < n - 1 {
      SyncedSegment(segments, answers, n - 1, i);
    }
  }

  /** `loaded` are the saved segments in some order: the one at position `j` was saved as number `order[j]`. */
  ghost predicate AreReloadsOf(loaded: seq<TrackingSegment>, segments: seq<TrackingSegment>, order: seq<nat>) {
    && |loaded| == |order| == |segments|
    && (forall j :: 0 <= j < |order| ==> order[j] < |segments| && IsReloadOf(loaded[j], segments[order[j]]))
    && forall i :: 0 <= i < |segments| ==> i in order
  }

  ghost function SyncedOnce(segments: seq<TrackingSegment>, ask: Id -> Option<seq<TrackingEvent>>)
    : (r: seq<TrackingSegment>)
    ensures |r| == |segments|
  {
    Synced(segments, AnswersFor(segments, ask), |segments|)
  }

  lemma SyncedOnceIs(segments: seq<TrackingSegment>, ask: Id -> Option<seq<TrackingEvent>>, i: nat)
    requires DistinctSegments(segments) && i < |segments|
    ensures SyncedOnce(segments, ask)[i] == Extended(segments[i], Found(segments[i], ask(segments[i].id)))
  {
    SyncedSegment(segments, AnswersFor(segments, ask), |segments|, i);
  }

  ghost predicate FindNothing(segments: seq<TrackingSegment>, ask: Id -> Option<seq<TrackingEvent>>) {
    forall i :: 0 <= i < |segments| ==> Found(segments[i], ask(segments[i].id)) == []
  }

  ghost predicate AllTimesAreWhole(segments: seq<TrackingSegment>, ask: Id -> Option<seq<TrackingEvent>>) {
    forall i :: 0 <= i < |segments| ==> TimesAreWhole(segments[i], ask(segments[i].id))
  }

  lemma UnchangedIff(segments: seq<TrackingSegment>, ask: Id -> Option<seq<TrackingEvent>>)
    requires DistinctSegments(segments)
    ensures SyncedOnce(segments, ask) == segments <==> FindNothing(segments, ask)
  {
    var once := SyncedOnce(segments, ask);
    forall i | 0 <= i < |segments|
      ensures once[i] == segments[i] <==> Found(segments[i], ask(segments[i].id)) == []
    {
      SyncedOnceIs(segments, ask, i);
      var added := Found(segments[i], ask(segments[i].id));
      assert added == [] ==> segments[i].events + added == segments[i].events;
    }
  }

  /** A loaded segment finds nothing new exactly when the times of its answer are whole. */
  lemma ReloadedSegment(
    segments: seq<TrackingSegment>, i: nat, loaded: TrackingSegment, ask: Id -> Option<seq<TrackingEvent>>)
    requires DistinctSegments(segments) && i < |segments| && IsReloadOf(loaded, SyncedOnce(segments, ask)[i])
    ensures loaded.id == segments[i].id
    ensures Found(loaded, ask(loaded.id)) == [] <==> TimesAreWhole(segments[i], ask(segments[i].id))
  {
    SyncedOnceIs(segments, ask, i);
    FoundAfterReloadIff(segments[i], loaded, ask(segments[i].id));
  }

  lemma WholeTimesFindNothing(
    segments: seq<TrackingSegment>, loaded: seq<TrackingSegment>, order: seq<nat>,
    ask: Id -> Option<seq<TrackingEvent>>)
    requires DistinctSegments(segments) && AreReloadsOf(loaded, SyncedOnce(segments, ask), order)
    ensures AllTimesAreWhole(segments, ask) ==> FindNothing(loaded, ask)
  {
    forall j | 0 <= j < |loaded| && AllTimesAreWhole(segments, ask)
      ensures Found(loaded[j], ask(loaded[j].id)) == []
    {
      ReloadedSegment(segments, order[j], loaded[j], ask);
    }
  }

  lemma FindingNothingMeansWholeTimes(
    segments: seq<TrackingSegment>, loaded: seq<TrackingSegment>, order: seq<nat>,
    ask: Id -> Option<seq<TrackingEvent>>)
    requires DistinctSegments(segments) && AreReloadsOf(loaded, SyncedOnce(segments, ask), order)
    ensures FindNothing(loaded, ask) ==> AllTimesAreWhole(segments, ask)
  {
    forall i | 0 <= i < |segments| && FindNothing(loaded, ask)
      ensures TimesAreWhole(segments[i], ask(segments[i].id))
    {
      assert i in order;
      var j :| 0 <= j < |order| && order[j] == i;
      ReloadedSegment(segments, i, loaded[j], ask);
    }
  }

  /**
   Segment IDs are distinct in the store. A sync after a sync, a save and a load, with the same
   answers, changes nothing exactly when all times in the answers are whole microseconds.
   */
  lemma {:induction false} SyncAcrossStoreIff(
    segments: seq<TrackingSegment>, loaded: seq<TrackingSegment>, order: seq<nat>,
    ask: Id -> Option<seq<TrackingEvent>>)
    requires DistinctSegments(segments) && DistinctSegments(loaded)
    requires AreReloadsOf(loaded, SyncedOnce(segments, ask), order)
    ensures SyncedOnce(loaded, ask) == loaded <==> AllTimesAreWhole(segments, ask)
  {
    UnchangedIff(loaded, ask);
    WholeTimesFindNothing(segments, loaded, order, ask);
    FindingNothingMeansWholeTimes(segments, loaded, order, ask);
  }
}
