/** Tracking units: segments with their events, the overall status, and event synchronisation. */
module Tracking {
  import opened DecimalText
  import opened Shared
  import Shipments

  /** `Unknown` is any status text other than the four known ones. */
  datatype TrackingStatus = Booked | InTransit | Exception | Arrived | Unknown(text: string)

  datatype TrackingEvent = TrackingEvent(id: Id, code: string, timestamp: int)

  datatype TrackingSegment = TrackingSegment(id: Id, status: TrackingStatus, events: seq<TrackingEvent>)

  // ---------------------------------------------------------------- status roll-ups

  predicate AllArrived(statuses: seq<TrackingStatus>) {
    forall s :: s in statuses ==> s == Arrived
  }

  /** The overall status of segments: all arrived, or the most urgent thing that holds of any of them. */
  function Rollup(statuses: seq<TrackingStatus>): TrackingStatus {
    if statuses == [] then Booked
    else if AllArrived(statuses) then Arrived
    else if Exception in statuses then Exception
    else if InTransit in statuses then InTransit
    else Booked
  }

  function StatusesOf(segments: seq<TrackingSegment>): seq<TrackingStatus> {
    seq(|segments|, i requires 0 <= i < |segments| => segments[i].status)
  }

  /** The status of a shipment whose units have the given statuses. */
  function ShipmentRollup(statuses: seq<TrackingStatus>): Shipments.ShipmentStatus {
    if statuses == [] then Shipments.Planned
    else if AllArrived(statuses) then Shipments.Completed
    else if Exception in statuses then Shipments.Exception
    else if InTransit in statuses then Shipments.InTransit
    else Shipments.Booked
  }

  // ---------------------------------------------------------------- synchronisation

  /** buildEventKey: the code and the time in nanoseconds. */
  function EventKey(code: string, timestamp: int): string {
    code + ":" + IntText(timestamp)
  }

  function KeyOf(e: TrackingEvent): string {
    EventKey(e.code, e.timestamp)
  }

  function Keys(events: seq<TrackingEvent>): seq<string> {
    seq(|events|, i requires 0 <= i < |events| => KeyOf(events[i]))
  }

  /** The events of a batch whose key was not known before the batch. */
  function NewEvents(known: seq<TrackingEvent>, batch: seq<TrackingEvent>): seq<TrackingEvent> {
    if batch == [] then []
    else
      var last := batch[|batch| - 1];
      NewEvents(known, batch[..|batch| - 1]) + if KeyOf(last) in Keys(known) then [] else [last]
  }

  /** The position of the first segment with the same ID as segment `i`: the one that gets its new events. */
  function Owner(segments: seq<TrackingSegment>, i: nat): (k: nat)
    requires i < |segments|
    ensures k <= i && segments[k].id == segments[i].id
    ensures forall j :: 0 <= j < k ==> segments[j].id != segments[i].id
  {
    FirstIndex(segments, (s: TrackingSegment) => s.id == segments[i].id).value
  }

  function Extended(seg: TrackingSegment, events: seq<TrackingEvent>): TrackingSegment {
    seg.(events := seg.events + events)
  }

  /** What the sync of segment `i` finds to be new; without an answer, or once arrived, that is nothing. */
  function Found(seg: TrackingSegment, answer: Option<seq<TrackingEvent>>): seq<TrackingEvent> {
    if seg.status == Arrived || answer.None? then [] else NewEvents(seg.events, answer.value)
  }

  /** The segments after the sync of segment `i`. */
  function SyncedAt(segments: seq<TrackingSegment>, i: nat, answer: Option<seq<TrackingEvent>>)
    : (r: seq<TrackingSegment>)
    requires i < |segments|
    ensures |r| == |segments|
  {
    var k := Owner(segments, i);
    segments[k := Extended(segments[k], Found(segments[i], answer))]
  }

  /** The segments after the sync of the first `n` of them, one after the other. */
  function Synced(segments: seq<TrackingSegment>, answers: seq<Option<seq<TrackingEvent>>>, n: nat)
    : (r: seq<TrackingSegment>)
    requires n <= |answers| == |segments|
    ensures |r| == |segments|
  {
    if n == 0 then segments else SyncedAt(Synced(segments, answers, n - 1), n - 1, answers[n - 1])
  }

  ghost function EventCount(segments: seq<TrackingSegment>): nat {
    if segments == [] then 0 else EventCount(segments[..|segments| - 1]) + |segments[|segments| - 1].events|
  }

  lemma {:induction false} MoreEvents(segments: seq<TrackingSegment>, k: nat, events: seq<TrackingEvent>)
    requires k < |segments|
    ensures EventCount(segments[k := Extended(segments[k], events)]) == EventCount(segments) + |events|
  {
    var n := |segments| - 1;
    var now := segments[k := Extended(segments[k], events)];
    if k < n {
      MoreEvents(segments[..n], k, events);
      assert now[..n] == segments[..n][k := Extended(segments[k], events)];
    } else {
      assert now[..n] == segments[..n];
    }
  }

  class TrackingUnit {
    var segments: seq<TrackingSegment>
    var currentStatus: TrackingStatus

    /** The overall status is up to date. */
    ghost predicate Valid()
      reads this
    {
      currentStatus == Rollup(StatusesOf(segments))
    }

    constructor (segments: seq<TrackingSegment>)
      ensures Valid() && this.segments == segments
    {
      this.segments := segments;
      this.currentStatus := Booked;
      new;
      RecalculateOverallStatus();
    }

    method RecalculateOverallStatus()
      modifies this`currentStatus
      ensures currentStatus == Rollup(StatusesOf(segments))
    {
      if |segments| == 0 {
        currentStatus := Booked;
        return;
      }
      var allArrived, anyInTransit, anyException := true, false, false;
      for i := 0 to |segments|
        invariant allArrived <==> AllArrived(StatusesOf(segments)[..i])
        invariant anyInTransit <==> InTransit in StatusesOf(segments)[..i]
        invariant anyException <==> Exception in StatusesOf(segments)[..i]
      {
        ghost var statuses := StatusesOf(segments);
        StatusSeen(statuses, i);
        match segments[i].status {
          case InTransit =>
            anyInTransit, allArrived := true, false;
          case Exception =>
            anyException, allArrived := true, false;
          case Booked =>
            allArrived := false;
          case Arrived =>
          case Unknown(_) =>
            allArrived := false;
        }
      }
      assert StatusesOf(segments)[..|segments|] == StatusesOf(segments);
      currentStatus := if allArrived then Arrived else if anyException then Exception
        else if anyInTransit then InTransit else Booked;
    }

    /** Adds an event to the first segment with the given ID; no status follows from it. */
    method UpdateSegmentStatus(segmentId: Id, event: TrackingEvent) returns (found: bool)
      requires Valid()
      modifies this
      ensures Valid()
      ensures match FirstIndex(old(segments), (s: TrackingSegment) => s.id == segmentId)
        case None => !found && segments == old(segments)
        case Some(k) => found && segments == old(segments)[k := Extended(old(segments)[k], [event])]
    {
      for i := 0 to |segments|
        invariant segments == old(segments) && currentStatus == old(currentStatus)
        invariant forall j :: 0 <= j < i ==> segments[j].id != segmentId
      {
        if segments[i].id == segmentId {
          assert FirstIndex(segments, (s: TrackingSegment) => s.id == segmentId) == Some(i);
          segments := segments[i := Extended(segments[i], [event])];
          RecalculateOverallStatus();
          return true;
        }
      }
      return false;
    }

    /** Segments with the same ID are told apart by position, but new events go to the first of them. */
    method SyncSegment(i: nat, answer: Option<seq<TrackingEvent>>) returns (newEvents: nat)
      requires Valid() && i < |segments|
      modifies this
      ensures Valid()
      ensures segments == SyncedAt(old(segments), i, answer)
      ensures newEvents == |Found(old(segments)[i], answer)|
    {
      var seg := segments[i];
      ghost var k := Owner(segments, i);
      newEvents := 0;
      if seg.status == Arrived || answer.None? {
        assert Extended(segments[k], []) == segments[k];
        return;
      }
      var batch := answer.value;
      var existingSet := set n | 0 <= n < |seg.events| :: KeyOf(seg.events[n]);
      assert forall key :: key in existingSet <==> key in Keys(seg.events) by {
        KeysAsSet(seg.events);
      }
      assert Extended(segments[k], NewEvents(seg.events, batch[..0])) == segments[k];
      for n := 0 to |batch|
        invariant Valid()
        invariant segments == old(segments)[k := Extended(old(segments)[k], NewEvents(seg.events, batch[..n]))]
        invariant newEvents == |NewEvents(seg.events, batch[..n])|
      {
        assert batch[..n + 1][..n] == batch[..n];
        if KeyOf(batch[n]) in existingSet {
          assert NewEvents(seg.events, batch[..n + 1]) == NewEvents(seg.events, batch[..n]);
          continue;
        }
        OwnerIsFirst(segments, k, seg.id);
        var found := UpdateSegmentStatus(seg.id, batch[n]);
        newEvents := newEvents + 1;
        ExtendOnce(old(segments)[k], NewEvents(seg.events, batch[..n]), batch[n]);
      }
      assert batch[..|batch|] == batch;
    }

    /** SyncTrackingEvents: every segment in turn with its provider's answer. */
    method Sync(answers: seq<Option<seq<TrackingEvent>>>) returns (totalNew: nat)
      requires Valid() && |answers| == |segments|
      modifies this
      ensures Valid() && segments == Synced(old(segments), answers, |answers|)
      ensures totalNew == EventCount(segments) - EventCount(old(segments))
    {
      totalNew := 0;
      for i := 0 to |segments|
        invariant Valid() && |segments| == |old(segments)|
        invariant segments == Synced(old(segments), answers, i)
        invariant totalNew == EventCount(segments) - EventCount(old(segments))
      {
        MoreEvents(segments, Owner(segments, i), Found(segments[i], answers[i]));
        var newEvents := SyncSegment(i, answers[i]);
        totalNew := totalNew + newEvents;
      }
    }
  }

  lemma OwnerIsFirst(segments: seq<TrackingSegment>, k: nat, id: Id)
    requires k < |segments| && segments[k].id == id && forall j :: 0 <= j < k ==> segments[j].id != id
    ensures FirstIndex(segments, (s: TrackingSegment) => s.id == id) == Some(k)
  {
  }

  lemma ExtendOnce(seg: TrackingSegment, events: seq<TrackingEvent>, e: TrackingEvent)
    ensures Extended(Extended(seg, events), [e]) == Extended(seg, events + [e])
  {
    assert seg.events + events + [e] == seg.events + (events + [e]);
  }

  lemma StatusSeen(statuses: seq<TrackingStatus>, i: nat)
    requires i < |statuses|
    ensures forall s :: s in statuses[..i + 1] <==> s in statuses[..i] || s == statuses[i]
    ensures AllArrived(statuses[..i + 1]) <==> AllArrived(statuses[..i]) && statuses[i] == Arrived
  {
    assert statuses[..i + 1] == statuses[..i] + [statuses[i]];
    assert statuses[i] in statuses[..i + 1];
  }

  lemma KeysAsSet(events: seq<TrackingEvent>)
    ensures forall key :: key in (set k | 0 <= k < |events| :: KeyOf(events[k])) <==> key in Keys(events)
  {
    forall k | 0 <= k < |events|
      ensures KeyOf(events[k]) in Keys(events)
    {
      assert Keys(events)[k] == KeyOf(events[k]);
    }
  }

  ghost function CurrentStatuses(units: seq<TrackingUnit>): seq<TrackingStatus>
    reads units
  {
    seq(|units|, i requires 0 <= i < |units| reads units => units[i].currentStatus)
  }

  /** ShipmentStatusUpdater.UpdateStatus. */
  method UpdateStatus(ship: Shipments.Shipment, units: seq<TrackingUnit>)
    modifies ship
    ensures ship.State() == Shipments.StatusSet(old(ship.State()), ShipmentRollup(CurrentStatuses(units)))
  {
    ghost var statuses := CurrentStatuses(units);
    if |units| == 0 {
      ship.UpdateShipmentStatus(Shipments.Planned);
      return;
    }
    var allCompleted, anyInTransit, anyException := true, false, false;
    for i := 0 to |units|
      invariant ship.State() == old(ship.State())
      invariant allCompleted <==> AllArrived(statuses[..i])
      invariant anyInTransit <==> InTransit in statuses[..i]
      invariant anyException <==> Exception in statuses[..i]
    {
      StatusSeen(statuses, i);
      match units[i].currentStatus {
        case InTransit =>
          anyInTransit, allCompleted := true, false;
        case Exception =>
          anyException, allCompleted := true, false;
        case Booked =>
          allCompleted := false;
        case Arrived =>
        case Unknown(_) =>
          allCompleted := false;
      }
    }
    assert statuses[..|units|] == statuses;
    var newStatus := if allCompleted then Shipments.Completed else if anyException then Shipments.Exception
      else if anyInTransit then Shipments.InTransit else Shipments.Booked;
    assert newStatus == ShipmentRollup(statuses);
    ship.UpdateShipmentStatus(newStatus);
    assert CurrentStatuses(units) == statuses;
  }
}
