/** Shipments: the milestones recorded for them, their derived status and their event log. */
module Shipments {
  import opened Shared

  /** A milestone with its place in the history of its own type; the payload is not part of this model. */
  datatype Milestone = Milestone(id: Id, mtype: string, occurredAt: int, source: Id, sequence: nat)

  datatype ShipmentError = TypeRequired | SourceRequired | PayloadRequired

  /** The milestones of one type, in recorded order. */
  function OfType(ms: seq<Milestone>, t: string): seq<Milestone> {
    if ms == [] then []
    else OfType(ms[..|ms| - 1], t) + if ms[|ms| - 1].mtype == t then [ms[|ms| - 1]] else []
  }

  function Recorded(ms: seq<Milestone>, id: Id, mtype: string, occurredAt: int, source: Id): seq<Milestone> {
    ms + [Milestone(id, mtype, occurredAt, source, |OfType(ms, mtype)| + 1)]
  }

  function Refusal(mtype: string, source: Id, hasPayload: bool): Option<ShipmentError> {
    if mtype == "" then Some(TypeRequired)
    else if source == NIL then Some(SourceRequired)
    else if !hasPayload then Some(PayloadRequired)
    else None
  }

  class ShipmentExecution {
    var milestones: seq<Milestone>

    constructor (milestones: seq<Milestone>)
      ensures this.milestones == milestones
    {
      this.milestones := milestones;
    }

    method RecordMilestone(id: Id, mtype: string, occurredAt: int, source: Id, hasPayload: bool)
      returns (error: Option<ShipmentError>)
      modifies this
      ensures error.None? <==> mtype != "" && source != NIL && hasPayload
      ensures error == Refusal(mtype, source, hasPayload)
      ensures milestones ==
        if error.None? then Recorded(old(milestones), id, mtype, occurredAt, source) else old(milestones)
    {
      if mtype == "" {
        return Some(TypeRequired);
      }
      if source == NIL {
        return Some(SourceRequired);
      }
      if !hasPayload {
        return Some(PayloadRequired);
      }
      var seqNo := 1;
      for i := 0 to |milestones|
        invariant milestones == old(milestones)
        invariant seqNo == |OfType(milestones[..i], mtype)| + 1
      {
        assert milestones[..i + 1][..i] == milestones[..i];
        if milestones[i].mtype == mtype {
          seqNo := seqNo + 1;
        }
      }
      assert milestones[..|milestones|] == milestones;
      milestones := milestones + [Milestone(id, mtype, occurredAt, source, seqNo)];
      return None;
    }

    /** The last recorded milestone of a type. */
    method FindLatestMilestone(t: string) returns (latest: Option<Milestone>)
      ensures latest.None? <==> OfType(milestones, t) == []
      ensures latest.Some? ==> latest.value == OfType(milestones, t)[|OfType(milestones, t)| - 1]
    {
      latest := None;
      for i := 0 to |milestones|
        invariant latest.None? <==> OfType(milestones[..i], t) == []
        invariant latest.Some? ==> latest.value == OfType(milestones[..i], t)[|OfType(milestones[..i], t)| - 1]
      {
        assert milestones[..i + 1][..i] == milestones[..i];
        if milestones[i].mtype == t {
          latest := Some(milestones[i]);
        }
      }
      assert milestones[..|milestones|] == milestones;
    }

    method FindMilestonesByType(t: string) returns (found: seq<Milestone>)
      ensures found == OfType(milestones, t)
    {
      found := [];
      for i := 0 to |milestones|
        invariant found == OfType(milestones[..i], t)
      {
        assert milestones[..i + 1][..i] == milestones[..i];
        if milestones[i].mtype == t {
          found := found + [milestones[i]];
        }
      }
      assert milestones[..|milestones|] == milestones;
    }
  }

  // ---------------------------------------------------------------- status

  datatype ShipmentStatus = Planned | Booked | InTransit | Exception | Completed | Cancelled

  datatype ShipmentEvent =
    | ShipmentCreated
    | MilestoneRecorded(milestoneId: Id, mtype: string)
    | StatusChanged(before: ShipmentStatus, after: ShipmentStatus)

  /** The status that a milestone of type `t` leads to. */
  function Derived(status: ShipmentStatus, t: string): ShipmentStatus {
    if t == "BOOKING_CONFIRMED" then (if status == Planned then Booked else status)
    else if t == "SHIPPED" then (if status in {Planned, Booked} then InTransit else status)
    else if t == "DELIVERED" then Completed
    else status
  }

  datatype ShipmentState = ShipmentState(
    status: ShipmentStatus, milestones: seq<Milestone>, units: seq<Id>, log: seq<ShipmentEvent>)

  /** UpdateShipmentStatus: a change is recorded as an event, a repetition is not. */
  function StatusSet(s: ShipmentState, status: ShipmentStatus): ShipmentState {
    if s.status == status then s
    else s.(status := status, log := s.log + [StatusChanged(s.status, status)])
  }

  function MilestoneAdded(s: ShipmentState, id: Id, mtype: string, occurredAt: int, source: Id): ShipmentState {
    var recorded := s.(
      milestones := Recorded(s.milestones, id, mtype, occurredAt, source),
      log := s.log + [MilestoneRecorded(id, mtype)]);
    StatusSet(recorded, Derived(s.status, mtype))
  }

  function UnitAdded(s: ShipmentState, unit: Id): ShipmentState {
    if unit in s.units then s else s.(units := s.units + [unit])
  }

  class Shipment {
    const execution: ShipmentExecution
    var status: ShipmentStatus
    var trackingUnitIds: seq<Id>
    var log: seq<ShipmentEvent>

    ghost function State(): ShipmentState
      reads this, execution
    {
      ShipmentState(status, execution.milestones, trackingUnitIds, log)
    }

    constructor ()
      ensures fresh(execution)
      ensures State() == ShipmentState(Planned, [], [], [ShipmentCreated])
    {
      execution := new ShipmentExecution([]);
      status, trackingUnitIds, log := Planned, [], [ShipmentCreated];
    }

    method UpdateShipmentStatus(newStatus: ShipmentStatus)
      modifies this
      ensures State() == StatusSet(old(State()), newStatus)
    {
      if status != newStatus {
        log := log + [StatusChanged(status, newStatus)];
        status := newStatus;
      }
    }

    method RecordMilestone(id: Id, mtype: string, occurredAt: int, source: Id, hasPayload: bool)
      returns (error: Option<ShipmentError>)
      modifies this, execution
      ensures error.None? <==> mtype != "" && source != NIL && hasPayload
      ensures error == Refusal(mtype, source, hasPayload)
      ensures State() ==
        if error.None? then MilestoneAdded(old(State()), id, mtype, occurredAt, source) else old(State())
    {
      error := execution.RecordMilestone(id, mtype, occurredAt, source, hasPayload);
      if error.Some? {
        return;
      }
      log := log + [MilestoneRecorded(id, mtype)];
      var newStatus := status;
      match mtype {
        case "BOOKING_CONFIRMED" =>
          if status == Planned {
            newStatus := Booked;
          }
        case "SHIPPED" =>
          if status == Planned || status == Booked {
            newStatus := InTransit;
          }
        case "DELIVERED" =>
          newStatus := Completed;
        case _ =>
      }
      if newStatus != status {
        UpdateShipmentStatus(newStatus);
      }
    }

    method AddTrackingUnitId(unit: Id)
      modifies this
      ensures State() == UnitAdded(old(State()), unit)
    {
      for i := 0 to |trackingUnitIds|
        invariant State() == old(State())
        invariant unit !in trackingUnitIds[..i]
      {
        if trackingUnitIds[i] == unit {
          return;
        }
      }
      trackingUnitIds := trackingUnitIds + [unit];
    }
  }
}
