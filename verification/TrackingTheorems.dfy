/** The two-level status roll-up against the flat one, and idempotence of synchronisation. */
module TrackingTheorems {
  import opened DecimalText
  import opened Shared
  import opened Tracking
  import Grouping
  import Shipments

  // ---------------------------------------------------------------- roll-ups

  ghost function UnitStatuses(units: seq<seq<TrackingStatus>>): seq<TrackingStatus> {
    seq(|units|, i requires 0 <= i < |units| => Rollup(units[i]))
  }

  lemma {:induction false} ConcatMembers(units: seq<seq<TrackingStatus>>)
    ensures forall s :: s in Grouping.Concat(units) <==> exists i :: 0 <= i < |units| && s in units[i]
  {
    if units != [] {
      var n := |units| - 1;
      ConcatMembers(units[..n]);
      forall s
        ensures s in Grouping.Concat(units) <==> exists i :: 0 <= i < |units| && s in units[i]
      {
        if i :| 0 <= i < |units| && s in units[i] {
          assert i < n ==> s in units[..n][i];
        }
        if s in Grouping.Concat(units[..n]) {
          var i :| 0 <= i < n && s in units[..n][i];
          assert s in units[i];
        }
      }
    }
  }

  /** The roll-up depends only on which statuses occur, not on their order or number. */
  lemma RollupIsOrderFree(a: seq<TrackingStatus>, b: seq<TrackingStatus>)
    requires forall s :: s in a <==> s in b
    ensures Rollup(a) == Rollup(b) && ShipmentRollup(a) == ShipmentRollup(b)
  {
    assert a == [] || a[0] in a;
    assert b == [] || b[0] in b;
  }

  lemma UnitRollup(u: seq<TrackingStatus>)
    ensures Rollup(u) == Arrived <==> u != [] && AllArrived(u)
    ensures Rollup(u) == Exception <==> Exception in u
    ensures Rollup(u) == InTransit <==> InTransit in u && Exception !in u
  {
    assert u == [] || u[0] in u;
  }

  /** What each status of a shipment says about its units. */
  lemma ShipmentRollupIs(units: seq<TrackingStatus>)
    ensures ShipmentRollup(units) == Shipments.Planned <==> units == []
    ensures ShipmentRollup(units) == Shipments.Completed <==> units != [] && forall u :: u in units ==> u == Arrived
    ensures ShipmentRollup(units) == Shipments.Exception <==> Exception in units
    ensures ShipmentRollup(units) == Shipments.InTransit <==> InTransit in units && Exception !in units
    ensures ShipmentRollup(units) in
      {Shipments.Planned, Shipments.Completed, Shipments.Exception, Shipments.InTransit, Shipments.Booked}
  {
    assert units == [] || units[0] in units;
  }

  lemma UnitHas(units: seq<seq<TrackingStatus>>, s: TrackingStatus)
    ensures s in UnitStatuses(units) <==> exists i :: 0 <= i < |units| && Rollup(units[i]) == s
  {
    var us := UnitStatuses(units);
    if i :| 0 <= i < |units| && Rollup(units[i]) == s {
      assert us[i] == s;
    }
  }

  lemma UrgentStatusesAgree(units: seq<seq<TrackingStatus>>)
    ensures Exception in UnitStatuses(units) <==> Exception in Grouping.Concat(units)
    ensures Exception !in Grouping.Concat(units) ==>
      (InTransit in UnitStatuses(units) <==> InTransit in Grouping.Concat(units))
  {
    ConcatMembers(units);
    UnitHas(units, Exception);
    UnitHas(units, InTransit);
    forall i | 0 <= i < |units|
      ensures Rollup(units[i]) == Exception <==> Exception in units[i]
      ensures Rollup(units[i]) == InTransit <==> InTransit in units[i] && Exception !in units[i]
    {
      UnitRollup(units[i]);
    }
  }

  ghost predicate NoUnitEmpty(units: seq<seq<TrackingStatus>>) {
    forall i :: 0 <= i < |units| ==> units[i] != []
  }

  lemma AllArrivedAppend(a: seq<TrackingStatus>, b: seq<TrackingStatus>)
    ensures AllArrived(a + b) <==> AllArrived(a) && AllArrived(b)
  {
    assert forall s :: s in a + b <==> s in a || s in b;
  }

  lemma {:induction false} ArrivalsAgree(units: seq<seq<TrackingStatus>>)
    ensures AllArrived(UnitStatuses(units)) <==> AllArrived(Grouping.Concat(units)) && NoUnitEmpty(units)
  {
    if units != [] {
      var n := |units| - 1;
      ArrivalsAgree(units[..n]);
      UnitRollup(units[n]);
      var us := UnitStatuses(units);
      assert us == UnitStatuses(units[..n]) + [Rollup(units[n])];
      AllArrivedAppend(UnitStatuses(units[..n]), [Rollup(units[n])]);
      assert AllArrived([Rollup(units[n])]) <==> Rollup(units[n]) == Arrived by {
        assert Rollup(units[n]) in [Rollup(units[n])];
      }
      AllArrivedAppend(Grouping.Concat(units[..n]), units[n]);
      assert NoUnitEmpty(units) <==> NoUnitEmpty(units[..n]) && units[n] != [] by {
        assert forall i :: 0 <= i < n ==> units[..n][i] == units[i];
      }
    }
  }

  /**
   The shipment status computed from unit statuses is the one computed from all segments at once,
   exactly when every unit has a segment or some segment has not arrived.
   */
  lemma TwoLevelRollupIsFlatIff(units: seq<seq<TrackingStatus>>)
    ensures ShipmentRollup(UnitStatuses(units)) == ShipmentRollup(Grouping.Concat(units))
      <==> NoUnitEmpty(units) || !AllArrived(Grouping.Concat(units))
  {
    UrgentStatusesAgree(units);
    ArrivalsAgree(units);
    ConcatMembers(units);
  }

  // ---------------------------------------------------------------- event keys

  lemma IntTextHasNoColon(n: int)
    ensures forall i :: 0 <= i < |IntText(n)| ==> IntText(n)[i] != ':'
  {
    var digits := NatText(Abs(n));
    assert forall i :: 0 <= i < |digits| ==> IsDigit(digits[i]);
  }

  /** The position of the last colon of a text, or -1. */
  ghost function LastColon(s: string): int {
    if s == "" then -1 else if s[|s| - 1] == ':' then |s| - 1 else LastColon(s[..|s| - 1])
  }

  lemma {:induction false} LastColonOf(a: string, x: string)
    requires forall i :: 0 <= i < |x| ==> x[i] != ':'
    ensures LastColon(a + ":" + x) == |a|
  {
    var s := a + ":" + x;
    if x != "" {
      LastColonOf(a, x[..|x| - 1]);
      assert s[..|s| - 1] == a + ":" + x[..|x| - 1];
    }
  }

  /** Two events have the same key only if code and time agree. */
  lemma EventKeyIsInjective(code: string, time: int, code': string, time': int)
    requires EventKey(code, time) == EventKey(code', time')
    ensures code == code' && time == time'
  {
    IntTextHasNoColon(time);
    IntTextHasNoColon(time');
    LastColonOf(code, IntText(time));
    LastColonOf(code', IntText(time'));
    var s, s', n := EventKey(code, time), EventKey(code', time'), |code|;
    assert s[..n] == code && s'[..n] == code' && s[n + 1..] == IntText(time) && s'[n + 1..] == IntText(time');
    IntTextInjective(time, time');
  }

  // ---------------------------------------------------------------- idempotence

  lemma {:induction false} NewEventsAre(known: seq<TrackingEvent>, batch: seq<TrackingEvent>)
    ensures forall e :: e in NewEvents(known, batch) <==> e in batch && KeyOf(e) !in Keys(known)
  {
    if batch != [] {
      NewEventsAre(known, batch[..|batch| - 1]);
      assert batch == batch[..|batch| - 1] + [batch[|batch| - 1]];
    }
  }

  lemma KeysMembers(events: seq<TrackingEvent>)
    ensures forall key :: key in Keys(events) <==> exists e :: e in events && KeyOf(e) == key
  {
    forall e | e in events
      ensures KeyOf(e) in Keys(events)
    {
      var i :| 0 <= i < |events| && events[i] == e;
      assert Keys(events)[i] == KeyOf(e);
    }
  }

  /** After a batch has been taken in, every event of it is known. */
  lemma BatchIsKnown(known: seq<TrackingEvent>, batch: seq<TrackingEvent>, e: TrackingEvent)
    requires e in batch
    ensures KeyOf(e) in Keys(known + NewEvents(known, batch))
  {
    var all := known + NewEvents(known, batch);
    NewEventsAre(known, batch);
    KeysMembers(known);
    KeysMembers(all);
    if KeyOf(e) in Keys(known) {
      var k :| k in known && KeyOf(k) == KeyOf(e);
      assert k in all;
    } else {
      assert e in all;
    }
  }

  // ---------------------------------------------------------------- synchronising twice

  lemma {:induction false} SyncedKeeps(segments: seq<TrackingSegment>, answers: seq<Option<seq<TrackingEvent>>>, n: nat)
    requires n <= |answers| == |segments|
    ensures forall j :: 0 <= j < |segments| ==>
      var now := Synced(segments, answers, n)[j];
      now.id == segments[j].id && now.status == segments[j].status && segments[j].events <= now.events
  {
    if n > 0 {
      SyncedKeeps(segments, answers, n - 1);
    }
  }

  lemma OwnersStay(segments: seq<TrackingSegment>, answers: seq<Option<seq<TrackingEvent>>>, n: nat, i: nat)
    requires n <= |answers| == |segments| && i < |segments|
    ensures Owner(Synced(segments, answers, n), i) == Owner(segments, i)
  {
    SyncedKeeps(segments, answers, n);
    var now, k, k' := Synced(segments, answers, n), Owner(Synced(segments, answers, n), i), Owner(segments, i);
    assert now[k].id == segments[k].id && now[k'].id == segments[k'].id && now[i].id == segments[i].id;
  }

  /** A segment that is not processed yet, or that repeats an ID, is as it was. */
  lemma {:induction false} Untouched(
    segments: seq<TrackingSegment>, answers: seq<Option<seq<TrackingEvent>>>, n: nat, j: nat)
    requires n <= |answers| == |segments| && j < |segments| && (n <= j || Owner(segments, j) != j)
    ensures Synced(segments, answers, n)[j] == segments[j]
  {
    if n > 0 {
      Untouched(segments, answers, n - 1, j);
      OwnersStay(segments, answers, n - 1, n - 1);
      assert Owner(segments, n - 1) != j;
    }
  }

  /** The owner of a segment's ID gets what the sync of that segment finds in it as it was at the start. */
  lemma OwnerGains(segments: seq<TrackingSegment>, answers: seq<Option<seq<TrackingEvent>>>, i: nat)
    requires i < |answers| == |segments|
    ensures var k := Owner(segments, i);
      Synced(segments, answers, i + 1)[k].events
        == Synced(segments, answers, i)[k].events + Found(segments[i], answers[i])
  {
    Untouched(segments, answers, i, i);
    OwnersStay(segments, answers, i, i);
  }

  /** Segment by segment, the later events continue the earlier ones. */
  ghost predicate Continues(was: seq<TrackingSegment>, now: seq<TrackingSegment>) {
    |was| == |now| && forall j :: 0 <= j < |was| ==> was[j].events <= now[j].events
  }

  lemma StepContinues(segments: seq<TrackingSegment>, i: nat, answer: Option<seq<TrackingEvent>>)
    requires i < |segments|
    ensures Continues(segments, SyncedAt(segments, i, answer))
  {
  }

  lemma PrefixIsTransitive(a: seq<TrackingEvent>, b: seq<TrackingEvent>, c: seq<TrackingEvent>)
    requires a <= b <= c
    ensures a <= c
  {
  }

  lemma ContinuesIsTransitive(a: seq<TrackingSegment>, b: seq<TrackingSegment>, c: seq<TrackingSegment>)
    requires Continues(a, b) && Continues(b, c)
    ensures Continues(a, c)
  {
    forall j | 0 <= j < |a|
      ensures a[j].events <= c[j].events
    {
      PrefixIsTransitive(a[j].events, b[j].events, c[j].events);
    }
  }

  lemma {:induction false} EventsOnlyGrow(
    segments: seq<TrackingSegment>, answers: seq<Option<seq<TrackingEvent>>>, m: nat, n: nat)
    requires m <= n <= |answers| == |segments|
    ensures Continues(Synced(segments, answers, m), Synced(segments, answers, n))
    decreases n
  {
    if m < n {
      var before := Synced(segments, answers, n - 1);
      EventsOnlyGrow(segments, answers, m, n - 1);
      StepContinues(before, n - 1, answers[n - 1]);
      ContinuesIsTransitive(Synced(segments, answers, m), before, SyncedAt(before, n - 1, answers[n - 1]));
    }
  }

  /** A processed segment that owns its ID has what the sync found for it. */
  lemma HasFound(segments: seq<TrackingSegment>, answers: seq<Option<seq<TrackingEvent>>>, n: nat, i: nat)
    requires i < n <= |answers| == |segments| && Owner(segments, i) == i
    ensures segments[i].events + Found(segments[i], answers[i]) <= Synced(segments, answers, n)[i].events
  {
    Untouched(segments, answers, i, i);
    OwnerGains(segments, answers, i);
    EventsOnlyGrow(segments, answers, i + 1, n);
  }

  /** The answer for a segment that repeats an earlier segment's ID brings nothing that the segment does not know. */
  ghost predicate RepeatsAreKnown(segments: seq<TrackingSegment>, answers: seq<Option<seq<TrackingEvent>>>)
    requires |answers| == |segments|
  {
    forall i :: 0 <= i < |segments| && Owner(segments, i) != i && segments[i].status != Arrived && answers[i].Some? ==>
      forall e :: e in answers[i].value ==> KeyOf(e) in Keys(segments[i].events)
  }

  lemma FoundNothingIff(seg: TrackingSegment, answer: Option<seq<TrackingEvent>>)
    ensures Found(seg, answer) == [] <==>
      seg.status == Arrived || answer.None? || forall e :: e in answer.value ==> KeyOf(e) in Keys(seg.events)
  {
    if answer.Some? {
      NewEventsAre(seg.events, answer.value);
      var added := NewEvents(seg.events, answer.value);
      assert added == [] || added[0] in added;
    }
  }

  lemma KeysGrow(a: seq<TrackingEvent>, b: seq<TrackingEvent>, key: string)
    requires a <= b && key in Keys(a)
    ensures key in Keys(b)
  {
    var i :| 0 <= i < |a| && Keys(a)[i] == key;
    assert Keys(b)[i] == key;
  }

  lemma SecondSyncFindsNothing(segments: seq<TrackingSegment>, answers: seq<Option<seq<TrackingEvent>>>, i: nat)
    requires |answers| == |segments| && i < |segments| && RepeatsAreKnown(segments, answers)
    ensures Found(Synced(segments, answers, |answers|)[i], answers[i]) == []
  {
    var seg, now := segments[i], Synced(segments, answers, |answers|)[i];
    SyncedKeeps(segments, answers, |answers|);
    FoundNothingIff(now, answers[i]);
    if Owner(segments, i) != i {
      Untouched(segments, answers, |answers|, i);
    } else if seg.status != Arrived && answers[i].Some? {
      HasFound(segments, answers, |answers|, i);
      forall e | e in answers[i].value
        ensures KeyOf(e) in Keys(now.events)
      {
        BatchIsKnown(seg.events, answers[i].value, e);
        KeysGrow(seg.events + NewEvents(seg.events, answers[i].value), now.events, KeyOf(e));
      }
    }
  }

  lemma NothingFound(segments: seq<TrackingSegment>, i: nat, answer: Option<seq<TrackingEvent>>)
    requires i < |segments| && Found(segments[i], answer) == []
    ensures SyncedAt(segments, i, answer) == segments
  {
    var k := Owner(segments, i);
    assert Extended(segments[k], []) == segments[k];
  }

  lemma {:induction false} FindingNothingChangesNothing(
    segments: seq<TrackingSegment>, answers: seq<Option<seq<TrackingEvent>>>, n: nat)
    requires n <= |answers| == |segments|
    requires forall i :: 0 <= i < |segments| ==> Found(segments[i], answers[i]) == []
    ensures Synced(segments, answers, n) == segments
  {
    if n > 0 {
      FindingNothingChangesNothing(segments, answers, n - 1);
      NothingFound(segments, n - 1, answers[n - 1]);
    }
  }

  lemma LongerByMore(
    was: seq<TrackingEvent>, before: seq<TrackingEvent>, added: seq<TrackingEvent>, now: seq<TrackingEvent>)
    requires was <= before && before + added <= now && added != []
    ensures |was| < |now|
  {
  }

  /** What a sync finds for a segment is added to the owner of its ID. */
  lemma FindingAddsEvents(segments: seq<TrackingSegment>, answers: seq<Option<seq<TrackingEvent>>>, i: nat)
    requires i < |answers| == |segments| && Found(segments[i], answers[i]) != []
    ensures var k := Owner(segments, i);
      |segments[k].events| < |Synced(segments, answers, |answers|)[k].events|
  {
    var k := Owner(segments, i);
    SyncedKeeps(segments, answers, i);
    OwnerGains(segments, answers, i);
    EventsOnlyGrow(segments, answers, i + 1, |answers|);
    LongerByMore(segments[k].events, Synced(segments, answers, i)[k].events, Found(segments[i], answers[i]),
      Synced(segments, answers, |answers|)[k].events);
  }

  /**
   A second sync with the same answers changes nothing exactly when the answers for segments that
   repeat an earlier ID are known to those segments: their new events go to the other segment.
   */
  lemma {:induction false} SyncIsIdempotentIff(
    segments: seq<TrackingSegment>, answers: seq<Option<seq<TrackingEvent>>>)
    requires |answers| == |segments|
    ensures var once := Synced(segments, answers, |answers|);
      Synced(once, answers, |answers|) == once <==> RepeatsAreKnown(segments, answers)
  {
    var once := Synced(segments, answers, |answers|);
    if RepeatsAreKnown(segments, answers) {
      forall i | 0 <= i < |once|
        ensures Found(once[i], answers[i]) == []
      {
        SecondSyncFindsNothing(segments, answers, i);
      }
      FindingNothingChangesNothing(once, answers, |answers|);
    } else {
      var i :| 0 <= i < |segments| && Owner(segments, i) != i && segments[i].status != Arrived && answers[i].Some?
        && !forall e :: e in answers[i].value ==> KeyOf(e) in Keys(segments[i].events);
      FoundNothingIff(segments[i], answers[i]);
      Untouched(segments, answers, |answers|, i);
      OwnersStay(segments, answers, |answers|, i);
      FindingAddsEvents(once, answers, i);
    }
  }

  /** In particular, a second sync of segments with distinct IDs changes nothing. */
  lemma SyncIsIdempotent(segments: seq<TrackingSegment>, answers: seq<Option<seq<TrackingEvent>>>)
    requires |answers| == |segments| && forall i, j :: 0 <= i < j < |segments| ==> segments[i].id != segments[j].id
    ensures var once := Synced(segments, answers, |answers|);
      Synced(once, answers, |answers|) == once
  {
    assert forall i :: 0 <= i < |segments| ==> Owner(segments, i) == i;
    SyncIsIdempotentIff(segments, answers);
  }

  // ---------------------------------------------------------------- distinct keys

  /** Events of a batch that share a key are known before the batch. */
  ghost predicate RepeatedKeysAreKnown(known: seq<TrackingEvent>, batch: seq<TrackingEvent>) {
    forall i, j :: 0 <= i < j < |batch| && KeyOf(batch[i]) == KeyOf(batch[j]) ==> KeyOf(batch[i]) in Keys(known)
  }

  lemma RepeatedMore(known: seq<TrackingEvent>, batch: seq<TrackingEvent>, e: TrackingEvent)
    ensures RepeatedKeysAreKnown(known, batch + [e]) <==>
      RepeatedKeysAreKnown(known, batch) && (KeyOf(e) in Keys(batch) ==> KeyOf(e) in Keys(known))
  {
    var all := batch + [e];
    if KeyOf(e) in Keys(batch) {
      var i :| 0 <= i < |batch| && Keys(batch)[i] == KeyOf(e);
      assert KeyOf(all[i]) == KeyOf(all[|batch|]);
    }
    assert forall i :: 0 <= i < |batch| ==> all[i] == batch[i] && KeyOf(batch[i]) == Keys(batch)[i];
  }

  lemma {:induction false} NewKeysAreDistinctIff(known: seq<TrackingEvent>, batch: seq<TrackingEvent>)
    ensures Distinct(Keys(NewEvents(known, batch))) <==> RepeatedKeysAreKnown(known, batch)
  {
    if batch != [] {
      var front, last := batch[..|batch| - 1], batch[|batch| - 1];
      var kept := NewEvents(known, front);
      assert batch == front + [last];
      NewKeysAreDistinctIff(known, front);
      RepeatedMore(known, front, last);
      KeptKeys(known, front);
      KeysMore(kept, last);
      DistinctMore(Keys(kept), KeyOf(last));
      assert NewEvents(known, batch) == if KeyOf(last) in Keys(known) then kept else kept + [last];
    }
  }

  /**
   A sync keeps the keys of a segment distinct exactly when it has arrived or every key that
   occurs twice in the batch was known before: duplicates within one batch are not detected.
   */
  lemma {:induction false} KeysStayDistinctIff(seg: TrackingSegment, batch: seq<TrackingEvent>)
    requires Distinct(Keys(seg.events))
    ensures Distinct(Keys(Extended(seg, Found(seg, Some(batch))).events)) <==>
      seg.status == Arrived || RepeatedKeysAreKnown(seg.events, batch)
  {
    var added := Found(seg, Some(batch));
    assert Keys(seg.events + added) == Keys(seg.events) + Keys(added);
    NewEventsAre(seg.events, batch);
    KeysMembers(added);
    DistinctJoin(Keys(seg.events), Keys(added));
    NewKeysAreDistinctIff(seg.events, batch);
  }

  /** An event that comes twice in one batch is stored twice. */
  lemma RepeatedEventIsStoredTwice(id: Id, e: TrackingEvent)
    ensures var seg := TrackingSegment(id, InTransit, []);
      Extended(seg, Found(seg, Some([e, e]))).events == [e, e] && !Distinct(Keys([e, e]))
  {
    var none: seq<TrackingEvent> := [];
    assert [e, e][..1] == [e] && [e][..0] == none;
    assert NewEvents(none, [e]) == [e] && NewEvents(none, [e, e]) == [e] + [e];
    assert Keys([e, e])[0] == Keys([e, e])[1];
  }

  lemma DistinctJoin(a: seq<string>, b: seq<string>)
    requires Distinct(a) && forall x :: x in b ==> x !in a
    ensures Distinct(a + b) <==> Distinct(b)
  {
    if Distinct(a + b) {
      forall i, j | 0 <= i < j < |b|
        ensures b[i] != b[j]
      {
        assert (a + b)[|a| + i] == b[i] && (a + b)[|a| + j] == b[j];
      }
    }
    assert forall i :: 0 <= i < |b| ==> b[i] in b;
  }

  lemma KeysMore(events: seq<TrackingEvent>, e: TrackingEvent)
    ensures Keys(events + [e]) == Keys(events) + [KeyOf(e)]
  {
  }

  lemma KeptKeys(known: seq<TrackingEvent>, batch: seq<TrackingEvent>)
    ensures forall key :: key in Keys(NewEvents(known, batch)) <==> key in Keys(batch) && key !in Keys(known)
  {
    NewEventsAre(known, batch);
    KeysMembers(NewEvents(known, batch));
    KeysMembers(batch);
  }

  lemma DistinctMore(a: seq<string>, x: string)
    ensures Distinct(a + [x]) <==> Distinct(a) && x !in a
  {
    var b := a + [x];
    assert b[|a|] == x && forall i :: 0 <= i < |a| ==> b[i] == a[i];
  }

  /** In particular, a batch without internal duplicates keeps the keys distinct. */
  lemma {:induction false} DistinctBatchKeepsKeysDistinct(seg: TrackingSegment, batch: seq<TrackingEvent>)
    requires Distinct(Keys(seg.events)) && Distinct(Keys(batch))
    ensures Distinct(Keys(Extended(seg, Found(seg, Some(batch))).events))
  {
    assert forall i :: 0 <= i < |batch| ==> Keys(batch)[i] == KeyOf(batch[i]);
    KeysStayDistinctIff(seg, batch);
  }
}
