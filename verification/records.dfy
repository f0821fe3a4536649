/**
 * The job-satisfaction records: the per-user snapshot, the declared
 * importances and the update event, with the CHECK constraints their
 * columns declare and the ID each gets on insert.
 */
module Records {
  import opened Wrappers
  import opened EventTypes
  import Ids
  import Clock

  /**
   * Six values, one per dimension, in declaration order: workload,
   * compensation, growth, work environment, work relationships, work values.
   * Used for satisfactions, importances and signed deltas alike.
   */
  datatype Dims = Dims(
    workload: real,
    compensation: real,
    growth: real,
    workEnvironment: real,
    workRelationships: real,
    workValues: real)

  const ZeroDims: Dims := Dims(0.0, 0.0, 0.0, 0.0, 0.0, 0.0)

  /** The six values in declaration order. */
  function Fields(d: Dims): (s: seq<real>)
    ensures |s| == 6
  {
    [d.workload, d.compensation, d.growth, d.workEnvironment, d.workRelationships, d.workValues]
  }

  /** Every one of the six values lies in [lo, hi]. */
  predicate Within(d: Dims, lo: real, hi: real) {
    && lo <= d.workload <= hi
    && lo <= d.compensation <= hi
    && lo <= d.growth <= hi
    && lo <= d.workEnvironment <= hi
    && lo <= d.workRelationships <= hi
    && lo <= d.workValues <= hi
  }

  lemma WithinFields(d: Dims, lo: real, hi: real)
    ensures Within(d, lo, hi) <==> forall i :: 0 <= i < 6 ==> lo <= Fields(d)[i] <= hi
  {
    if forall i :: 0 <= i < 6 ==> lo <= Fields(d)[i] <= hi {
      assert Fields(d)[0] == d.workload && Fields(d)[5] == d.workValues;
      assert Fields(d)[1] == d.compensation && Fields(d)[2] == d.growth;
      assert Fields(d)[3] == d.workEnvironment && Fields(d)[4] == d.workRelationships;
    }
  }

  const SnapshotPrefix: string := "USR_JOB_SAT"
  const ImportancePrefix: string := "USR_JOB_SAT_IMP"
  const EventPrefix: string := "JOB_SAT_UPDATE_EVENT"

  /** UserJobSatisfaction: `user_id` is indexed, not unique. */
  datatype Snapshot = Snapshot(
    id: string,
    userId: string,
    values: Dims,
    importances: Dims,
    createdAt: int,
    updatedAt: int)

  /** UserJobSatisfactionImportance: `user_id` is indexed, not unique. */
  datatype Importance = Importance(
    id: string,
    userId: string,
    weights: Dims,
    createdAt: int,
    updatedAt: int)

  /** JobSatisfactionUpdateEvent: `sourceId` may be nil. */
  datatype UpdateEvent = UpdateEvent(
    id: string,
    userId: string,
    eventType: EventType,
    deltas: Dims,
    sourceId: Option<string>,
    createdAt: int,
    updatedAt: int)

  /** The snapshot table's CHECK constraints: values and importances in [0, 100]. */
  predicate SnapshotChecks(s: Snapshot) {
    Within(s.values, 0.0, 100.0) && Within(s.importances, 0.0, 100.0)
  }

  /** The importance table's CHECK constraints: weights in [0, 100]. */
  predicate ImportanceChecks(i: Importance) {
    Within(i.weights, 0.0, 100.0)
  }

  /** The event table's constraints: deltas in [-100, 100], event_type fits varchar(20). */
  predicate EventChecks(e: UpdateEvent) {
    Within(e.deltas, -100.0, 100.0) && |e.eventType.raw| <= ColumnWidth
  }

  /** Both defined event kinds pass the column check, with or without a source reference. */
  lemma DefinedEventsFit(e: UpdateEvent)
    requires IsValid(e.eventType)
    requires Within(e.deltas, -100.0, 100.0)
    ensures EventChecks(e)
  {
    DefinedKindsFitColumn();
  }

  // ---------------------------------------------------------------- BeforeCreate hooks

  /** BeforeCreate of the snapshot: the ID is replaced, nothing else changes. */
  function CreateSnapshotRow(s: Snapshot, stamp: Ids.IdStamp): (r: Snapshot)
    ensures r.(id := s.id) == s
    ensures Ids.StartsWith(r.id, SnapshotPrefix + "_")
  {
    s.(id := Ids.GenerateID(SnapshotPrefix, stamp))
  }

  /** BeforeCreate of the importance row: the ID is replaced, nothing else changes. */
  function CreateImportanceRow(i: Importance, stamp: Ids.IdStamp): (r: Importance)
    ensures r.(id := i.id) == i
    ensures Ids.StartsWith(r.id, ImportancePrefix + "_")
  {
    i.(id := Ids.GenerateID(ImportancePrefix, stamp))
  }

  /** BeforeCreate of the event: the ID is replaced, nothing else changes. */
  function CreateEventRow(e: UpdateEvent, stamp: Ids.IdStamp): (r: UpdateEvent)
    ensures r.(id := e.id) == e
    ensures Ids.StartsWith(r.id, EventPrefix + "_")
  {
    e.(id := Ids.GenerateID(EventPrefix, stamp))
  }

  /**
   * The event row `Create(event)` writes: BeforeCreate sets the ID, and gorm
   * stamps an unset CreatedAt or UpdatedAt with its own clock read `at`.
   */
  function InsertEventRow(e: UpdateEvent, stamp: Ids.IdStamp, at: int): (r: UpdateEvent)
    ensures r.(id := e.id, createdAt := e.createdAt, updatedAt := e.updatedAt) == e
    ensures e.createdAt != Clock.ZeroTime ==> r.createdAt == e.createdAt
    ensures e.updatedAt == Clock.ZeroTime ==> r.updatedAt == at
  {
    CreateEventRow(e, stamp).(createdAt := Clock.FillUnset(e.createdAt, at), updatedAt := Clock.FillUnset(e.updatedAt, at))
  }

  /**
   * A caller-supplied ID never survives insertion, and importance IDs
   * (`USR_JOB_SAT_IMP_...`) never equal snapshot IDs (`USR_JOB_SAT_<digits>...`).
   */
  lemma CreatedIds(s: Snapshot, i: Importance, st1: Ids.IdStamp, st2: Ids.IdStamp, other: string)
    ensures CreateSnapshotRow(s, st1) == CreateSnapshotRow(s.(id := other), st1)
    ensures CreateImportanceRow(i, st2).id != CreateSnapshotRow(s, st1).id
  {
    assert ImportancePrefix == SnapshotPrefix + "_" + "IMP";
    Ids.PrefixesKeepIDsApart(SnapshotPrefix, "IMP", st1, st2);
  }
}
