/**
 * The earlier integer-valued job-satisfaction records: a snapshot with
 * integer values and importances, and an event with unconstrained integer
 * deltas, no event kind and a required source reference.
 */
module LegacyRecords {
  import Ids

  datatype IntDims = IntDims(
    workload: int,
    compensation: int,
    growth: int,
    workEnvironment: int,
    workRelationships: int,
    workValues: int)

  predicate IntWithin(d: IntDims, lo: int, hi: int) {
    && lo <= d.workload <= hi
    && lo <= d.compensation <= hi
    && lo <= d.growth <= hi
    && lo <= d.workEnvironment <= hi
    && lo <= d.workRelationships <= hi
    && lo <= d.workValues <= hi
  }

  const SnapshotPrefix: string := "USR_JOB_SAT"
  const EventPrefix: string := "JOB_SAT_UPDATE_EVENT"

  /** models.UserJobSatisfaction: `user_id` is indexed, not unique. */
  datatype LegacySnapshot = LegacySnapshot(
    id: string,
    userId: string,
    values: IntDims,
    importances: IntDims,
    createdAt: int,
    updatedAt: int)

  /** models.JobSatisfactionUpdateEvent: no kind, no range checks, `sourceId` is a plain string, never nil. */
  datatype LegacyEvent = LegacyEvent(
    id: string,
    userId: string,
    deltas: IntDims,
    sourceId: string,
    createdAt: int)

  /** The snapshot table's CHECK constraints: values and importances in [0, 100]. */
  predicate LegacySnapshotChecks(s: LegacySnapshot) {
    IntWithin(s.values, 0, 100) && IntWithin(s.importances, 0, 100)
  }

  /** BeforeCreate of the snapshot: the ID is replaced, nothing else changes. */
  function CreateLegacySnapshotRow(s: LegacySnapshot, stamp: Ids.IdStamp): (r: LegacySnapshot)
    ensures r.(id := s.id) == s
    ensures Ids.StartsWith(r.id, SnapshotPrefix + "_")
  {
    s.(id := Ids.GenerateID(SnapshotPrefix, stamp))
  }

  /** BeforeCreate of the event: the ID is replaced, nothing else changes. */
  function CreateLegacyEventRow(e: LegacyEvent, stamp: Ids.IdStamp): (r: LegacyEvent)
    ensures r.(id := e.id) == e
    ensures Ids.StartsWith(r.id, EventPrefix + "_")
  {
    e.(id := Ids.GenerateID(EventPrefix, stamp))
  }
}
