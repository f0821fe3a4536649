/**
 * The earlier integer update engine. Every event needs an existing
 * snapshot (there is no init path), only the six values and UpdatedAt
 * change, and the event is inserted before the snapshot is saved.
 * Errors are plain Go errors, represented by their text.
 */
module LegacyEngine {
  import opened Wrappers
  import opened LegacyRecords
  import Tables
  import Ids
  import Clock

  const NotInitializedMessage: string := "user satisfaction has not been initialized"
  const CheckViolation: string := "violates check constraint"

  /** ConstrainRange on int: clamps into [0, 100]. */
  function ConstrainRange(v: int): (r: int)
    ensures 0 <= r <= 100
    ensures 0 <= v <= 100 ==> r == v
  {
    if v < 0 then 0 else if v > 100 then 100 else v
  }

  // ---------------------------------------------------------------- 64-bit addition

  const Int64Min: int := -0x8000_0000_0000_0000
  const Int64Max: int := 0x7FFF_FFFF_FFFF_FFFF
  const TwoTo64: int := 0x1_0000_0000_0000_0000

  /** Two's-complement wrap-around of Go's 64-bit `int`. */
  function Wrap64(v: int): (r: int)
    ensures Int64Min <= r <= Int64Max
    ensures Int64Min <= v <= Int64Max ==> r == v
  {
    (v - Int64Min) % TwoTo64 + Int64Min
  }

  /** One value as the code computes it on a 64-bit build: `ConstrainRange(prev + delta)` with wrapping `+`. */
  function StepAsWritten(prev: int, delta: int): int
    requires Int64Min <= prev <= Int64Max && Int64Min <= delta <= Int64Max
  {
    ConstrainRange(Wrap64(prev + delta))
  }

  /** One value as clamping intends: the mathematical sum, clamped. */
  function Step(prev: int, delta: int): int {
    ConstrainRange(prev + delta)
  }

  /** A large positive delta wraps the sum negative, so a full score drops to 0 instead of staying 100. */
  lemma StepAsWrittenWraps()
    ensures StepAsWritten(100, Int64Max) == 0
    ensures Step(100, Int64Max) == 100
    ensures StepAsWritten(100, 0) > StepAsWritten(100, Int64Max)
  {
  }

  /** The intended step is monotone in the delta; the wrapping step is not (StepAsWrittenWraps). */
  lemma StepMonotoneInDelta(prev: int, d1: int, d2: int)
    requires d1 <= d2
    ensures Step(prev, d1) <= Step(prev, d2)
  {
  }

  /** Whenever the sum stays within 64 bits the two agree. */
  lemma StepAgreesWithoutOverflow(prev: int, delta: int)
    requires Int64Min <= prev <= Int64Max && Int64Min <= delta <= Int64Max
    requires Int64Min <= prev + delta <= Int64Max
    ensures StepAsWritten(prev, delta) == Step(prev, delta)
  {
  }

  function ApplyDeltas(values: IntDims, deltas: IntDims): (r: IntDims)
    ensures IntWithin(r, 0, 100)
  {
    IntDims(
      Step(values.workload, deltas.workload),
      Step(values.compensation, deltas.compensation),
      Step(values.growth, deltas.growth),
      Step(values.workEnvironment, deltas.workEnvironment),
      Step(values.workRelationships, deltas.workRelationships),
      Step(values.workValues, deltas.workValues))
  }

  // ---------------------------------------------------------------- the transaction

  datatype LegacyStore = LegacyStore(snapshots: seq<LegacySnapshot>, events: seq<LegacyEvent>)

  /**
   * The database's outcomes and gorm's two clock reads: `eventWrittenAt` when
   * it inserts the event, `savedAt` when it saves the snapshot. The engine's
   * own `time.Now()` for UpdatedAt is overwritten by `Save`, so it does not
   * reach the store.
   */
  datatype LegacyTxEnv = LegacyTxEnv(
    beginError: Option<string>,
    lookupError: Option<string>,
    eventWriteError: Option<string>,
    snapshotWriteError: Option<string>,
    commitError: Option<string>,
    eventWrittenAt: int,
    savedAt: int,
    eventStamp: Ids.IdStamp)

  predicate SnapshotOf(user: string, r: LegacySnapshot) { r.userId == user }

  function SnapshotRow(rows: seq<LegacySnapshot>, user: string): Option<nat> {
    Tables.FindFirst(rows, (r: LegacySnapshot) => SnapshotOf(user, r))
  }

  /** `tx.Create(event)`: BeforeCreate sets the ID, and gorm stamps an unset CreatedAt. */
  function InsertedEvent(e: LegacyEvent, env: LegacyTxEnv): (r: LegacyEvent)
    ensures r.(id := e.id, createdAt := e.createdAt) == e
    ensures e.createdAt != Clock.ZeroTime ==> r.createdAt == e.createdAt
    ensures e.createdAt == Clock.ZeroTime ==> r.createdAt == env.eventWrittenAt
  {
    CreateLegacyEventRow(e, env.eventStamp).(createdAt := Clock.FillUnset(e.createdAt, env.eventWrittenAt))
  }

  /** The snapshot row `Save` writes: six values updated, UpdatedAt gorm's read `at`; nothing else changes. */
  function UpdatedRow(row: LegacySnapshot, e: LegacyEvent, at: int): LegacySnapshot {
    row.(values := ApplyDeltas(row.values, e.deltas), updatedAt := at)
  }

  /** ProcessSatisfactionUpdate of the integer engine: the committed store or the error text. */
  function Process(s: LegacyStore, e: LegacyEvent, env: LegacyTxEnv): Result<LegacyStore, string> {
    if env.beginError.Some? then Failure(env.beginError.value)
    else if env.lookupError.Some? then Failure(env.lookupError.value)
    else
      match SnapshotRow(s.snapshots, e.userId)
      case None => Failure(NotInitializedMessage)
      case Some(k) =>
        var row := UpdatedRow(s.snapshots[k], e, env.savedAt);
        if env.eventWriteError.Some? then Failure(env.eventWriteError.value)
        else if env.snapshotWriteError.Some? then Failure(env.snapshotWriteError.value)
        else if !LegacySnapshotChecks(row) then Failure(CheckViolation)
        else if env.commitError.Some? then Failure(env.commitError.value)
        else Success(LegacyStore(s.snapshots[k := row], s.events + [InsertedEvent(e, env)]))
  }

  /** The store after the transaction: committed, or unchanged after a rollback. */
  function Apply(s: LegacyStore, e: LegacyEvent, env: LegacyTxEnv): (r: LegacyStore)
    ensures r == s || |r.events| == |s.events| + 1
  {
    match Process(s, e, env)
    case Success(t) => t
    case Failure(_) => s
  }

  /** With no snapshot for the user the run fails with "not initialized"; there is no init path. */
  lemma MissingSnapshotNotInitialized(s: LegacyStore, e: LegacyEvent, env: LegacyTxEnv)
    requires env.beginError.None? && env.lookupError.None?
    requires forall i :: 0 <= i < |s.snapshots| ==> s.snapshots[i].userId != e.userId
    ensures Process(s, e, env) == Failure(NotInitializedMessage)
    ensures Apply(s, e, env) == s
  {
  }

  /** Any other lookup error is returned unchanged. */
  lemma LookupErrorReturned(s: LegacyStore, e: LegacyEvent, env: LegacyTxEnv, m: string)
    requires env.beginError.None? && env.lookupError == Some(m)
    ensures Process(s, e, env) == Failure(m)
  {
  }

  /**
   * A commit rewrites the user's first snapshot row: values become
   * clamp(old + delta), while ID, user, importances and CreatedAt stay;
   * one event is appended.
   */
  lemma CommitUpdatesValuesOnly(s: LegacyStore, e: LegacyEvent, env: LegacyTxEnv)
    requires Process(s, e, env).Success?
    ensures SnapshotRow(s.snapshots, e.userId).Some?
    ensures var k := SnapshotRow(s.snapshots, e.userId).value;
      var r := Process(s, e, env).value;
      && |r.snapshots| == |s.snapshots|
      && (forall j :: 0 <= j < |s.snapshots| && j != k ==> r.snapshots[j] == s.snapshots[j])
      && r.snapshots[k].values == ApplyDeltas(s.snapshots[k].values, e.deltas)
      && r.snapshots[k].importances == s.snapshots[k].importances
      && r.snapshots[k].id == s.snapshots[k].id && r.snapshots[k].userId == e.userId
      && r.snapshots[k].createdAt == s.snapshots[k].createdAt
      && r.snapshots[k].updatedAt == env.savedAt
      && r.events == s.events + [InsertedEvent(e, env)]
  {
  }

  /**
   * The event insert comes first: when both writes would fail, the event's
   * error is the one returned.
   */
  lemma EventInsertedBeforeSnapshot(s: LegacyStore, e: LegacyEvent, env: LegacyTxEnv, ev: string, sv: string)
    requires env.beginError.None? && env.lookupError.None?
    requires SnapshotRow(s.snapshots, e.userId).Some?
    requires env.eventWriteError == Some(ev) && env.snapshotWriteError == Some(sv)
    ensures Process(s, e, env) == Failure(ev)
  {
  }

  /**
   * Every snapshot row keeps its values in [0, 100]; the event table has no
   * constraint, so any integer deltas are accepted.
   */
  lemma SucceedsExactlyWithoutFault(s: LegacyStore, e: LegacyEvent, env: LegacyTxEnv)
    requires forall i :: 0 <= i < |s.snapshots| ==> LegacySnapshotChecks(s.snapshots[i])
    ensures Process(s, e, env).Success? <==>
      && env.beginError.None? && env.lookupError.None?
      && SnapshotRow(s.snapshots, e.userId).Some?
      && env.eventWriteError.None? && env.snapshotWriteError.None? && env.commitError.None?
    ensures forall i :: 0 <= i < |Apply(s, e, env).snapshots| ==> LegacySnapshotChecks(Apply(s, e, env).snapshots[i])
  {
    match SnapshotRow(s.snapshots, e.userId)
    case None =>
    case Some(k) =>
      assert LegacySnapshotChecks(s.snapshots[k]);
  }
}
