/**
 * The satisfaction update engine: one event applied to the store inside a
 * transaction that either commits a snapshot write together with one event
 * insert, or rolls back and leaves the store as it was.
 *
 * Database outcomes the code cannot see (a failed BEGIN, a failed query, a
 * failed write or COMMIT) are parameters collected in TxEnv; a write that
 * breaks a table's CHECK constraint fails as the database would reject it.
 */
module UpdateEngine {
  import opened Wrappers
  import opened EventTypes
  import opened Records
  import opened AppErrors
  import Tables
  import Ids
  import Clock

  // Messages of the engine's errors (given in English translation).
  const BeginFailedMessage: string := "cannot start the transaction"
  const NotInitializedMessage: string := "user satisfaction has not been initialized"
  const LookupFailedMessage: string := "an error occurred while looking up user satisfaction"
  const SnapshotSaveFailedMessage: string := "an error occurred while saving user satisfaction"
  const EventSaveFailedMessage: string := "an error occurred while saving the event"
  /** The database's complaint when a row breaks a CHECK constraint. */
  const CheckViolation: string := "violates check constraint"

  /** ConstrainRange on float64, modelled on real: clamps into [0, 100]. */
  function ConstrainRange(v: real): (r: real)
    ensures 0.0 <= r <= 100.0
    ensures 0.0 <= v <= 100.0 ==> r == v
  {
    if v < 0.0 then 0.0 else if v > 100.0 then 100.0 else v
  }

  /** Clamping is idempotent, monotone, and moves a value to the nearest bound of [0, 100]. */
  lemma ConstrainRangeLaws(v: real, w: real)
    ensures ConstrainRange(ConstrainRange(v)) == ConstrainRange(v)
    ensures v <= w ==> ConstrainRange(v) <= ConstrainRange(w)
    ensures ConstrainRange(v) == 0.0 <==> v <= 0.0
    ensures ConstrainRange(v) == 100.0 <==> v >= 100.0
  {
  }

  /** Each value becomes ConstrainRange(old + delta). */
  function ApplyDeltas(values: Dims, deltas: Dims): (r: Dims)
    ensures Within(r, 0.0, 100.0)
  {
    Dims(
      ConstrainRange(values.workload + deltas.workload),
      ConstrainRange(values.compensation + deltas.compensation),
      ConstrainRange(values.growth + deltas.growth),
      ConstrainRange(values.workEnvironment + deltas.workEnvironment),
      ConstrainRange(values.workRelationships + deltas.workRelationships),
      ConstrainRange(values.workValues + deltas.workValues))
  }

  /** Starting from zero, deltas already in [0, 100] are stored exactly. */
  lemma ApplyDeltasFromZero(deltas: Dims)
    requires Within(deltas, 0.0, 100.0)
    ensures ApplyDeltas(ZeroDims, deltas) == deltas
  {
  }

  /** The three tables the engine touches. */
  datatype Store = Store(
    snapshots: seq<Snapshot>,
    importances: seq<Importance>,
    events: seq<UpdateEvent>)

  /** Every row satisfies its table's CHECK constraints. */
  predicate StoreValid(s: Store) {
    && (forall i :: 0 <= i < |s.snapshots| ==> SnapshotChecks(s.snapshots[i]))
    && (forall i :: 0 <= i < |s.importances| ==> ImportanceChecks(s.importances[i]))
    && (forall i :: 0 <= i < |s.events| ==> EventChecks(s.events[i]))
  }

  /**
   * What the transaction meets in the database, beyond the rows themselves.
   * Three clock reads are separate: `now` is the engine's own `time.Now()`
   * for UpdatedAt, `writtenAt` is gorm's read when it writes the snapshot,
   * and `eventWrittenAt` is gorm's read when it inserts the event.
   */
  datatype TxEnv = TxEnv(
    beginError: Option<string>,
    snapshotLookupError: Option<string>,
    importanceLookupError: Option<string>,
    snapshotWriteError: Option<string>,
    eventWriteError: Option<string>,
    commitError: Option<string>,
    now: int,
    writtenAt: int,
    eventWrittenAt: int,
    snapshotStamp: Ids.IdStamp,
    eventStamp: Ids.IdStamp)

  /** No database fault at any step. */
  predicate Faultless(env: TxEnv) {
    && env.beginError.None? && env.snapshotLookupError.None? && env.importanceLookupError.None?
    && env.snapshotWriteError.None? && env.eventWriteError.None? && env.commitError.None?
  }

  /** The engine returns an AppError, except that a failed COMMIT returns gorm's raw error. */
  datatype EngineError = App(app: AppError) | Raw(message: string)

  predicate SnapshotOf(user: string, r: Snapshot) { r.userId == user }

  predicate ImportanceOf(user: string, r: Importance) { r.userId == user }

  /** `Where("user_id = ?", user).First(&satisfaction)`. */
  function SnapshotRow(rows: seq<Snapshot>, user: string): Option<nat> {
    Tables.FindFirst(rows, (r: Snapshot) => SnapshotOf(user, r))
  }

  /** `Where("user_id = ?", user).First(&importance)`, with a failed query reading as no row. */
  function ImportanceRow(s: Store, user: string, env: TxEnv): (r: Option<Importance>)
    ensures r.Some? ==> r.value in s.importances && r.value.userId == user
  {
    if env.importanceLookupError.Some? then None
    else
      match Tables.FindFirst(s.importances, (r: Importance) => ImportanceOf(user, r))
      case None => None
      case Some(i) => Some(s.importances[i])
  }

  /** An init event starts from a zero-valued snapshot for its user; any other event needs the stored one. */
  predicate HasBase(s: Store, e: UpdateEvent) {
    e.eventType == InitEvent || SnapshotRow(s.snapshots, e.userId).Some?
  }

  function Base(s: Store, e: UpdateEvent): Snapshot
    requires HasBase(s, e)
  {
    if e.eventType == InitEvent then Snapshot("", e.userId, ZeroDims, ZeroDims, Clock.ZeroTime, Clock.ZeroTime)
    else s.snapshots[SnapshotRow(s.snapshots, e.userId).value]
  }

  /** The snapshot after the six values are updated, importances copied forward and UpdatedAt set. */
  function Updated(s: Store, e: UpdateEvent, env: TxEnv): Snapshot
    requires HasBase(s, e)
  {
    var base := Base(s, e);
    var imp := ImportanceRow(s, e.userId, env);
    base.(
      values := ApplyDeltas(base.values, e.deltas),
      importances := if imp.Some? then imp.value.weights else base.importances,
      updatedAt := env.now)
  }

  /**
   * The snapshot row as the database stores it. `tx.Create` (init) runs the
   * create hook and stamps the unset CreatedAt with gorm's read; `tx.Save`
   * replaces UpdatedAt with gorm's read, so the engine's own is lost.
   */
  function WrittenRow(s: Store, e: UpdateEvent, env: TxEnv): Snapshot
    requires HasBase(s, e)
  {
    var row := Updated(s, e, env);
    if e.eventType == InitEvent then
      CreateSnapshotRow(row.(createdAt := Clock.FillUnset(row.createdAt, env.writtenAt),
                             updatedAt := Clock.FillUnset(row.updatedAt, env.writtenAt)), env.snapshotStamp)
    else row.(updatedAt := env.writtenAt)
  }

  /** `tx.Create(&satisfaction)` for an init event, `tx.Save(&satisfaction)` otherwise. */
  function WriteSnapshot(s: Store, e: UpdateEvent, env: TxEnv): Result<seq<Snapshot>, string>
    requires HasBase(s, e)
  {
    var row := WrittenRow(s, e, env);
    if env.snapshotWriteError.Some? then Failure(env.snapshotWriteError.value)
    else if !SnapshotChecks(row) then Failure(CheckViolation)
    else if e.eventType == InitEvent then Success(s.snapshots + [row])
    else Success(s.snapshots[SnapshotRow(s.snapshots, e.userId).value := row])
  }

  /** The event row `tx.Create(event)` inserts. */
  function InsertedEvent(e: UpdateEvent, env: TxEnv): UpdateEvent {
    InsertEventRow(e, env.eventStamp, env.eventWrittenAt)
  }

  /** ProcessSatisfactionUpdate: the committed store, or the error the transaction rolled back with. */
  function Process(s: Store, e: UpdateEvent, env: TxEnv): Result<Store, EngineError> {
    if env.beginError.Some? then
      Failure(App(NewInternalError(DatabaseError, BeginFailedMessage, env.beginError)))
    else if e.eventType != InitEvent && env.snapshotLookupError.Some? then
      Failure(App(NewInternalError(DatabaseError, LookupFailedMessage, env.snapshotLookupError)))
    else if !HasBase(s, e) then
      Failure(App(NewNotFoundError(ResourceNotFound, NotInitializedMessage)))
    else
      match WriteSnapshot(s, e, env)
      case Failure(cause) =>
        Failure(App(NewInternalError(DatabaseError, SnapshotSaveFailedMessage, Some(cause))))
      case Success(snapshots) =>
        var inserted := InsertedEvent(e, env);
        if env.eventWriteError.Some? then
          Failure(App(NewInternalError(DatabaseError, EventSaveFailedMessage, env.eventWriteError)))
        else if !EventChecks(inserted) then
          Failure(App(NewInternalError(DatabaseError, EventSaveFailedMessage, Some(CheckViolation))))
        else if env.commitError.Some? then
          Failure(Raw(env.commitError.value))
        else
          Success(Store(snapshots, s.importances, s.events + [inserted]))
  }

  /** The store after the transaction: the committed one, or the old one after a rollback. */
  function Apply(s: Store, e: UpdateEvent, env: TxEnv): (r: Store)
    ensures r == s || (r.importances == s.importances && r.events == s.events + [InsertedEvent(e, env)])
  {
    match Process(s, e, env)
    case Success(t) => t
    case Failure(_) => s
  }

  // ---------------------------------------------------------------- properties

  /**
   * An init event does not read the snapshot table: it appends a new row for
   * the event's user whose values are clamp(0 + delta), whose importances are
   * the declared ones or zero, and whose ID comes from the create hook.
   */
  lemma InitCreatesFromZero(s: Store, e: UpdateEvent, env: TxEnv)
    requires e.eventType == InitEvent
    requires Process(s, e, env).Success?
    ensures var r := Process(s, e, env).value;
      && |r.snapshots| == |s.snapshots| + 1
      && r.snapshots[..|s.snapshots|] == s.snapshots
      && var row := r.snapshots[|s.snapshots|];
      && row.userId == e.userId
      && row.values == ApplyDeltas(ZeroDims, e.deltas)
      && row.importances == (if ImportanceRow(s, e.userId, env).Some? then ImportanceRow(s, e.userId, env).value.weights else ZeroDims)
      && row.id == Ids.GenerateID(SnapshotPrefix, env.snapshotStamp)
      && row.createdAt == env.writtenAt
      && row.updatedAt == (if env.now == Clock.ZeroTime then env.writtenAt else env.now)
  {
    var r := Process(s, e, env).value;
    assert r.snapshots == s.snapshots + [r.snapshots[|s.snapshots|]];
  }

  /** Two stores with the same importance rows give an init event the same outcome and the same new row. */
  lemma InitIgnoresSnapshots(s1: Store, s2: Store, e: UpdateEvent, env: TxEnv)
    requires e.eventType == InitEvent
    requires s1.importances == s2.importances
    ensures Process(s1, e, env).Success? <==> Process(s2, e, env).Success?
    ensures Process(s1, e, env).Success? ==>
      Process(s1, e, env).value.snapshots[|s1.snapshots|] == Process(s2, e, env).value.snapshots[|s2.snapshots|]
  {
    if env.beginError.None? {
      assert Updated(s1, e, env) == Updated(s2, e, env);
    }
  }

  /**
   * A non-init event for a user without a snapshot fails with NotFound /
   * RESOURCE_NOT_FOUND and the transaction writes nothing.
   */
  lemma MissingSnapshotFails(s: Store, e: UpdateEvent, env: TxEnv)
    requires e.eventType != InitEvent
    requires env.beginError.None? && env.snapshotLookupError.None?
    requires forall i :: 0 <= i < |s.snapshots| ==> s.snapshots[i].userId != e.userId
    ensures Process(s, e, env).Failure?
    ensures Process(s, e, env).error == App(NewNotFoundError(ResourceNotFound, NotInitializedMessage))
    ensures StatusCode(Process(s, e, env).error.app) == 404
    ensures Apply(s, e, env) == s
  {
  }

  /**
   * A committed non-init event rewrites, in place, the first snapshot row of
   * its user: each value becomes clamp(old + delta), ID, user and CreatedAt
   * stay, UpdatedAt is gorm's read at `Save` (the engine's own read is
   * overwritten); no other row changes.
   */
  lemma DeltaUpdatesInPlace(s: Store, e: UpdateEvent, env: TxEnv)
    requires e.eventType != InitEvent
    requires Process(s, e, env).Success?
    ensures SnapshotRow(s.snapshots, e.userId).Some?
    ensures var k := SnapshotRow(s.snapshots, e.userId).value;
      var old_ := s.snapshots[k];
      var r := Process(s, e, env).value;
      && |r.snapshots| == |s.snapshots|
      && (forall j :: 0 <= j < |s.snapshots| && j != k ==> r.snapshots[j] == s.snapshots[j])
      && r.snapshots[k].values == ApplyDeltas(old_.values, e.deltas)
      && r.snapshots[k].id == old_.id && r.snapshots[k].userId == e.userId
      && r.snapshots[k].createdAt == old_.createdAt && r.snapshots[k].updatedAt == env.writtenAt
  {
  }

  /**
   * Importances are copied forward, not accumulated: the declared row's
   * weights when one is found, otherwise the previous ones (zero for init);
   * a failed importance query is ignored.
   */
  lemma ImportancesCopiedForward(s: Store, e: UpdateEvent, env: TxEnv)
    requires HasBase(s, e)
    ensures env.importanceLookupError.Some? ==> Updated(s, e, env).importances == Base(s, e).importances
    ensures env.importanceLookupError.None? && (exists i :: 0 <= i < |s.importances| && s.importances[i].userId == e.userId)
      ==> exists i :: 0 <= i < |s.importances| && s.importances[i].userId == e.userId
            && Updated(s, e, env).importances == s.importances[i].weights
    ensures (forall i :: 0 <= i < |s.importances| ==> s.importances[i].userId != e.userId)
      ==> Updated(s, e, env).importances == Base(s, e).importances
    ensures e.eventType == InitEvent && ImportanceRow(s, e.userId, env).None? ==> Updated(s, e, env).importances == ZeroDims
  {
    if env.importanceLookupError.None? && (exists i :: 0 <= i < |s.importances| && s.importances[i].userId == e.userId) {
      var k := Tables.FindFirst(s.importances, (r: Importance) => ImportanceOf(e.userId, r));
      assert k.Some?;
    }
  }

  /**
   * Commit happens only after both writes succeed: a committed run appends
   * exactly the inserted event and leaves the importance table alone.
   */
  lemma CommitAppendsOneEvent(s: Store, e: UpdateEvent, env: TxEnv)
    requires Process(s, e, env).Success?
    ensures var r := Process(s, e, env).value;
      && r.events == s.events + [InsertedEvent(e, env)]
      && |r.events| == |s.events| + 1
      && r.importances == s.importances
      && InsertedEvent(e, env).id == Ids.GenerateID(EventPrefix, env.eventStamp)
      && |r.snapshots| == |s.snapshots| + (if e.eventType == InitEvent then 1 else 0)
  {
  }

  /**
   * Every failure is a NotFound (missing snapshot), a DATABASE_ERROR from a
   * failed step, or the raw error of a failed COMMIT; a snapshot-write
   * failure is reported before an event-insert failure is even attempted.
   */
  lemma FailureKinds(s: Store, e: UpdateEvent, env: TxEnv)
    requires Process(s, e, env).Failure?
    ensures var err := Process(s, e, env).error;
      || (err.App? && err.app.errorType == NotFoundType && err.app.code == ResourceNotFound)
      || (err.App? && err.app.errorType == InternalType && err.app.code == DatabaseError)
      || (err.Raw? && env.commitError == Some(err.message))
    ensures env.beginError.None? && HasBase(s, e) && (e.eventType == InitEvent || env.snapshotLookupError.None?)
        && env.snapshotWriteError.Some?
      ==> Process(s, e, env).error.app.message == SnapshotSaveFailedMessage
  {
  }

  /** The CHECK constraints hold of every table after any run. */
  lemma ApplyPreservesValidity(s: Store, e: UpdateEvent, env: TxEnv)
    requires StoreValid(s)
    ensures StoreValid(Apply(s, e, env))
  {
  }

  /**
   * On a valid store the engine fails only for a reason: a database fault, a
   * missing snapshot for a non-init event, or an event outside the event
   * table's constraints.
   */
  lemma SucceedsExactlyWithoutFault(s: Store, e: UpdateEvent, env: TxEnv)
    requires StoreValid(s)
    ensures Process(s, e, env).Success? <==>
      && env.beginError.None?
      && (e.eventType == InitEvent || env.snapshotLookupError.None?)
      && HasBase(s, e)
      && env.snapshotWriteError.None? && env.eventWriteError.None?
      && EventChecks(InsertedEvent(e, env))
      && env.commitError.None?
  {
    if env.beginError.None? && (e.eventType == InitEvent || env.snapshotLookupError.None?) && HasBase(s, e)
       && env.snapshotWriteError.None? {
      UpdatedKeepsChecks(s, e, env);
      assert SnapshotChecks(WrittenRow(s, e, env));
    }
  }

  lemma UpdatedKeepsChecks(s: Store, e: UpdateEvent, env: TxEnv)
    requires StoreValid(s) && HasBase(s, e)
    ensures SnapshotChecks(Updated(s, e, env))
  {
    var imp := ImportanceRow(s, e.userId, env);
    if imp.Some? {
      var i :| 0 <= i < |s.importances| && s.importances[i] == imp.value;
      assert ImportanceChecks(s.importances[i]);
    }
    if e.eventType != InitEvent {
      var k := SnapshotRow(s.snapshots, e.userId).value;
      assert SnapshotChecks(s.snapshots[k]);
    }
  }

  /**
   * user_id is not unique: an init event for a user who already has a
   * snapshot, when it commits, leaves two snapshot rows for that user.
   */
  lemma DuplicateInitAddsSecondRow(s: Store, e: UpdateEvent, env: TxEnv, k: nat)
    requires e.eventType == InitEvent
    requires k < |s.snapshots| && s.snapshots[k].userId == e.userId
    requires Process(s, e, env).Success?
    ensures var r := Process(s, e, env).value;
      && r.snapshots[k].userId == e.userId
      && r.snapshots[|s.snapshots|].userId == e.userId
      && k != |s.snapshots|
  {
    InitCreatesFromZero(s, e, env);
  }

  // ---------------------------------------------------------------- publishing

  /** A line the publisher logs when the detached run fails. */
  datatype LogEntry =
    | UpdateFailed(message: string, code: ErrorCode, errorType: ErrorType, debug: string)
    | UnexpectedFailure(text: string)

  /** What PublishJobSatisfactionUpdateEvent leaves behind once its detached run has finished. */
  datatype Published = Published(store: Store, log: Option<LogEntry>)

  /**
   * PublishJobSatisfactionUpdateEvent returns nothing to its caller; the
   * detached run's only traces are the store it leaves and one log line on
   * failure.
   */
  function Publish(s: Store, e: UpdateEvent, env: TxEnv): (p: Published)
    ensures p.store == Apply(s, e, env)
    ensures p.log.Some? <==> Process(s, e, env).Failure?
    ensures p.log.Some? ==> p.store == s
  {
    match Process(s, e, env)
    case Success(t) => Published(t, None)
    case Failure(App(a)) => Published(s, Some(UpdateFailed(a.message, a.code, a.errorType, a.debugInfo)))
    case Failure(Raw(m)) => Published(s, Some(UnexpectedFailure(m)))
  }
}
