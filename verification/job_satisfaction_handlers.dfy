/**
 * The two producers of job-satisfaction state behind HTTP: initialisation,
 * which only checks and then hands an INIT_EVENT to the detached engine run,
 * and importance creation, which writes its row directly.
 *
 * The body parser's outcome, the handler's own lookup error and the insert
 * error are parameters; the engine run that follows an accepted request is
 * UpdateEngine.Publish.
 */
module JobSatisfactionHandlers {
  import opened Wrappers
  import opened EventTypes
  import opened Records
  import opened AppErrors
  import opened Validation
  import opened Responses
  import opened UpdateEngine
  import Tables
  import Ids
  import Clock

  const InitStruct: string := "InitializeJobSatisfactionInput"
  const ImportanceStruct: string := "CreateJobSatisfactionImportanceInput"

  const InvalidBodyMessage: string := "Invalid request body"
  const ValidationFailedMessage: string := "Validation failed"
  const QueryFailedMessage: string := "Failed to query database"
  const SatisfactionExistsMessage: string := "Job satisfaction already exists"
  const ImportanceExistsMessage: string := "Job satisfaction importance already exists"
  const ImportanceCreateFailedMessage: string := "Failed to create job satisfaction importance"
  const InitAcceptedMessage: string := "Job satisfaction initialization request has been accepted"

  /** A request as a handler sees it: the authenticated user and the parsed body (None when parsing fails). */
  datatype Request = Request(userId: string, body: Option<Dims>)

  /** BodyParser then validate.Struct, shared by both handlers. */
  function CheckBody(body: Option<Dims>, structName: string): (r: Result<Dims, AppError>)
    ensures r.Success? <==> body.Some? && Acceptable(body.value)
    ensures r.Success? ==> r.value == body.value
    ensures body.None? ==> r == Failure(NewBadRequestError(InvalidInput, InvalidBodyMessage))
    ensures body.Some? && !Acceptable(body.value) ==>
      r == Failure(NewValidationError(InvalidInput, ValidationFailedMessage, Details(structName, Validate(body.value))))
  {
    match body
    case None => Failure(NewBadRequestError(InvalidInput, InvalidBodyMessage))
    case Some(d) =>
      var errs := Validate(d);
      if |errs| > 0 then Failure(NewValidationError(InvalidInput, ValidationFailedMessage, Details(structName, errs)))
      else Success(d)
  }

  /** The existence check: a row found means "already exists", a query error other than "no row" is internal. */
  function ExistenceGate(found: bool, lookupError: Option<string>, existsMessage: string): (r: Option<AppError>)
    ensures r.None? <==> lookupError.None? && !found
  {
    if lookupError.Some? then Some(NewInternalError(DatabaseError, QueryFailedMessage, lookupError))
    else if found then Some(NewBadRequestError(ResourceExists, existsMessage))
    else None
  }

  // ---------------------------------------------------------------- initialisation

  /** The handler's response and the event it hands to the detached engine run. */
  datatype InitOutcome = InitOutcome(response: Response<()>, published: Option<UpdateEvent>)

  /** The INIT_EVENT built from an accepted body. */
  function InitEventFor(user: string, d: Dims, now: int): UpdateEvent {
    UpdateEvent("", user, InitEvent, d, None, now, Clock.ZeroTime)
  }

  /** HandleInitializeJobSatisfaction. */
  function InitializeJobSatisfaction(s: Store, req: Request, lookupError: Option<string>, now: int): (o: InitOutcome)
    ensures o.published.Some? <==> o.response.Accepted?
    ensures o.response.Accepted? <==>
      && req.body.Some? && Acceptable(req.body.value)
      && lookupError.None? && SnapshotRow(s.snapshots, req.userId).None?
    ensures o.response.Accepted? ==> o.response.message == InitAcceptedMessage
    ensures o.published.Some? ==>
      var e := o.published.value;
      && e.eventType == InitEvent && e.userId == req.userId && e.deltas == req.body.value
      && e.sourceId.None? && e.createdAt == now
  {
    match CheckBody(req.body, InitStruct)
    case Failure(err) => InitOutcome(Rejected(err), None)
    case Success(d) =>
      match ExistenceGate(SnapshotRow(s.snapshots, req.userId).Some?, lookupError, SatisfactionExistsMessage)
      case Some(err) => InitOutcome(Rejected(err), None)
      case None => InitOutcome(Accepted(InitAcceptedMessage), Some(InitEventFor(req.userId, d, now)))
  }

  /** The error each rejected initialisation carries, with its status. */
  lemma InitRejections(s: Store, req: Request, lookupError: Option<string>, now: int)
    ensures var r := InitializeJobSatisfaction(s, req, lookupError, now).response;
      && (req.body.None? ==> r == Rejected(NewBadRequestError(InvalidInput, InvalidBodyMessage)) && Status(r) == 400)
      && (req.body.Some? && !Acceptable(req.body.value) ==>
            r.Rejected? && r.error.errorType == ValidationType && Status(r) == 400
            && r.error.details == Some(Details(InitStruct, Validate(req.body.value))))
      && (req.body.Some? && Acceptable(req.body.value) && lookupError.Some? ==>
            r.Rejected? && r.error.code == DatabaseError && Unwrap(r.error) == lookupError && Status(r) == 500)
      && (req.body.Some? && Acceptable(req.body.value) && lookupError.None? && SnapshotRow(s.snapshots, req.userId).Some? ==>
            r == Rejected(NewBadRequestError(ResourceExists, SatisfactionExistsMessage)) && Status(r) == 400)
  {
  }

  /**
   * An accepted initialisation, once the engine run commits on a valid store,
   * leaves exactly one new snapshot for the user holding the submitted values.
   */
  lemma InitializeThenPublish(s: Store, req: Request, lookupError: Option<string>, now: int, env: TxEnv)
    requires StoreValid(s) && Faultless(env)
    requires InitializeJobSatisfaction(s, req, lookupError, now).response.Accepted?
    ensures var e := InitializeJobSatisfaction(s, req, lookupError, now).published.value;
      var p := Publish(s, e, env);
      && p.log.None?
      && |p.store.snapshots| == |s.snapshots| + 1
      && p.store.snapshots[..|s.snapshots|] == s.snapshots
      && p.store.snapshots[|s.snapshots|].userId == req.userId
      && p.store.snapshots[|s.snapshots|].values == req.body.value
  {
    var e := InitializeJobSatisfaction(s, req, lookupError, now).published.value;
    AcceptableWithin(req.body.value);
    DefinedEventsFit(InsertedEvent(e, env));
    SucceedsExactlyWithoutFault(s, e, env);
    InitCreatesFromZero(s, e, env);
    ApplyDeltasFromZero(e.deltas);
  }

  /** Once a user has a snapshot, every further initialisation request is turned away. */
  lemma SecondInitRejected(s: Store, req: Request, now: int, env: TxEnv, req2: Request, now2: int)
    requires StoreValid(s) && Faultless(env)
    requires InitializeJobSatisfaction(s, req, None, now).response.Accepted?
    requires req2.userId == req.userId && req2.body.Some? && Acceptable(req2.body.value)
    ensures var t := Publish(s, InitializeJobSatisfaction(s, req, None, now).published.value, env).store;
      InitializeJobSatisfaction(t, req2, None, now2).response == Rejected(NewBadRequestError(ResourceExists, SatisfactionExistsMessage))
  {
    InitializeThenPublish(s, req, None, now, env);
    var t := Publish(s, InitializeJobSatisfaction(s, req, None, now).published.value, env).store;
    assert SnapshotOf(req.userId, t.snapshots[|s.snapshots|]);
  }

  // ---------------------------------------------------------------- importance

  /** The handler's two `time.Now()` reads, one for CreatedAt and one for UpdatedAt. */
  datatype ImportanceClock = ImportanceClock(createdAt: int, updatedAt: int)

  /** The handler's response and the store it leaves. */
  datatype ImportanceOutcome = ImportanceOutcome(response: Response<Importance>, store: Store)

  /** HandleCreateJobSatisfactionImportance; `createError` is a fault of the INSERT itself. */
  function CreateJobSatisfactionImportance(
    s: Store, req: Request, lookupError: Option<string>, createError: Option<string>,
    clock: ImportanceClock, stamp: Ids.IdStamp): (o: ImportanceOutcome)
    ensures o.store.snapshots == s.snapshots && o.store.events == s.events
    ensures o.response.Created? <==>
      && req.body.Some? && Acceptable(req.body.value)
      && lookupError.None? && Tables.FindFirst(s.importances, (r: Importance) => ImportanceOf(req.userId, r)).None?
      && createError.None?
    ensures o.response.Created? ==>
      var row := o.response.data;
      && o.store.importances == s.importances + [row]
      && row.userId == req.userId && row.weights == req.body.value
      && row.createdAt == clock.createdAt && row.updatedAt == clock.updatedAt
      && Ids.StartsWith(row.id, ImportancePrefix + "_")
    ensures !o.response.Created? ==> o.store == s
    ensures o.response.Created? || o.response.Rejected?
  {
    match CheckBody(req.body, ImportanceStruct)
    case Failure(err) => ImportanceOutcome(Rejected(err), s)
    case Success(d) =>
      var found := Tables.FindFirst(s.importances, (r: Importance) => ImportanceOf(req.userId, r)).Some?;
      match ExistenceGate(found, lookupError, ImportanceExistsMessage)
      case Some(err) => ImportanceOutcome(Rejected(err), s)
      case None =>
        var row := CreateImportanceRow(Importance("", req.userId, d, clock.createdAt, clock.updatedAt), stamp);
        if createError.Some? then
          ImportanceOutcome(Rejected(NewInternalError(DatabaseError, ImportanceCreateFailedMessage, createError)), s)
        else
          AcceptableWithin(d);
          ImportanceOutcome(Created(row), s.(importances := s.importances + [row]))
  }

  /** Importance creation keeps every table within its CHECK constraints. */
  lemma CreateImportanceKeepsValidity(
    s: Store, req: Request, lookupError: Option<string>, createError: Option<string>, clock: ImportanceClock, stamp: Ids.IdStamp)
    requires StoreValid(s)
    ensures StoreValid(CreateJobSatisfactionImportance(s, req, lookupError, createError, clock, stamp).store)
  {
    var o := CreateJobSatisfactionImportance(s, req, lookupError, createError, clock, stamp);
    if o.response.Created? {
      AcceptableWithin(req.body.value);
      assert forall i :: 0 <= i < |o.store.importances| ==>
        i < |s.importances| || o.store.importances[i] == o.response.data;
    }
  }

  /** A second importance request from the same user, after one was created, is turned away. */
  lemma SecondImportanceRejected(
    s: Store, req: Request, clock: ImportanceClock, stamp: Ids.IdStamp, req2: Request, clock2: ImportanceClock, stamp2: Ids.IdStamp)
    requires CreateJobSatisfactionImportance(s, req, None, None, clock, stamp).response.Created?
    requires req2.userId == req.userId && req2.body.Some? && Acceptable(req2.body.value)
    ensures var t := CreateJobSatisfactionImportance(s, req, None, None, clock, stamp).store;
      CreateJobSatisfactionImportance(t, req2, None, None, clock2, stamp2).response
        == Rejected(NewBadRequestError(ResourceExists, ImportanceExistsMessage))
  {
    var t := CreateJobSatisfactionImportance(s, req, None, None, clock, stamp).store;
    assert ImportanceOf(req.userId, t.importances[|s.importances|]);
  }

  /**
   * Importances declared first are what a later initialisation copies into
   * the new snapshot: the created row is the user's only importance row.
   */
  lemma ImportanceFeedsInit(
    s: Store, req: Request, clock: ImportanceClock, stamp: Ids.IdStamp, e: UpdateEvent, env: TxEnv)
    requires CreateJobSatisfactionImportance(s, req, None, None, clock, stamp).response.Created?
    requires e.userId == req.userId && env.importanceLookupError.None?
    ensures var t := CreateJobSatisfactionImportance(s, req, None, None, clock, stamp).store;
      ImportanceRow(t, e.userId, env) == Some(CreateJobSatisfactionImportance(s, req, None, None, clock, stamp).response.data)
  {
    var o := CreateJobSatisfactionImportance(s, req, None, None, clock, stamp);
    var t := o.store;
    var k := Tables.FindFirst(t.importances, (r: Importance) => ImportanceOf(e.userId, r));
    assert ImportanceOf(e.userId, t.importances[|s.importances|]);
    assert k.Some?;
    assert k.value == |s.importances|;
  }
}
