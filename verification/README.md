# Job-satisfaction pipeline of carrer-log-be, in Dafny

This project models the core of carrer-log-be. That backend tracks a user's job satisfaction on six dimensions:

- workload;
- compensation;
- growth;
- work environment;
- work relationships;
- work values.

Each dimension has a satisfaction value in [0, 100] and an importance weight in [0, 100]. Values change only through *update events*:

- an `INIT_EVENT` is published when the user first submits their six values;
- a `CHAT_ANALYSIS_EVENT` is produced by a daily batch. The batch asks a language model to score the day's counselling chat.

An *update engine* applies an event in one transaction. It clamps `old + delta` into [0, 100], copies the declared importances forward, and stores the event. A *score* condenses a snapshot into one number: an importance-weighted average passed through a logistic curve.

The model covers:

- **the update engine**, float (`UpdateEngine`) and legacy integer (`LegacyEngine`);
- **the score** (`Score`);
- **the event producers**: the init and importance handlers (`JobSatisfactionHandlers`, `Validation`) and the daily chat analysis (`ChatAnalysis`);
- **the chat life cycle**:
  - `ChatModel`: `ChatData`, `AddMessage`, the JSON column hooks;
  - `CreateChatHandler`: one chat per user per day;
  - `ChatHandler`: request gates, the same-day window, prompt assembly, stream accumulation and the final save;
- **the Authorization header middleware** (`Auth`);
- **the application errors and their HTTP statuses** (`AppErrors`, `Responses`);
- **the two string enums** (`EventTypes`, `Roles`);
- **the `PREFIX_millis_hex6` ID generator** (`Ids`).

How the outside world enters the model:

- Tables are sequences of rows in insertion order. gorm's `First` adds `ORDER BY` on the primary key. Every ID begins with its prefix and the creation time in milliseconds, so key order is insertion order except between rows created in the same millisecond; the model takes the first matching row in insertion order (`Tables.FindFirst`). `Find` without `Order` has no defined order in SQL; the model keeps the matching rows in insertion order (`Tables.FilterRows`).
- Database faults and every clock or UUID read are parameters of each operation, one parameter per read. This includes the reads gorm makes itself, with the `NowFunc` of config/database/postgres.go:56-58:
  - `Create` stamps a CreatedAt or UpdatedAt the code left at Go's zero time with one read per statement (`Clock.FillUnset`).
  - `Save` always replaces UpdatedAt with its own read, so the engines' own `time.Now()` before a `Save` never reaches the table.
  - A `time.Now()` is never Go's zero time, so gorm fills only fields the code leaves unset.
  - Sites with separate reads: `ChatModel.NewMessage` (ID and timestamp), the two `time.Now()` calls of the importance handler, `CreateChatEnv` (the daily check and the insert), `TxEnv` and `LegacyTxEnv` (the engine's read, the snapshot write and the event insert), `BatchEnv` (the window, then per record the event's CreatedAt and the insert) and `ChatEnv` (the day check, the two message reads and the `Save`).
- The language model, the JSON codec, the SSE stream and the JWT validator are function parameters.
- `math.Exp` is a parameter `exp` constrained to be positive, strictly increasing and 1 at 0.
- Time is integer nanoseconds. Korea Standard Time is the fixed offset +9 h (Korea has no daylight saving).
- Declared CHECK constraints make a write fail, as a database enforcing them would.

Messages that are Korean in the code are given in English translation. The two long LLM prompts are given in abridged English translation.

Where the code departs from what its own structure evidently intends, the model follows the code:

- **The daily analysis batch.** `PublishJobSatisfactionUpdateEvent` exists to apply events to the snapshot (job_satisfaction_update_event.go:103-117), and the read path reads only the snapshot (get_current_job_satisfaction.go:38). The batch nevertheless inserts each event row directly (chat_analyze_scheduler.go:182), so snapshots never move (see Findings).
- **Missing members in the model's JSON answer.** `json.Unmarshal` leaves an absent member's field at 0 and succeeds, so an answer without the six members reads as six zero deltas rather than as an error. `ChatAnalysis.DecodeAnalysis` does the same.
- **Float answers into float fields.** The analysis struct's fields are `float64` and are assigned through `int(...)` into the event's `float64` fields. As written this does not type-check in Go. The model takes the evident intent: truncation toward zero (`ChatAnalysis.TruncToward0`).
- **The chat-day window.** In chat.go it is closed at both ends: `Before`/`After` let a chat created exactly at the next midnight through (`ChatHandler.DayWindowEnds`).
- **The opening chat's metadata.** `HandleCreateChat` builds the opening message by hand, so that chat's message count is 0 while it holds one message (`CreateChatHandler.OpeningChatCountLags`).

## Model

| member | source | states |
|---|---|---|
| UpdateEngine.ConstrainRange | services/job_satisfaction/core/event/job_satisfaction_update_event.go:14-22 | the result lies in [0, 100] and equals the input whenever the input already does |
| UpdateEngine.ConstrainRangeLaws | services/job_satisfaction/core/event/job_satisfaction_update_event.go:14-22 | clamping is idempotent and monotone, and gives 0 exactly for inputs <= 0 and 100 exactly for inputs >= 100 |
| UpdateEngine.ApplyDeltas | services/job_satisfaction/core/event/job_satisfaction_update_event.go:60-65 | whatever the old values and the deltas, all six new values lie in [0, 100] |
| UpdateEngine.ApplyDeltasFromZero | services/job_satisfaction/core/event/job_satisfaction_update_event.go:42-46 | starting from the zero snapshot, in-range deltas become the values unchanged, so an init event's values are the submitted ones |
| UpdateEngine.ImportanceRow | services/job_satisfaction/core/event/job_satisfaction_update_event.go:67-76 | a found importance row is a row of the table that belongs to the event's user |
| UpdateEngine.Apply | services/job_satisfaction/core/event/job_satisfaction_update_event.go:25-100 | all or nothing: either the store is unchanged, or exactly the inserted event is appended and the importance table is untouched |
| UpdateEngine.InitCreatesFromZero | services/job_satisfaction/core/event/job_satisfaction_update_event.go:42-46 | a committed init event appends one new snapshot row for the user, with clamp(0 + delta) values, the declared (or zero) importances and a fresh USR_JOB_SAT ID, and keeps every earlier row; UpdatedAt is the engine's read at :78 and CreatedAt is gorm's later read at the `Create` of :83 |
| UpdateEngine.InitIgnoresSnapshots | services/job_satisfaction/core/event/job_satisfaction_update_event.go:42-46 | an init event never reads the snapshot table: two stores with the same importances give the same outcome and the same new row |
| UpdateEngine.MissingSnapshotFails | services/job_satisfaction/core/event/job_satisfaction_update_event.go:47-56 | a non-init event for a user with no snapshot fails with 404 RESOURCE_NOT_FOUND and leaves the store unchanged |
| UpdateEngine.DeltaUpdatesInPlace | services/job_satisfaction/core/event/job_satisfaction_update_event.go:47-85 | a committed non-init event rewrites only the user's first snapshot row, in place: values become clamp(old + delta), ID, owner and CreatedAt stay, and UpdatedAt is gorm's read at the `Save` of :85, which replaces the engine's read at :78 |
| UpdateEngine.ImportancesCopiedForward | services/job_satisfaction/core/event/job_satisfaction_update_event.go:67-76 | importances are replaced by a declared row's weights when one exists and kept otherwise; a failed importance query is ignored |
| UpdateEngine.CommitAppendsOneEvent | services/job_satisfaction/core/event/job_satisfaction_update_event.go:93-99 | a commit appends exactly one event row with a JOB_SAT_UPDATE_EVENT ID, and adds a snapshot row only for init events |
| UpdateEngine.FailureKinds | services/job_satisfaction/core/event/job_satisfaction_update_event.go:26-99 | every failure is a 404 for a missing snapshot, a DATABASE_ERROR from a failed step, or the raw COMMIT error; a snapshot-write failure is reported before any event insert |
| UpdateEngine.ApplyPreservesValidity | services/job_satisfaction/core/event/job_satisfaction_update_event.go:25-100 | from a store whose rows satisfy their CHECK constraints, every outcome leaves a store that still does |
| UpdateEngine.SucceedsExactlyWithoutFault | services/job_satisfaction/core/event/job_satisfaction_update_event.go:25-100 | on a valid store the run commits if and only if no step faults, the user has a snapshot (or the event is init) and the event row passes its checks |
| UpdateEngine.UpdatedKeepsChecks | models/job_satisfaction/user_job_satisfaction.go:19-32 | the rewritten snapshot always satisfies the snapshot table's [0, 100] CHECK constraints |
| UpdateEngine.DuplicateInitAddsSecondRow | services/job_satisfaction/core/event/job_satisfaction_update_event.go:42-46 | a second init event for a user who already has a snapshot adds a second row for that user rather than failing |
| UpdateEngine.Publish | services/job_satisfaction/core/event/job_satisfaction_update_event.go:103-117 | publishing leaves the engine's outcome and logs exactly when the run fails, in which case the store is unchanged |
| LegacyEngine.ConstrainRange | services/core/satisfaction/event.go:12-20 | the integer clamp lies in [0, 100] and is the identity inside it |
| LegacyEngine.Wrap64 | services/core/satisfaction/event.go:52-57 | Go's 64-bit wrap-around lands in the int64 range and changes nothing already inside it |
| LegacyEngine.StepAsWrittenWraps | services/core/satisfaction/event.go:52-57 | a value of 100 with delta 2^63-1 wraps to 0 as written, where the intended clamp gives 100, so a larger delta gives a smaller value |
| LegacyEngine.StepMonotoneInDelta | services/core/satisfaction/event.go:52-57 | the intended step never decreases when the delta grows |
| LegacyEngine.StepAgreesWithoutOverflow | services/core/satisfaction/event.go:52-57 | whenever the sum fits in 64 bits, the as-written and intended steps agree |
| LegacyEngine.ApplyDeltas | services/core/satisfaction/event.go:52-57 | all six updated integer values lie in [0, 100] |
| LegacyEngine.Apply | services/core/satisfaction/event.go:23-74 | all or nothing: the store is unchanged or exactly one event row was added |
| LegacyEngine.MissingSnapshotNotInitialized | services/core/satisfaction/event.go:37-46 | with no snapshot for the user the run fails with the not-initialized message and changes nothing; this engine has no init path |
| LegacyEngine.LookupErrorReturned | services/core/satisfaction/event.go:41-49 | any other lookup error is returned unchanged |
| LegacyEngine.CommitUpdatesValuesOnly | services/core/satisfaction/event.go:51-73 | a commit rewrites only the user's first snapshot's six values and UpdatedAt (importances untouched), UpdatedAt being gorm's read at the `Save` of :67 rather than the read at :58, and appends the event with a fresh ID |
| LegacyEngine.InsertedEvent | services/core/satisfaction/event.go:60-64 | the inserted event differs from the given one only in its ID and, when the caller left it unset, its CreatedAt, which gorm stamps with its read at the insert |
| LegacyEngine.EventInsertedBeforeSnapshot | services/core/satisfaction/event.go:60-70 | when both writes would fail, the event-insert error is the one returned |
| LegacyEngine.SucceedsExactlyWithoutFault | services/core/satisfaction/event.go:23-74 | the run commits if and only if no step faults and the user has a snapshot, and snapshots stay within their CHECK constraints |
| LegacyRecords.CreateLegacySnapshotRow | models/user_job_satisfaction.go:38-41 | the create hook replaces only the ID, which starts with USR_JOB_SAT_ |
| LegacyRecords.CreateLegacyEventRow | models/job_satisfaction_update_event.go:28-31 | the create hook replaces only the ID, which starts with JOB_SAT_UPDATE_EVENT_ |
| Records.WithinFields | models/job_satisfaction/user_job_satisfaction.go:19-32 | a six-field record is within bounds exactly when each of its six fields is |
| Records.DefinedEventsFit | models/job_satisfaction/job_satisfaction_update_event.go:17-30 | an event of a defined kind with deltas in [-100, 100] passes the event table's constraints |
| Records.CreateSnapshotRow | models/job_satisfaction/user_job_satisfaction.go:38-41 | the create hook changes only the ID, which starts with USR_JOB_SAT_ |
| Records.CreateImportanceRow | models/job_satisfaction/user_job_satisfaction_importance.go:27-30 | the create hook changes only the ID, which starts with USR_JOB_SAT_IMP_ |
| Records.CreateEventRow | models/job_satisfaction/job_satisfaction_update_event.go:32-35 | the create hook changes only the ID, which starts with JOB_SAT_UPDATE_EVENT_ |
| Records.InsertEventRow | models/job_satisfaction/job_satisfaction_update_event.go:28-35 | inserting an event changes only its ID and its unset time fields: a CreatedAt the caller set is kept, and an unset UpdatedAt becomes gorm's read at the insert |
| Records.CreatedIds | models/job_satisfaction/user_job_satisfaction_importance.go:10-12 | a caller-supplied ID never survives insertion, and importance IDs never collide with snapshot IDs despite the shared prefix |
| Score.Logistic | services/job_satisfaction/core/utils/score.go:70-73 | the logistic curve stays strictly between 0 and L = 100 |
| Score.LogisticMidpoint | services/job_satisfaction/core/utils/score.go:10-17 | at the midpoint x0 = 50 the curve is exactly L/2 |
| Score.LogisticStrictlyIncreasing | services/job_satisfaction/core/utils/score.go:70-73 | the curve is strictly increasing |
| Score.NormalisedSums | services/job_satisfaction/core/utils/score.go:22-54 | the code's per-term division by 100 only rescales: both running sums are the raw sums over 10000 and 100 |
| Score.RawWeightedUpdate | services/job_satisfaction/core/utils/score.go:22-54 | changing one satisfaction value changes the weighted sum by that weight times the change |
| Score.RawWeightedLower | services/job_satisfaction/core/utils/score.go:22-54 | a lower bound on every weighted value bounds the weighted sum from below by bound times total weight |
| Score.RawWeightedUpper | services/job_satisfaction/core/utils/score.go:22-54 | an upper bound on every weighted value bounds the weighted sum from above by bound times total weight |
| Score.RawImportanceNonNegative | services/job_satisfaction/core/utils/score.go:22-54 | non-negative weights give a non-negative importance sum |
| Score.RawSumsScale | services/job_satisfaction/core/utils/score.go:22-54 | scaling every weight by c scales both sums by c |
| Score.CalculateWeightedScore | services/job_satisfaction/core/utils/score.go:21-66 | the score is 0 when the importances sum to 0 and strictly between 0 and 100 otherwise |
| Score.NoImportanceScoresZero | services/job_satisfaction/core/utils/score.go:56-59 | a snapshot with no declared importances scores 0, whatever its values |
| Score.AverageIsRatioOfRawSums | services/job_satisfaction/core/utils/score.go:56-62 | the weighted average is the raw weighted sum divided by the raw weight sum |
| Score.ZeroWeightIgnored | services/job_satisfaction/core/utils/score.go:26-54 | a dimension with importance 0 has no influence: changing its value leaves the score unchanged |
| Score.AverageWithinBounds | services/job_satisfaction/core/utils/score.go:56-62 | the weighted average lies between any bounds that hold for every weighted value |
| Score.AverageInRange | services/job_satisfaction/core/utils/score.go:56-62 | for a snapshot within its CHECK constraints the average lies in [0, 100] |
| Score.AverageScaleInvariant | services/job_satisfaction/core/utils/score.go:56-62 | multiplying all importances by a positive constant leaves the average unchanged |
| Score.AverageStrictlyIncreasing | services/job_satisfaction/core/utils/score.go:56-62 | raising a dimension with positive importance strictly raises the average |
| Score.ScoreStrictlyIncreasing | services/job_satisfaction/core/utils/score.go:21-73 | raising a dimension with positive importance strictly raises the score |
| Score.OnlyWorkloadWeighted | services/job_satisfaction/core/utils/score.go:21-73 | with all weight on workload at 80, the average is 80 and the score is the logistic of 80 |
| Validation.FailedTag | services/job_satisfaction/initialize_job_satisfaction.go:16-23 | a value fails exactly outside (0, 100]: on `required` when it is 0, `min` below 0, `max` above 100 |
| Validation.AcceptableFields | services/job_satisfaction/initialize_job_satisfaction.go:16-23 | a body is acceptable exactly when each of its six fields lies in (0, 100] |
| Validation.AcceptableWithin | services/job_satisfaction/create_job_satisfaction_importance.go:14-21 | an accepted body satisfies both the snapshot/importance and the event table constraints |
| Validation.CheckFields | services/job_satisfaction/initialize_job_satisfaction.go:38-46 | no more errors than fields, and no errors exactly when no field fails |
| Validation.FailuresReported | services/job_satisfaction/initialize_job_satisfaction.go:38-46 | every failing field is reported with its failing tag |
| Validation.ReportsAreFailures | services/job_satisfaction/initialize_job_satisfaction.go:38-46 | every reported error names a field that fails, with the tag it fails on |
| Validation.Validate | services/job_satisfaction/initialize_job_satisfaction.go:38-46 | validation passes exactly for acceptable bodies |
| Validation.Details | services/job_satisfaction/initialize_job_satisfaction.go:41-45 | one detail line per error, in order, each naming the struct and field |
| Validation.AllFailOnTag | services/job_satisfaction/initialize_job_satisfaction.go:38-46 | when every field fails on one tag, every field is reported in order with that tag |
| Validation.EmptyBodyFailsEverywhere | services/job_satisfaction/initialize_job_satisfaction.go:16-23 | an all-zero body fails all six fields on `required` |
| JobSatisfactionHandlers.CheckBody | services/job_satisfaction/initialize_job_satisfaction.go:31-46 | an unparsable body is a 400 INVALID_INPUT, an unacceptable one a validation error carrying the details, and only an acceptable body passes |
| JobSatisfactionHandlers.ExistenceGate | services/job_satisfaction/initialize_job_satisfaction.go:48-62 | the handler proceeds exactly when the lookup succeeded and found nothing |
| JobSatisfactionHandlers.InitializeJobSatisfaction | services/job_satisfaction/initialize_job_satisfaction.go:25-82 | 202 with an event published exactly when the body is acceptable, the lookup succeeds and the user has no snapshot; the event is an INIT_EVENT of the submitted values for the caller |
| JobSatisfactionHandlers.InitRejections | services/job_satisfaction/initialize_job_satisfaction.go:31-62 | each rejection in order: 400 for a bad body, 400 validation with details, 500 DATABASE_ERROR wrapping the lookup error, 400 RESOURCE_EXISTS |
| JobSatisfactionHandlers.InitializeThenPublish | services/job_satisfaction/initialize_job_satisfaction.go:64-80 | with no database fault the published event creates exactly one new snapshot holding the submitted values |
| JobSatisfactionHandlers.SecondInitRejected | services/job_satisfaction/initialize_job_satisfaction.go:48-55 | once an init has been applied, a second request from the same user is rejected with RESOURCE_EXISTS |
| JobSatisfactionHandlers.CreateJobSatisfactionImportance | services/job_satisfaction/create_job_satisfaction_importance.go:23-85 | 201 exactly when the body is acceptable, the lookup succeeds and finds nothing, and the insert succeeds; only then is exactly the returned row appended, with CreatedAt and UpdatedAt from the two separate `time.Now()` reads of :71-72 |
| JobSatisfactionHandlers.CreateImportanceKeepsValidity | services/job_satisfaction/create_job_satisfaction_importance.go:63-81 | the handler keeps every table within its CHECK constraints |
| JobSatisfactionHandlers.SecondImportanceRejected | services/job_satisfaction/create_job_satisfaction_importance.go:47-60 | a second importance declaration by the same user is rejected with RESOURCE_EXISTS |
| JobSatisfactionHandlers.ImportanceFeedsInit | services/job_satisfaction/core/event/job_satisfaction_update_event.go:67-76 | after a declaration, the engine's importance lookup for that user finds exactly the declared row |
| AppErrors.Error | errors/error.go:18-23 | the text begins with "code: message" |
| AppErrors.ErrorWithCause | errors/error.go:18-23 | a wrapped cause adds exactly " (cause)" to the text without it |
| AppErrors.StatusCode | errors/error.go:31-36 | a mapped type gets its mapped status and any other type gets 500 |
| AppErrors.StatusCodeCases | errors/types.go:46-53 | the status is one of 400/401/404/409/500, with 400 for exactly Validation and BadRequest |
| AppErrors.ErrorTypesDistinct | errors/types.go:12-17 | the six types are distinct and the map covers exactly them |
| AppErrors.ErrorCodesDistinct | errors/types.go:25-42 | the error codes are pairwise distinct |
| AppErrors.ConstructorShapes | errors/error.go:39-93 | each constructor's type fixes its status; only the internal error wraps a cause and carries debug text |
| Responses.Status | utils/response/response.go:6-32 | a response is a rejection exactly when its status is outside 2xx, and then the status is the one `AppError.StatusCode` assigns |
| EventTypes.ValidKinds | models/job_satisfaction/enums/event_type.go:7-30 | IsValid holds for exactly the two defined kinds, which are distinct |
| EventTypes.Value | models/job_satisfaction/enums/event_type.go:13-15 | the database value of an event type is always a string |
| EventTypes.Scan | models/job_satisfaction/enums/event_type.go:18-21 | Scan succeeds exactly on string values |
| EventTypes.ScanValueRoundTrip | models/job_satisfaction/enums/event_type.go:13-35 | Scan after Value gives back the event type, and Scan keeps any string as is |
| EventTypes.ScanAcceptsInvalid | models/job_satisfaction/enums/event_type.go:18-30 | Scan accepts a string that is not a defined kind |
| EventTypes.DefinedKindsFitColumn | models/job_satisfaction/enums/event_type.go:7-10 | both defined kinds fit the event table's varchar(20) column |
| Roles.ValidRoles | models/note/chat/enums/role.go:6-25 | IsValid holds for exactly "user" and "assistant", which are distinct, and String gives those literals |
| Ids.RandomSeed | utils/id_generator.go:17-18 | the random part is 6 lower-case hex characters, the first 6 of the UUID |
| Ids.CanonicalUuidStripped | utils/id_generator.go:17 | a canonical UUID with its hyphens removed is its five hex groups joined, 32 characters |
| Ids.StripHyphensConcat | utils/id_generator.go:17 | removing hyphens distributes over concatenation |
| Ids.TruncDiv | utils/id_generator.go:14 | the quotient truncates toward zero: for a >= 0 it is the largest multiple count not above a, for a < 0 the smallest not below a, so q·b lies between 0 and a within one b |
| Ids.TruncDivOdd | utils/id_generator.go:14 | truncating division is symmetric about zero: -a gives minus the quotient of a |
| Ids.TruncDivAboveFloor | utils/id_generator.go:14 | on a negative non-multiple, Go's quotient is one above Dafny's Euclidean quotient, so the two divisions really differ |
| Ids.UnixMillisMonotone | utils/id_generator.go:14 | a later instant never gives an earlier millisecond stamp |
| Ids.GenerateID | utils/id_generator.go:11-22 | the ID starts with prefix + "_" and ends with "_" and the 6-character random part |
| Ids.ParseGeneratedID | utils/id_generator.go:11-22 | the millisecond timestamp and random part can be read back from a generated ID |
| Ids.IntToDecimalRoundTrip | utils/id_generator.go:21 | the decimal rendering of the timestamp reads back to the same integer |
| Ids.ParseNatToDecimal | utils/id_generator.go:21 | the decimal rendering of a natural number reads back to the same number |
| Ids.PrefixesKeepIDsApart | utils/id_generator.go:21 | a prefix and that prefix extended by "_X..." can never produce the same ID |
| Tables.FindFirst | services/job_satisfaction/core/event/job_satisfaction_update_event.go:49 | the first matching row is found, and nothing is found exactly when no row matches |
| Tables.FilterRows | services/note/chat/scheduler/chat_analyze_scheduler.go:168-172 | exactly the matching rows are kept |
| Clock.LocalDayStart | services/note/chat/chat.go:66-69 | the local day start is a local midnight within the 24 hours before the instant |
| Clock.DayStartUnique | services/note/chat/create_chat.go:35-37 | a local midnight is the day start of an instant exactly when the instant lies in the following 24 hours |
| ChatModel.NewChatData | models/note/chat/chat_data.go:34-43 | a new chat has no messages and a count of 0 |
| ChatModel.NewMessage | models/note/chat/chat_data.go:46-53 | a new message has the given role and content, the second clock read as its timestamp, and an MSG_ ID |
| ChatModel.MessageIdNotAfterTimestamp | models/note/chat/chat_data.go:46-53 | when the clock does not run backwards, the millisecond in a message's ID is at most its timestamp's millisecond |
| ChatModel.MessageIdMayTrailTimestamp | models/note/chat/chat_data.go:46-53 | the ID's millisecond can be one below the timestamp's, because the ID and the timestamp come from two clock reads |
| ChatModel.AddMessage | models/note/chat/chat_data.go:56-61 | exactly one message is appended with earlier ones unchanged, the count grows by one and LastMessageAt is the new message's time |
| ChatModel.AddMessageKeepsLag | models/note/chat/chat_data.go:56-61 | AddMessage preserves the difference between message count and number of messages |
| ChatModel.NewChatDataCountsExactly | models/note/chat/chat_data.go:34-61 | chats built with NewChatData and AddMessage count their messages exactly |
| ChatModel.Scan | models/note/chat/chat_data.go:64-75 | NULL leaves the data unchanged with no error, bytes are decoded, any other value fails with "expected []byte, got <type>" |
| ChatModel.Value | models/note/chat/chat_data.go:78-80 | the column value is the encoded bytes, and fails exactly when encoding fails |
| ChatModel.ValueScanRoundTrip | models/note/chat/chat_data.go:64-80 | with a codec that round-trips, Scan after Value gives the chat data back |
| ChatModel.TextColumnRejected | models/note/chat/chat_data.go:70-72 | a text value is rejected with "expected []byte, got string" and leaves the data unchanged |
| ChatModel.CreateChatSetRow | models/note/chat/chat_set.go:24-27 | the create hook changes only the ID, which starts with CH_SET_ |
| ChatModel.CreatePreChatRow | models/note/chat/pre_chat.go:21-24 | the create hook changes only the ID, which starts with PRE_CHAT_ |
| CreateChatHandler.CreateChat | services/note/chat/create_chat.go:22-96 | 201 exactly when the body parses, the user opened no chat today, the pre-chat exists and the insert succeeds; only then is one chat appended, owned by the caller and opening with the pre-chat's content as an assistant message, and dated with both timestamps by gorm's read at the `Create` of :83, not by the daily check's read at :35 |
| CreateChatHandler.CreateChatRejections | services/note/chat/create_chat.go:26-89 | each rejection in order: bad body, failed limit check (500), "Daily chat limit exceeded" (400), failed pre-chat lookup (500), missing pre-chat (404), failed insert (500) |
| CreateChatHandler.CreateChatKeepsOnePerDay | services/note/chat/create_chat.go:34-51 | the handler preserves "at most one chat per user per local day" when the clock runs forward: no stored chat is dated after the check's read, and gorm's read at :83 is no earlier than it |
| CreateChatHandler.LaterChatBreaksOnePerDay | services/note/chat/create_chat.go:34-83 | without that, a chat dated just after midnight passes a check made just before it, and gorm's stamp puts the new chat on the same day |
| CreateChatHandler.OpeningChatCountLags | services/note/chat/create_chat.go:69-80 | the opening chat holds one message but counts 0, with a zero LastMessageAt |
| ChatHandler.ChatPromptIgnoresName | services/note/chat/chat.go:156-185 | the prompt is the same for every user name, because the placeholder is kept literally |
| ChatHandler.BuildPrompt | services/note/chat/chat.go:87-101 | the prompt list is the system prompt followed by every stored message, in order, with its role and content |
| ChatHandler.PromptEndsWithUserTurn | services/note/chat/chat.go:84-101 | after the user's message is added, the prompt list ends with it as a user turn |
| ChatHandler.Frame | services/note/chat/chat.go:136 | a chunk is sent as its own SSE data frame with the chunk verbatim inside |
| ChatHandler.PayloadAppend | services/note/chat/chat.go:133-136 | appending one frame appends its chunk to the frames' payload |
| ChatHandler.ConsumeKeepsPayload | services/note/chat/chat.go:110-153 | frames already sent are kept, and a finished stream's full response is exactly the concatenation of the sent chunks |
| ChatHandler.ModelErrorStopsLoop | services/note/chat/chat.go:144-151 | the first non-nil model error ends the stream with that error; nil errors and chunks before it do not |
| ChatHandler.RunStream | services/note/chat/chat.go:110-153 | the loop computes the stream's outcome, and a finished stream's response is the concatenation of its non-empty chunks |
| ChatHandler.HandleChat | services/note/chat/chat.go:26-154 | a successful turn ends with the [DONE] frame, and the chat table is either unchanged or rewritten in place |
| ChatHandler.HandleChatGates | services/note/chat/chat.go:33-57 | the first gates in order: an empty message is a 400 "Message is required", a missing profile a 400 INVALID_INPUT, a missing chat a 404 RESOURCE_NOT_FOUND; none of them writes |
| ChatHandler.HandleChatLateGates | services/note/chat/chat.go:58-76 | after those: a failed chat lookup is a 500 DATABASE_ERROR "Failed to retrieve chat", and a found chat not created on today's KST day is a 400 INVALID_INPUT "Chat is not available after midnight"; neither writes |
| ChatHandler.OtherUsersChatNotFound | services/note/chat/chat.go:49-57 | a chat that is not the caller's, or is deleted, is reported as not found and nothing is saved |
| ChatHandler.Converse | services/note/chat/chat.go:84-153 | once today's chat is found, a turn ending without error has sent [DONE] last, and the chat table is unchanged or changed only in that chat's row |
| ChatHandler.ConverseSavesExchange | services/note/chat/chat.go:84-131 | a turn ending without error saves that chat with its old messages followed by the user message and the concatenated reply, keeping the count's lag |
| ChatHandler.CompletedTurnSavesExchange | services/note/chat/chat.go:84-131 | a completed turn saves today's chat in place with exactly the user message and the assistant's full response appended |
| ChatHandler.StreamFailureSavesNothing | services/note/chat/chat.go:136-151 | a stream or model failure saves nothing |
| ChatHandler.DayWindowEnds | services/note/chat/chat.go:66-76 | the window includes the next midnight itself but not the instant before today's midnight |
| ChatAnalysis.TranscriptAppend | services/note/chat/scheduler/chat_analyze_scheduler.go:77-80 | each message adds exactly its "role: content" line to the transcript |
| ChatAnalysis.TranscriptConcat | services/note/chat/scheduler/chat_analyze_scheduler.go:77-80 | the transcript of concatenated conversations is the concatenation of their transcripts |
| ChatAnalysis.AnalysisRequest | services/note/chat/scheduler/chat_analyze_scheduler.go:83-92 | the request is a system instruction followed by the transcript as the user turn |
| ChatAnalysis.DecodeAnalysis | services/note/chat/scheduler/chat_analyze_scheduler.go:27-34 | for each of the six members, keyed by its JSON tag, a present member gives its value and an absent one gives 0 |
| ChatAnalysis.EmptyAnswerReadsZero | services/note/chat/scheduler/chat_analyze_scheduler.go:100-103 | an answer with none of the six members decodes, without error, to all zeros |
| ChatAnalysis.TruncToward0 | services/note/chat/scheduler/chat_analyze_scheduler.go:110-115 | the integer conversion drops the fraction toward zero on both sides of 0 |
| ChatAnalysis.TruncLaws | services/note/chat/scheduler/chat_analyze_scheduler.go:110-115 | truncation is odd and leaves integers unchanged |
| ChatAnalysis.TruncatedFields | services/note/chat/scheduler/chat_analyze_scheduler.go:110-115 | each of the six deltas is the truncated answer value of the same dimension |
| ChatAnalysis.RequestedScaleFits | services/note/chat/scheduler/chat_analyze_scheduler.go:37-72 | answers on the requested -10..10 scale give deltas on that scale, inside the event table's checks |
| ChatAnalysis.AnalyzeChat | services/note/chat/scheduler/chat_analyze_scheduler.go:75-121 | a failed completion or parse is reported with its wrapping prefix; otherwise the result is a CHAT_ANALYSIS_EVENT for the chat's owner referencing the chat, with the truncated deltas |
| ChatAnalysis.AnalysisWindow | services/note/chat/scheduler/chat_analyze_scheduler.go:160-165 | the window is 24 hours long and ends at 06:00 KST of the run's KST day |
| ChatAnalysis.ConsecutiveRunsTile | services/note/chat/scheduler/chat_analyze_scheduler.go:160-165 | runs a day apart analyse adjacent windows, so each instant belongs to exactly one day's run |
| ChatAnalysis.ScheduledRunWindow | services/note/chat/scheduler/chat_analyze_scheduler.go:144-165 | a run at 07:00 KST analyses the 24 hours that ended one hour earlier |
| ChatAnalysis.SelectChats | services/note/chat/scheduler/chat_analyze_scheduler.go:168-172 | exactly the live chats created in the half-open window are selected |
| ChatAnalysis.InsertAnalysis | services/note/chat/scheduler/chat_analyze_scheduler.go:174-187 | a record inserts a row exactly when it logs success; that row passes the table checks and references the chat, its CreatedAt is that record's own read at :117, and its UpdatedAt is gorm's read at the `Create` of :182 |
| ChatAnalysis.Run | services/note/chat/scheduler/chat_analyze_scheduler.go:174-188 | the first n records give exactly n log lines and at most n rows |
| ChatAnalysis.RunRowsValid | services/note/chat/scheduler/chat_analyze_scheduler.go:174-188 | every row the run inserts is a CHAT_ANALYSIS_EVENT that passes the event table's checks |
| ChatAnalysis.AnalyzeDailyChat | services/note/chat/scheduler/chat_analyze_scheduler.go:159-191 | a failed query logs and changes nothing; otherwise the selected records' rows are appended, followed by the completion line; snapshots and importances never change and validity is kept |
| ChatAnalysis.LineOfRecord | services/note/chat/scheduler/chat_analyze_scheduler.go:174-188 | the k-th log line is exactly the outcome of the k-th selected record, whatever records follow it |
| ChatAnalysis.OneLinePerRecord | services/note/chat/scheduler/chat_analyze_scheduler.go:174-188 | the k-th log line reports the k-th selected chat: analysed and saved, analysis failed, or save failed |
| ChatAnalysis.AppendedRowsValid | services/note/chat/scheduler/chat_analyze_scheduler.go:182 | appending rows that pass the event table's checks keeps the store valid |
| ChatAnalysis.InsertStep | services/note/chat/scheduler/chat_analyze_scheduler.go:182 | the direct insert never touches the snapshot table |
| ChatAnalysis.DirectInsertSkipsSnapshot | services/note/chat/scheduler/chat_analyze_scheduler.go:182 | an analysis event of +5 workload is recorded while the snapshot stays at 50, out of step with the engine |
| ChatAnalysis.PublishAnalysis | services/note/chat/scheduler/chat_analyze_scheduler.go:174-182 | a record whose analysis fails leaves the store as it was |
| ChatAnalysis.PublishedAnalysisInStep | services/job_satisfaction/core/event/job_satisfaction_update_event.go:47-99 | through the engine, a recorded analysis event has moved its user's snapshot by exactly its deltas |
| ChatAnalysis.PublishRecord | services/note/chat/scheduler/chat_analyze_scheduler.go:174-188 | the corrected per-record step leaves the published store |
| ChatAnalysis.PublishFrom | services/note/chat/scheduler/chat_analyze_scheduler.go:174-188 | the corrected batch logs one line per selected record |
| ChatAnalysis.AnalyzeDailyChatPublished | services/note/chat/scheduler/chat_analyze_scheduler.go:159-191 | the corrected batch stops at a failed query and otherwise ends with the completion line after one line per record |
| ChatAnalysis.PublishFromKeepsValidity | services/note/chat/scheduler/chat_analyze_scheduler.go:174-188 | the corrected batch keeps every table within its CHECK constraints |
| Auth.Split | middleware/auth.go:25 | splitting on a space gives at least one piece, and no piece contains a space |
| Auth.JoinSplit | middleware/auth.go:25 | joining the pieces with single spaces restores the header |
| Auth.SplitJoin | middleware/auth.go:25 | space-free pieces split back into themselves |
| Auth.BearerTokenExactly | middleware/auth.go:25-32 | a header is accepted exactly when it is "Bearer " followed by a space-free token, and that token is passed on |
| Auth.EmptyTokenPassedOn | middleware/auth.go:25-32 | "Bearer " is accepted and passes the empty token to the validator |
| Auth.AuthMiddleware | middleware/auth.go:11-48 | 401 "Authorization header is required" exactly for an empty header, the format message exactly for a malformed one, "Invalid or expired token" exactly when validation fails, and otherwise continue with the claims' ID and email |
| Auth.ContinueNeedsBearer | middleware/auth.go:25-46 | only a "Bearer <token>" header whose token validates ever reaches the next handler |

## Left out

- Concurrency: the goroutine in `PublishJobSatisfactionUpdateEvent` is modelled as a run that completes before the next operation. Races between requests (two inits, two chats in one day) are not modelled.
- Panic recovery: the `recover` blocks of both engines are not modelled. They roll back, but an unnamed result means the caller would see nil.
- Floating point: values are exact reals. `math.Exp` is a parameter with the properties the proofs use; rounding and NaN are not modelled.
- The language model, the SSE stream writer, `json.Marshal`/`Unmarshal` and JWT validation are parameters. Go's case-insensitive JSON member matching is not modelled.
- Scheduler runtime: gocron start/stop and the manual trigger handler are not modelled. The 07:00 schedule appears only as `ChatAnalysis.ScheduledRunWindow`; it runs in KST, although a comment in the code says UTC.
- HTTP wiring: routes, `c.Locals` and the error-handler middleware are not modelled. The key mismatch is noted only: auth sets "userId", most handlers read "userID" and create_chat reads "user_id".
- Schema migration: only the User table is auto-migrated in main.go. The model assumes the CHECK constraints declared on the other models are enforced.
- Thin CRUD handlers (profile, get/list chats, pre-chat creation, current satisfaction) are not modelled. They fetch and serialize, and the score they report is `Score.CalculateWeightedScore`.
- The unrouted importance handler under services/user and its model are not modelled; they duplicate the handler that is modelled.
- Validation.Details: the validator's lines are kept as a sequence rather than joined with newlines into one string.
- ChatAnalysis.AnalyzeChat: the instruction text is an abridged English translation of the Korean prompt. Only its role in the request is modelled, not its wording.
- ChatHandler.ChatPromptIgnoresName: the prompt text is an English translation. Only the literal `${userName}` placeholder is kept verbatim.
- UpdateEngine.FailureKinds: engine messages are English translations of the Korean ones.
- ChatAnalysis.PublishRecord: the corrected batch logs "the update engine rolled back" for a failed engine run. The engine's own log line stays in `UpdateEngine.Publish`.
- Clock.LocalDayStart: time zones are fixed offsets. Go's `time.Date` normalisation across daylight-saving changes is not modelled; Korea has none.
- Auth.AuthMiddleware: the `jwt` utility is assumed present in the request context. A missing one panics in Go; that is not modelled.
- Tables.FindFirst: rows created in the same millisecond are taken in insertion order, where `First` would order them by the random part of their IDs. Which of two such duplicate snapshot rows (see `UpdateEngine.DuplicateInitAddsSecondRow`) the engine updates is therefore not modelled faithfully.
- Tables.FilterRows: the batch's `Find` has no `Order`, so the order of its log lines is not defined by the code; the model fixes insertion order.
- Responses.Status: main.go:46 builds the app with `fiber.New()` and never installs `middleware.ErrorHandler`, so as wired fiber's default handler answers every AppError with 500 and the text of `Error()`. The model gives the status `AppError.StatusCode` assigns, which is what the unused ErrorHandler would send.
- LegacyEngine.ApplyDeltas: applies the corrected step `LegacyEngine.Step`, the clamp of the mathematical sum. The code clamps the int64-wrapped sum (event.go:52-57); that as-written step is `LegacyEngine.StepAsWritten`, and the two agree whenever the sum fits in int64 (see Findings).
- ChatHandler.Converse: the chat row's UpdatedAt is a separate clock read (`savedAt`), the one gorm takes on `Save`; its relation to the message times is not modelled.
- The `ErrorCode` slot receives free text in a few places ("Invalid request body", "Invalid request"). The model keeps that text as the code.

## Findings

| source | as written | input that shows it | evidently intended | confidence | as-written member | corrected member |
|---|---|---|---|---|---|---|
| services/note/chat/scheduler/chat_analyze_scheduler.go:182 | each analysis event is inserted with `db.Create`, bypassing the update engine, so the user's snapshot never changes | a user at workload 50 whose chat is scored +5 workload: the event is stored, workload stays 50 | publish the event through the update engine so the snapshot becomes 55 | medium, not executed | ChatAnalysis.InsertStep, shown by ChatAnalysis.DirectInsertSkipsSnapshot | ChatAnalysis.PublishAnalysis, proved by ChatAnalysis.PublishedAnalysisInStep |
| services/core/satisfaction/event.go:52-57 | `ConstrainRange(old + delta)` on Go `int` wraps on overflow before clamping | old value 100, delta 2^63-1: the sum wraps negative and the value becomes 0 | clamp the mathematical sum, giving 100 | low, not executed | LegacyEngine.StepAsWritten, shown by LegacyEngine.StepAsWrittenWraps | LegacyEngine.Step, proved by LegacyEngine.StepMonotoneInDelta and LegacyEngine.StepAgreesWithoutOverflow |
