/**
 * The daily chat analysis: every live chat created in the analysis window
 * (06:00 KST the previous day up to 06:00 KST today) is turned into a
 * transcript, sent to the language model behind a fixed instruction, and the
 * six numbers of its JSON answer become a CHAT_ANALYSIS_EVENT.
 *
 * As written the batch inserts each event row directly and never runs the
 * update engine (`AnalyzeDailyChat`); `PublishAnalysis` is the step that
 * hands the event to the engine instead.
 *
 * The completion call and the JSON parser are parameters. The parser yields
 * the answer's top-level numeric members; decoding them into the analysis
 * struct follows encoding/json: an absent member leaves the field at 0.
 */
module ChatAnalysis {
  import opened Wrappers
  import opened Records
  import opened EventTypes
  import opened Roles
  import opened ChatModel
  import opened Llm
  import opened UpdateEngine
  import Tables
  import Ids
  import Clock

  /** getAnalysisPrompt's instruction (given in English translation, abridged). */
  const AnalysisPromptText: string :=
    "You evaluate the client's job satisfaction from a conversation between a counsellor and the client."
    + " Score each of workload, compensation, growth, workEnvironment, workRelationships and workValues"
    + " from -10 to +10: 0 when not mentioned or neutral, positive for favourable experiences, negative for"
    + " unfavourable ones. Ignore the counsellor's own lines. Answer with a JSON object holding the six"
    + " fields. The conversation to analyse follows:"

  // ---------------------------------------------------------------- the request

  /** One transcript line: "role: content\n". */
  function Line(m: Message): string {
    Roles.String(m.role) + ": " + m.content + "\n"
  }

  /** The transcript of a conversation, one line per message in order. */
  function Transcript(msgs: seq<Message>): string {
    if |msgs| == 0 then "" else Transcript(msgs[..|msgs| - 1]) + Line(msgs[|msgs| - 1])
  }

  /** A transcript grows by exactly one line per added message. */
  lemma TranscriptAppend(msgs: seq<Message>, m: Message)
    ensures Transcript(msgs + [m]) == Transcript(msgs) + Line(m)
  {
    assert (msgs + [m])[..|msgs|] == msgs;
  }

  /** Transcripts of concatenated conversations concatenate. */
  lemma {:induction false} TranscriptConcat(a: seq<Message>, b: seq<Message>)
    ensures Transcript(a + b) == Transcript(a) + Transcript(b)
    decreases |b|
  {
    if |b| == 0 {
      assert a + b == a;
    } else {
      var b' := b[..|b| - 1];
      assert a + b == (a + b') + [b[|b| - 1]];
      assert b == b' + [b[|b| - 1]];
      TranscriptAppend(a + b', b[|b| - 1]);
      TranscriptAppend(b', b[|b| - 1]);
      TranscriptConcat(a, b');
    }
  }

  /** The two messages sent for one chat: the instruction, then the transcript as the user's turn. */
  function AnalysisRequest(c: ChatSet): (msgs: seq<LlmMessage>)
    ensures |msgs| == 2 && msgs[0].role == SystemRole && msgs[1].role == UserRoleName
  {
    [LlmMessage(SystemRole, AnalysisPromptText), LlmMessage(UserRoleName, Transcript(c.data.messages))]
  }

  // ---------------------------------------------------------------- the answer

  /** ChatGPTAnalysisResponse filled from the answer's members; an absent member stays 0. */
  function DecodeAnalysis(obj: map<string, real>): (d: Dims)
    ensures "workload" in obj ==> d.workload == obj["workload"]
    ensures "workload" !in obj ==> d.workload == 0.0
    ensures "compensation" in obj ==> d.compensation == obj["compensation"]
    ensures "compensation" !in obj ==> d.compensation == 0.0
    ensures "growth" in obj ==> d.growth == obj["growth"]
    ensures "growth" !in obj ==> d.growth == 0.0
    ensures "workEnvironment" in obj ==> d.workEnvironment == obj["workEnvironment"]
    ensures "workEnvironment" !in obj ==> d.workEnvironment == 0.0
    ensures "workRelationships" in obj ==> d.workRelationships == obj["workRelationships"]
    ensures "workRelationships" !in obj ==> d.workRelationships == 0.0
    ensures "workValues" in obj ==> d.workValues == obj["workValues"]
    ensures "workValues" !in obj ==> d.workValues == 0.0
  {
    Dims(
      if "workload" in obj then obj["workload"] else 0.0,
      if "compensation" in obj then obj["compensation"] else 0.0,
      if "growth" in obj then obj["growth"] else 0.0,
      if "workEnvironment" in obj then obj["workEnvironment"] else 0.0,
      if "workRelationships" in obj then obj["workRelationships"] else 0.0,
      if "workValues" in obj then obj["workValues"] else 0.0)
  }

  /** An answer with none of the six members decodes without error to all zeros. */
  lemma EmptyAnswerReadsZero()
    ensures DecodeAnalysis(map[]) == ZeroDims
  {
  }

  /** Go's int(x) on a float: truncation toward zero. */
  function TruncToward0(x: real): (n: int)
    ensures x >= 0.0 ==> 0 <= n && n as real <= x < n as real + 1.0
    ensures x < 0.0 ==> n <= 0 && n as real - 1.0 < x <= n as real
  {
    if x >= 0.0 then x.Floor else -((-x).Floor)
  }

  /** Truncation is odd and leaves integers alone. */
  lemma TruncLaws(x: real, k: int)
    ensures TruncToward0(-x) == -TruncToward0(x)
    ensures TruncToward0(k as real) == k
  {
  }

  function Truncate(x: real): real {
    TruncToward0(x) as real
  }

  /**
   * The six deltas as the event receives them: each answer value truncated
   * toward zero (the source assigns int(...) to float64 fields).
   */
  function TruncatedDeltas(d: Dims): Dims {
    Dims(Truncate(d.workload), Truncate(d.compensation), Truncate(d.growth),
         Truncate(d.workEnvironment), Truncate(d.workRelationships), Truncate(d.workValues))
  }

  /** Each delta is the truncated answer value of the same dimension. */
  lemma TruncatedFields(d: Dims)
    ensures forall j :: 0 <= j < 6 ==> Fields(TruncatedDeltas(d))[j] == Truncate(Fields(d)[j])
  {
  }

  /** Answers on the requested scale of [-10, 10] give deltas on that scale, well inside the event table's checks. */
  lemma RequestedScaleFits(d: Dims)
    requires Within(d, -10.0, 10.0)
    ensures Within(TruncatedDeltas(d), -10.0, 10.0)
    ensures Within(TruncatedDeltas(d), -100.0, 100.0)
  {
  }

  const CompletionFailedPrefix: string := "failed to get ChatGPT response: "
  const ParseFailedPrefix: string := "failed to parse ChatGPT response: "

  /** analyzeChat: the event for one chat, or the wrapped error of the call or of the parse. */
  function AnalyzeChat(
    c: ChatSet, complete: seq<LlmMessage> -> Result<string, string>,
    parse: string -> Result<map<string, real>, string>, now: int): (r: Result<UpdateEvent, string>)
    ensures complete(AnalysisRequest(c)).Failure? ==>
      r == Failure(CompletionFailedPrefix + complete(AnalysisRequest(c)).error)
    ensures complete(AnalysisRequest(c)).Success? && parse(complete(AnalysisRequest(c)).value).Failure? ==>
      r == Failure(ParseFailedPrefix + parse(complete(AnalysisRequest(c)).value).error)
    ensures r.Success? <==> complete(AnalysisRequest(c)).Success? && parse(complete(AnalysisRequest(c)).value).Success?
    ensures r.Success? ==>
      && r.value.eventType == ChatAnalysisEvent && r.value.userId == c.userId
      && r.value.sourceId == Some(c.id) && r.value.createdAt == now
      && r.value.deltas == TruncatedDeltas(DecodeAnalysis(parse(complete(AnalysisRequest(c)).value).value))
  {
    match complete(AnalysisRequest(c))
    case Failure(err) => Failure(CompletionFailedPrefix + err)
    case Success(text) =>
      match parse(text)
      case Failure(err) => Failure(ParseFailedPrefix + err)
      case Success(obj) =>
        Success(UpdateEvent("", c.userId, ChatAnalysisEvent, TruncatedDeltas(DecodeAnalysis(obj)), Some(c.id), now, Clock.ZeroTime))
  }

  // ---------------------------------------------------------------- the window

  /** [06:00 KST of the previous day, 06:00 KST of `now`'s KST day). */
  function AnalysisWindow(now: int): (w: (int, int))
    ensures w.1 == w.0 + Clock.Day
    ensures Clock.IsLocalMidnight(w.1 - 6 * Clock.Hour, Clock.KstOffset)
    ensures w.1 - 6 * Clock.Hour <= now < w.1 + 18 * Clock.Hour
  {
    var start := Clock.LocalDayStart(now, Clock.KstOffset) + 6 * Clock.Hour - Clock.Day;
    (start, start + Clock.Day)
  }

  /** Runs a day apart analyse adjacent windows: each chat time falls in exactly one day's window. */
  lemma ConsecutiveRunsTile(now: int)
    ensures AnalysisWindow(now + Clock.Day).0 == AnalysisWindow(now).1
  {
    var d := Clock.LocalDayStart(now, Clock.KstOffset);
    assert Clock.IsLocalMidnight(d + Clock.Day, Clock.KstOffset);
    Clock.DayStartUnique(now + Clock.Day, d + Clock.Day, Clock.KstOffset);
  }

  /** At the scheduled 07:00 KST the window is the 24 hours that ended an hour earlier. */
  lemma ScheduledRunWindow(now: int)
    requires now - Clock.LocalDayStart(now, Clock.KstOffset) == 7 * Clock.Hour
    ensures AnalysisWindow(now) == (now - 25 * Clock.Hour, now - Clock.Hour)
  {
  }

  predicate InWindow(w: (int, int), c: ChatSet) {
    Live(c) && w.0 <= c.createdAt < w.1
  }

  /** `Where("created_at >= ? AND created_at < ?").Find(&chatSets)`; soft-deleted rows are skipped. */
  function SelectChats(chats: seq<ChatSet>, now: int): (sel: seq<ChatSet>)
    ensures forall i :: 0 <= i < |sel| ==> sel[i] in chats && InWindow(AnalysisWindow(now), sel[i])
    ensures forall j :: 0 <= j < |chats| && InWindow(AnalysisWindow(now), chats[j]) ==> chats[j] in sel
  {
    Tables.FilterRows(chats, (c: ChatSet) => InWindow(AnalysisWindow(now), c))
  }

  // ---------------------------------------------------------------- the batch as written

  /** The log lines of one run. */
  datatype BatchLine =
    | RetrieveFailed(err: string)
    | AnalyzeFailed(chatId: string, err: string)
    | SaveFailed(chatId: string, err: string)
    | Saved(chatId: string)
    | Completed

  /**
   * What the run meets: the query outcome and the run's clock read `now`
   * that fixes the window; per record, analyzeChat's own clock read for
   * CreatedAt, gorm's read when it inserts the row, the insert fault and
   * the ID stamp.
   */
  datatype BatchEnv = BatchEnv(
    queryError: Option<string>,
    now: int,
    eventNow: nat -> int,
    insertNow: nat -> int,
    insertError: nat -> Option<string>,
    stamp: nat -> Ids.IdStamp)

  /** One record as written: analyse, then insert the event row directly. */
  function InsertAnalysis(
    c: ChatSet, i: nat, complete: seq<LlmMessage> -> Result<string, string>,
    parse: string -> Result<map<string, real>, string>, env: BatchEnv): (r: (Option<UpdateEvent>, BatchLine))
    ensures r.0.Some? <==> r.1 == Saved(c.id)
    ensures (r.1.Saved? || r.1.AnalyzeFailed? || r.1.SaveFailed?) && r.1.chatId == c.id
    ensures r.0.Some? ==>
      && EventChecks(r.0.value) && r.0.value.eventType == ChatAnalysisEvent
      && r.0.value.sourceId == Some(c.id) && r.0.value.userId == c.userId
      && (env.eventNow(i) != Clock.ZeroTime ==> r.0.value.createdAt == env.eventNow(i))
      && r.0.value.updatedAt == env.insertNow(i)
  {
    match AnalyzeChat(c, complete, parse, env.eventNow(i))
    case Failure(err) => (None, AnalyzeFailed(c.id, err))
    case Success(e) =>
      var row := InsertEventRow(e, env.stamp(i), env.insertNow(i));
      if env.insertError(i).Some? then (None, SaveFailed(c.id, env.insertError(i).value))
      else if !EventChecks(row) then (None, SaveFailed(c.id, CheckViolation))
      else (Some(row), Saved(c.id))
  }

  /** What a run inserts and logs, record by record. */
  datatype BatchRun = BatchRun(inserted: seq<UpdateEvent>, lines: seq<BatchLine>)

  /** A run followed by one more record's outcome. */
  function Extend(run: BatchRun, step: (Option<UpdateEvent>, BatchLine)): BatchRun {
    BatchRun(run.inserted + (if step.0.Some? then [step.0.value] else []), run.lines + [step.1])
  }

  /** What the first `n` selected records insert and log, in order. */
  function Run(
    sel: seq<ChatSet>, n: nat, complete: seq<LlmMessage> -> Result<string, string>,
    parse: string -> Result<map<string, real>, string>, env: BatchEnv): (r: BatchRun)
    requires n <= |sel|
    ensures |r.lines| == n
    ensures |r.inserted| <= n
    decreases n
  {
    if n == 0 then BatchRun([], [])
    else
      Extend(Run(sel, n - 1, complete, parse, env), InsertAnalysis(sel[n - 1], n - 1, complete, parse, env))
  }

  /**
   * AnalyzeDailyChat as written: a failed query logs and stops; otherwise
   * every selected record is attempted in turn, a failure on one is logged
   * and skipped, and the run ends with the completion line. Only the event
   * table changes.
   */
  method AnalyzeDailyChat(
    s: Store, chats: seq<ChatSet>, complete: seq<LlmMessage> -> Result<string, string>,
    parse: string -> Result<map<string, real>, string>, env: BatchEnv)
    returns (t: Store, log: seq<BatchLine>)
    ensures t.snapshots == s.snapshots && t.importances == s.importances
    ensures env.queryError.Some? ==> t == s && log == [RetrieveFailed(env.queryError.value)]
    ensures env.queryError.None? ==>
      var sel := SelectChats(chats, env.now);
      var run := Run(sel, |sel|, complete, parse, env);
      t.events == s.events + run.inserted && log == run.lines + [Completed]
    ensures StoreValid(s) ==> StoreValid(t)
  {
    if env.queryError.Some? {
      return s, [RetrieveFailed(env.queryError.value)];
    }
    var sel := SelectChats(chats, env.now);
    var run := BatchRun([], []);
    var i := 0;
    while i < |sel|
      invariant 0 <= i <= |sel|
      invariant run == Run(sel, i, complete, parse, env)
    {
      run := Extend(run, InsertAnalysis(sel[i], i, complete, parse, env));
      i := i + 1;
    }
    t := s.(events := s.events + run.inserted);
    log := run.lines + [Completed];
    RunRowsValid(sel, i, complete, parse, env);
    AppendedRowsValid(s, run.inserted);
  }

  /** Rows that are CHAT_ANALYSIS_EVENTs passing the event table's checks. */
  predicate AnalysisRows(rows: seq<UpdateEvent>) {
    forall k :: 0 <= k < |rows| ==> EventChecks(rows[k]) && rows[k].eventType == ChatAnalysisEvent
  }

  /** Every row the run inserts is a CHAT_ANALYSIS_EVENT that passes the event table's checks. */
  lemma {:induction false} RunRowsValid(
    sel: seq<ChatSet>, n: nat, complete: seq<LlmMessage> -> Result<string, string>,
    parse: string -> Result<map<string, real>, string>, env: BatchEnv)
    requires n <= |sel|
    ensures AnalysisRows(Run(sel, n, complete, parse, env).inserted)
    decreases n
  {
    if n > 0 {
      RunRowsValid(sel, n - 1, complete, parse, env);
      var prev := Run(sel, n - 1, complete, parse, env).inserted;
      var step := InsertAnalysis(sel[n - 1], n - 1, complete, parse, env);
      var tail := if step.0.Some? then [step.0.value] else [];
      assert AnalysisRows(tail);
      assert Run(sel, n, complete, parse, env).inserted == prev + tail;
      assert AnalysisRows(prev + tail) by {
        forall k | 0 <= k < |prev + tail|
          ensures EventChecks((prev + tail)[k]) && (prev + tail)[k].eventType == ChatAnalysisEvent
        {
          if k < |prev| { assert (prev + tail)[k] == prev[k]; } else { assert (prev + tail)[k] == tail[k - |prev|]; }
        }
      }
    }
  }

  /** Appending rows that pass the event table's checks keeps the store valid. */
  lemma AppendedRowsValid(s: Store, rows: seq<UpdateEvent>)
    requires AnalysisRows(rows)
    ensures StoreValid(s) ==> StoreValid(s.(events := s.events + rows))
  {
    var t := s.(events := s.events + rows);
    forall k | |s.events| <= k < |t.events|
      ensures EventChecks(t.events[k])
    {
      assert t.events[k] == rows[k - |s.events|];
    }
  }

  /** Extending a run keeps its earlier lines and adds the step's line last. */
  lemma ExtendKeepsLines(run: BatchRun, step: (Option<UpdateEvent>, BatchLine), k: nat)
    requires k <= |run.lines|
    ensures k < |run.lines| ==> Extend(run, step).lines[k] == run.lines[k]
    ensures k == |run.lines| ==> Extend(run, step).lines[k] == step.1
  {
  }

  /** The k-th log line is the k-th selected record's own outcome, whatever records follow it. */
  lemma {:induction false} LineOfRecord(
    sel: seq<ChatSet>, n: nat, complete: seq<LlmMessage> -> Result<string, string>,
    parse: string -> Result<map<string, real>, string>, env: BatchEnv, k: nat)
    requires n <= |sel| && k < n
    ensures Run(sel, n, complete, parse, env).lines[k] == InsertAnalysis(sel[k], k, complete, parse, env).1
    decreases n
  {
    var prev := Run(sel, n - 1, complete, parse, env);
    var step := InsertAnalysis(sel[n - 1], n - 1, complete, parse, env);
    assert Run(sel, n, complete, parse, env) == Extend(prev, step);
    ExtendKeepsLines(prev, step, k);
    if k < n - 1 {
      LineOfRecord(sel, n - 1, complete, parse, env, k);
    }
  }

  /** The k-th log line reports the k-th selected record: saved, analysis failed, or save failed. */
  lemma OneLinePerRecord(
    sel: seq<ChatSet>, n: nat, complete: seq<LlmMessage> -> Result<string, string>,
    parse: string -> Result<map<string, real>, string>, env: BatchEnv, k: nat)
    requires n <= |sel| && k < n
    ensures var line := Run(sel, n, complete, parse, env).lines[k];
      || line == Saved(sel[k].id)
      || (line.AnalyzeFailed? && line.chatId == sel[k].id)
      || (line.SaveFailed? && line.chatId == sel[k].id)
  {
    LineOfRecord(sel, n, complete, parse, env, k);
  }

  // ---------------------------------------------------------------- event and snapshot in step

  /**
   * A run keeps events and snapshots in step when, if it added an event row,
   * that event's user already had a snapshot and its first snapshot row now
   * holds clamp(old + delta) of that event.
   */
  predicate InStep(before: Store, after: Store) {
    |after.events| == |before.events| + 1 ==>
      var e := after.events[|before.events|];
      && SnapshotRow(before.snapshots, e.userId).Some?
      && |after.snapshots| == |before.snapshots|
      && var k := SnapshotRow(before.snapshots, e.userId).value;
      after.snapshots[k].values == ApplyDeltas(before.snapshots[k].values, e.deltas)
  }

  /** The as-written step applied to a store: the inserted row, if any, is appended to the event table. */
  function InsertStep(
    s: Store, c: ChatSet, i: nat, complete: seq<LlmMessage> -> Result<string, string>,
    parse: string -> Result<map<string, real>, string>, env: BatchEnv): (t: Store)
    ensures t.snapshots == s.snapshots
  {
    var step := InsertAnalysis(c, i, complete, parse, env);
    if step.0.Some? then s.(events := s.events + [step.0.value]) else s
  }

  /** A user whose six satisfaction values all stand at 50. */
  function HalfwayStore(): Store {
    Store([Snapshot("s1", "u", Dims(50.0, 50.0, 50.0, 50.0, 50.0, 50.0), ZeroDims, 0, 0)], [], [])
  }

  /** An empty chat of that user. */
  function QuietChat(): ChatSet {
    ChatSet("c1", "u", "", ChatData([], ChatMetadata(0, 0)), 0, 0, None)
  }

  /** A model whose answer reads as +5 workload and nothing else. */
  function PlusFiveWorkload(text: string): Result<map<string, real>, string> {
    Success(map["workload" := 5.0])
  }

  function AnyReply(msgs: seq<LlmMessage>): Result<string, string> {
    Success("{}")
  }

  function FaultlessBatch(): BatchEnv {
    BatchEnv(None, 0, (i: nat) => 0, (i: nat) => 0, (i: nat) => None, (i: nat) => Ids.IdStamp(0, Ids.NilUuid()))
  }

  /** The quiet chat, analysed with the +5 workload answer, inserts one row for its user carrying exactly that delta. */
  lemma QuietChatInserted()
    ensures var row := InsertAnalysis(QuietChat(), 0, AnyReply, PlusFiveWorkload, FaultlessBatch()).0;
      row.Some? && row.value.userId == "u" && row.value.deltas == Dims(5.0, 0.0, 0.0, 0.0, 0.0, 0.0)
  {
    var e := AnalyzeChat(QuietChat(), AnyReply, PlusFiveWorkload, 0).value;
    assert e.deltas == Dims(5.0, 0.0, 0.0, 0.0, 0.0, 0.0);
    DefinedKindsFitColumn();
  }

  /** Appending an event that would move its user's snapshot, while the snapshots stay put, breaks the step. */
  lemma StillSnapshotOutOfStep(s: Store, row: UpdateEvent)
    requires SnapshotRow(s.snapshots, row.userId).Some?
    requires var k := SnapshotRow(s.snapshots, row.userId).value;
      ApplyDeltas(s.snapshots[k].values, row.deltas) != s.snapshots[k].values
    ensures !InStep(s, s.(events := s.events + [row]))
  {
    var t := s.(events := s.events + [row]);
    assert t.events[|s.events|] == row;
  }

  /**
   * As written, an analysis event can be recorded while the snapshot it
   * describes stays as it was: a +5 workload answer for a user at 50 adds
   * the event and leaves the workload at 50 where the engine would make it 55.
   */
  lemma DirectInsertSkipsSnapshot()
    ensures var s := HalfwayStore();
      var t := InsertStep(s, QuietChat(), 0, AnyReply, PlusFiveWorkload, FaultlessBatch());
      |t.events| == |s.events| + 1 && !InStep(s, t)
  {
    var s := HalfwayStore();
    QuietChatInserted();
    var row := InsertAnalysis(QuietChat(), 0, AnyReply, PlusFiveWorkload, FaultlessBatch()).0.value;
    assert SnapshotRow(s.snapshots, row.userId) == Some(0);
    assert ApplyDeltas(s.snapshots[0].values, row.deltas).workload == 55.0;
    StillSnapshotOutOfStep(s, row);
  }

  // ---------------------------------------------------------------- the batch through the engine

  /** One record handed to the engine: analyse, then publish; the engine run decides what is written. */
  function PublishAnalysis(
    s: Store, c: ChatSet, complete: seq<LlmMessage> -> Result<string, string>,
    parse: string -> Result<map<string, real>, string>, now: int, engine: TxEnv): (p: Published)
    ensures AnalyzeChat(c, complete, parse, now).Failure? ==> p.store == s
  {
    match AnalyzeChat(c, complete, parse, now)
    case Failure(_) => Published(s, None)
    case Success(e) => Publish(s, e, engine)
  }

  /** Through the engine, every analysis event that is recorded has moved its user's snapshot by its deltas. */
  lemma PublishedAnalysisInStep(
    s: Store, c: ChatSet, complete: seq<LlmMessage> -> Result<string, string>,
    parse: string -> Result<map<string, real>, string>, now: int, engine: TxEnv)
    ensures InStep(s, PublishAnalysis(s, c, complete, parse, now, engine).store)
  {
    var a := AnalyzeChat(c, complete, parse, now);
    if a.Success? && Process(s, a.value, engine).Success? {
      DeltaUpdatesInPlace(s, a.value, engine);
      CommitAppendsOneEvent(s, a.value, engine);
      var r := Process(s, a.value, engine).value;
      assert r.events[|s.events|] == InsertedEvent(a.value, engine);
    }
  }

  /** One record of the batch through the engine: the store it leaves and the line it logs. */
  function PublishRecord(
    s: Store, c: ChatSet, complete: seq<LlmMessage> -> Result<string, string>,
    parse: string -> Result<map<string, real>, string>, now: int, engine: TxEnv): (r: (Store, BatchLine))
    ensures r.0 == PublishAnalysis(s, c, complete, parse, now, engine).store
  {
    match AnalyzeChat(c, complete, parse, now)
    case Failure(err) => (s, AnalyzeFailed(c.id, err))
    case Success(e) =>
      var p := Publish(s, e, engine);
      (p.store, if p.log.None? then Saved(c.id) else SaveFailed(c.id, "the update engine rolled back"))
  }

  /** The batch through the engine: records in order, each on the store the previous one left. */
  function PublishFrom(
    s: Store, sel: seq<ChatSet>, complete: seq<LlmMessage> -> Result<string, string>,
    parse: string -> Result<map<string, real>, string>, eventNow: nat -> int, engine: nat -> TxEnv): (r: (Store, seq<BatchLine>))
    ensures |r.1| == |sel|
    decreases |sel|
  {
    if |sel| == 0 then (s, [])
    else
      var first := PublishRecord(s, sel[0], complete, parse, eventNow(0), engine(0));
      var rest := PublishFrom(first.0, sel[1..], complete, parse, (i: nat) => eventNow(i + 1), (i: nat) => engine(i + 1));
      (rest.0, [first.1] + rest.1)
  }

  /** AnalyzeDailyChat with each event published through the update engine. */
  function AnalyzeDailyChatPublished(
    s: Store, chats: seq<ChatSet>, complete: seq<LlmMessage> -> Result<string, string>,
    parse: string -> Result<map<string, real>, string>, queryError: Option<string>, now: int,
    eventNow: nat -> int, engine: nat -> TxEnv): (r: (Store, seq<BatchLine>))
    ensures queryError.Some? ==> r == (s, [RetrieveFailed(queryError.value)])
    ensures queryError.None? ==> |r.1| == |SelectChats(chats, now)| + 1 && r.1[|r.1| - 1] == Completed
  {
    if queryError.Some? then (s, [RetrieveFailed(queryError.value)])
    else
      var run := PublishFrom(s, SelectChats(chats, now), complete, parse, eventNow, engine);
      (run.0, run.1 + [Completed])
  }

  /** Through the engine the batch keeps every table within its CHECK constraints. */
  lemma {:induction false} PublishFromKeepsValidity(
    s: Store, sel: seq<ChatSet>, complete: seq<LlmMessage> -> Result<string, string>,
    parse: string -> Result<map<string, real>, string>, eventNow: nat -> int, engine: nat -> TxEnv)
    requires StoreValid(s)
    ensures StoreValid(PublishFrom(s, sel, complete, parse, eventNow, engine).0)
    decreases |sel|
  {
    if |sel| > 0 {
      var a := AnalyzeChat(sel[0], complete, parse, eventNow(0));
      if a.Success? {
        ApplyPreservesValidity(s, a.value, engine(0));
      }
      var first := PublishRecord(s, sel[0], complete, parse, eventNow(0), engine(0));
      PublishFromKeepsValidity(first.0, sel[1..], complete, parse, (i: nat) => eventNow(i + 1), (i: nat) => engine(i + 1));
    }
  }
}
