/**
 * HandleCreateChat: a user may open at most one chat per calendar day (in
 * the server's local zone); the new chat starts with the chosen pre-chat's
 * text as a single assistant message.
 */
module CreateChatHandler {
  import opened Wrappers
  import opened Roles
  import opened AppErrors
  import opened Responses
  import opened ChatModel
  import Tables
  import Ids
  import Clock

  const DailyLimitMessage: string := "Daily chat limit exceeded"
  const CheckFailedMessage: string := "Failed to check existing chat"
  const PreChatNotFoundMessage: string := "PreChat not found"
  const PreChatLookupFailedMessage: string := "Failed to retrieve pre-chat"
  const CreateFailedMessage: string := "Failed to create chat"

  /** The body-parse rejection passes this text where an error code belongs, and the parser's error as the message. */
  const InvalidBodyText: ErrorCode := "Invalid request body"

  /**
   * What the handler meets beyond the rows: parser and query outcomes, the
   * local zone, and two clock reads: `now`, the handler's own for the daily
   * check, and `insertedAt`, gorm's when `db.Create` stamps the new row.
   */
  datatype CreateChatEnv = CreateChatEnv(
    bodyError: Option<string>,
    limitLookupError: Option<string>,
    preChatLookupError: Option<string>,
    createError: Option<string>,
    now: int,
    insertedAt: int,
    zoneOffset: int,
    stamp: Ids.IdStamp)

  datatype CreateChatOutcome = CreateChatOutcome(response: Response<string>, chats: seq<ChatSet>)

  /** A live chat of `user` created within the local day that starts at `dayStart`. */
  predicate OpenedOn(user: string, dayStart: int, c: ChatSet) {
    Live(c) && c.userId == user && dayStart <= c.createdAt < dayStart + Clock.Day
  }

  /**
   * The chat a pre-chat opens: one assistant message with no ID and zero
   * time, and zero metadata. The code leaves CreatedAt and UpdatedAt unset,
   * so gorm stamps both with its read `at`.
   */
  function OpeningChat(user: string, pre: PreChat, at: int): ChatSet {
    ChatSet("", user, "",
      ChatData([Message("", AssistantRole, pre.content, Clock.ZeroTime)], ChatMetadata(0, Clock.ZeroTime)),
      Clock.FillUnset(Clock.ZeroTime, at), Clock.FillUnset(Clock.ZeroTime, at), None)
  }

  /** HandleCreateChat; `preChatId` is the body's pre_chat_id. */
  function CreateChat(
    chats: seq<ChatSet>, preChats: seq<PreChat>, user: string, preChatId: string, env: CreateChatEnv)
    : (o: CreateChatOutcome)
    ensures o.response.Created? || o.response.Rejected?
    ensures o.response.Created? <==>
      && env.bodyError.None? && env.limitLookupError.None?
      && (forall i :: 0 <= i < |chats| ==> !OpenedOn(user, Clock.LocalDayStart(env.now, env.zoneOffset), chats[i]))
      && env.preChatLookupError.None?
      && (exists i :: 0 <= i < |preChats| && preChats[i].id == preChatId)
      && env.createError.None?
    ensures !o.response.Created? ==> o.chats == chats
    ensures o.response.Created? ==>
      && |o.chats| == |chats| + 1 && o.chats[..|chats|] == chats
      && var row := o.chats[|chats|];
      && o.response.data == row.id && Ids.StartsWith(row.id, ChatSetPrefix + "_")
      && row.userId == user && Live(row) && row.createdAt == env.insertedAt && row.updatedAt == env.insertedAt
      && exists i :: 0 <= i < |preChats| && preChats[i].id == preChatId
           && row.data.messages == [Message("", AssistantRole, preChats[i].content, Clock.ZeroTime)]
  {
    if env.bodyError.Some? then
      CreateChatOutcome(Rejected(NewBadRequestError(InvalidBodyText, env.bodyError.value)), chats)
    else
      var dayStart := Clock.LocalDayStart(env.now, env.zoneOffset);
      var existing := Tables.FindFirst(chats, (c: ChatSet) => OpenedOn(user, dayStart, c));
      if env.limitLookupError.Some? then
        CreateChatOutcome(Rejected(NewInternalError(DatabaseError, CheckFailedMessage, env.limitLookupError)), chats)
      else if existing.Some? then
        CreateChatOutcome(Rejected(NewBadRequestError(InvalidInput, DailyLimitMessage)), chats)
      else if env.preChatLookupError.Some? then
        CreateChatOutcome(Rejected(NewInternalError(DatabaseError, PreChatLookupFailedMessage, env.preChatLookupError)), chats)
      else
        match Tables.FindFirst(preChats, (p: PreChat) => p.id == preChatId)
        case None => CreateChatOutcome(Rejected(NewNotFoundError(ResourceNotFound, PreChatNotFoundMessage)), chats)
        case Some(k) =>
          var row := CreateChatSetRow(OpeningChat(user, preChats[k], env.insertedAt), env.stamp);
          if env.createError.Some? then
            CreateChatOutcome(Rejected(NewInternalError(DatabaseError, CreateFailedMessage, env.createError)), chats)
          else
            CreateChatOutcome(Created(row.id), chats + [row])
  }

  /** The rejection for each failed gate, in the order the handler checks them. */
  lemma CreateChatRejections(
    chats: seq<ChatSet>, preChats: seq<PreChat>, user: string, preChatId: string, env: CreateChatEnv)
    ensures var r := CreateChat(chats, preChats, user, preChatId, env).response;
      && (env.bodyError.Some? ==> r == Rejected(NewBadRequestError(InvalidBodyText, env.bodyError.value)))
      && (env.bodyError.None? && env.limitLookupError.Some? ==>
            r.Rejected? && r.error.message == CheckFailedMessage && Status(r) == 500)
      && (env.bodyError.None? && env.limitLookupError.None?
          && (exists i :: 0 <= i < |chats| && OpenedOn(user, Clock.LocalDayStart(env.now, env.zoneOffset), chats[i])) ==>
            r == Rejected(NewBadRequestError(InvalidInput, DailyLimitMessage)) && Status(r) == 400)
      && (env.bodyError.None? && env.limitLookupError.None? && NoChatToday(chats, user, env)
          && env.preChatLookupError.Some? ==>
            r.Rejected? && r.error.code == DatabaseError && r.error.message == PreChatLookupFailedMessage && Status(r) == 500)
      && (env.bodyError.None? && env.limitLookupError.None? && NoChatToday(chats, user, env)
          && env.preChatLookupError.None? && (forall i :: 0 <= i < |preChats| ==> preChats[i].id != preChatId) ==>
            r == Rejected(NewNotFoundError(ResourceNotFound, PreChatNotFoundMessage)) && Status(r) == 404)
      && (env.bodyError.None? && env.limitLookupError.None? && NoChatToday(chats, user, env)
          && env.preChatLookupError.None? && (exists i :: 0 <= i < |preChats| && preChats[i].id == preChatId)
          && env.createError.Some? ==>
            r.Rejected? && r.error.code == DatabaseError && r.error.message == CreateFailedMessage && Status(r) == 500)
  {
  }

  /** The user has opened no live chat on the local day of `env.now`. */
  predicate NoChatToday(chats: seq<ChatSet>, user: string, env: CreateChatEnv) {
    forall i :: 0 <= i < |chats| ==> !OpenedOn(user, Clock.LocalDayStart(env.now, env.zoneOffset), chats[i])
  }

  /** At most one live chat per user per local day. */
  predicate OnePerDay(chats: seq<ChatSet>, offset: int) {
    forall i, j :: 0 <= i < j < |chats| && Live(chats[i]) && Live(chats[j]) && chats[i].userId == chats[j].userId ==>
      Clock.LocalDayStart(chats[i].createdAt, offset) != Clock.LocalDayStart(chats[j].createdAt, offset)
  }

  /**
   * The clock runs forward: no stored chat is dated after the handler's
   * check, and gorm's stamp comes no earlier than that check.
   */
  predicate ClockForward(chats: seq<ChatSet>, env: CreateChatEnv) {
    && env.now <= env.insertedAt
    && forall i :: 0 <= i < |chats| ==> chats[i].createdAt <= env.now
  }

  /**
   * Chat creation never puts a second live chat on a user's day, provided
   * every chat was created under the same zone the handler now uses and the
   * clock runs forward. The new row is dated by gorm's later read, which may
   * fall on the next day; no stored chat can be dated on that day.
   */
  lemma CreateChatKeepsOnePerDay(
    chats: seq<ChatSet>, preChats: seq<PreChat>, user: string, preChatId: string, env: CreateChatEnv)
    requires OnePerDay(chats, env.zoneOffset)
    requires ClockForward(chats, env)
    ensures OnePerDay(CreateChat(chats, preChats, user, preChatId, env).chats, env.zoneOffset)
  {
    var o := CreateChat(chats, preChats, user, preChatId, env);
    if o.response.Created? {
      var dayStart := Clock.LocalDayStart(env.now, env.zoneOffset);
      var row := o.chats[|chats|];
      forall i | 0 <= i < |chats| && Live(chats[i]) && chats[i].userId == row.userId
        ensures Clock.LocalDayStart(chats[i].createdAt, env.zoneOffset) != Clock.LocalDayStart(row.createdAt, env.zoneOffset)
      {
        assert !OpenedOn(user, dayStart, chats[i]);
        var d := Clock.LocalDayStart(row.createdAt, env.zoneOffset);
        if Clock.LocalDayStart(chats[i].createdAt, env.zoneOffset) == d {
          // then chats[i].createdAt <= now <= row.createdAt puts now on day d as well
          Clock.DayStartUnique(env.now, d, env.zoneOffset);
        }
      }
    }
  }

  /** A live chat of user "u" dated exactly at the first midnight after the epoch (UTC). */
  function LaterChat(): ChatSet {
    ChatSet("c0", "u", "", ChatData([], ChatMetadata(0, Clock.ZeroTime)), Clock.Day, Clock.Day, None)
  }

  /** The handler checks just before that midnight and gorm stamps just after it. */
  function MidnightEnv(): CreateChatEnv {
    CreateChatEnv(None, None, None, None, Clock.Day - 1, Clock.Day + 1, 0, Ids.IdStamp(0, Ids.NilUuid()))
  }

  /**
   * Without a forward clock the guarantee fails: a stored chat dated after
   * the handler's check passes the daily test, and gorm's later stamp puts
   * the new chat on the same day as that stored one.
   */
  lemma LaterChatBreaksOnePerDay()
    ensures !ClockForward([LaterChat()], MidnightEnv())
    ensures var o := CreateChat([LaterChat()], [PreChat("p", "hello", 0, 0)], "u", "p", MidnightEnv());
      && OnePerDay([LaterChat()], 0)
      && o.response.Created?
      && !OnePerDay(o.chats, 0)
  {
    var env := MidnightEnv();
    var chats := [LaterChat()];
    Clock.DayStartUnique(Clock.Day - 1, 0, 0);
    assert !OpenedOn("u", Clock.LocalDayStart(env.now, 0), chats[0]);
    var o := CreateChat(chats, [PreChat("p", "hello", 0, 0)], "u", "p", env);
    assert o.response.Created?;
    Clock.DayStartUnique(Clock.Day, Clock.Day, 0);
    Clock.DayStartUnique(Clock.Day + 1, Clock.Day, 0);
    assert Clock.LocalDayStart(o.chats[0].createdAt, 0) == Clock.LocalDayStart(o.chats[1].createdAt, 0);
  }

  /**
   * The opening message bypasses AddMessage: the new chat holds one message
   * while its metadata counts none, so the stored count lags by one.
   */
  lemma OpeningChatCountLags(
    chats: seq<ChatSet>, preChats: seq<PreChat>, user: string, preChatId: string, env: CreateChatEnv)
    requires CreateChat(chats, preChats, user, preChatId, env).response.Created?
    ensures var row := CreateChat(chats, preChats, user, preChatId, env).chats[|chats|];
      CountLag(row.data) == 1 && row.data.metadata == ChatMetadata(0, Clock.ZeroTime)
  {
  }
}
