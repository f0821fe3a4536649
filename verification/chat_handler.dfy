/**
 * HandleChat: one user turn of a counselling chat. After its gates, the
 * handler appends the user's message, sends the whole conversation behind a
 * fixed system prompt to the language model, relays each non-empty streamed
 * chunk to the client as a server-sent-event frame, and when the stream
 * closes appends the accumulated reply and saves the chat.
 *
 * The model's stream is a parameter: the sequence of what the handler's
 * select loop receives. The two channels are unbuffered and fed in order by
 * one goroutine, so that sequence is determined by the model's output; a nil
 * from the closed error channel is received as `ErrorReceived(None)`.
 */
module ChatHandler {
  import opened Wrappers
  import opened Roles
  import opened AppErrors
  import opened ChatModel
  import opened Llm
  import Tables
  import Ids
  import Clock

  /** The empty-message rejection passes this text where an error code belongs. */
  const InvalidRequestText: ErrorCode := "Invalid request"
  const MessageRequiredMessage: string := "Message is required"
  const ProfileNotFoundMessage: string := "User profile not found"
  const ChatNotFoundMessage: string := "Chat not found"
  const ChatLookupFailedMessage: string := "Failed to retrieve chat"
  const AfterMidnightMessage: string := "Chat is not available after midnight"
  const SaveFailedMessage: string := "Failed to save chat"
  const StreamErrorCode: ErrorCode := "STREAM_ERROR"
  const ChunkFailedMessage: string := "Failed to send chunk"
  const ModelErrorCode: ErrorCode := "CHATGPT_ERROR"
  const ModelFailedMessage: string := "Failed to get response from ChatGPT"
  const DoneFrame: string := "data: [DONE]\n\n"

  /**
   * getChatPrompt's text (given in English translation). The Go function
   * returns a raw string literal, so the "${userName}" inside it is never
   * replaced by the name it receives.
   */
  const PromptHead: string :=
    "\n\tYou act as the client's counsellor. Listen, empathise and ask questions that clarify the"
    + " client's situation across workload, compensation, growth, work environment, work relationships"
    + " and work values. You are the assistant role and the client is the user role; continue naturally"
    + " from the client's last message and stop when the client wants to stop."
    + " Address the client as \""

  const NamePlaceholder: string := "${userName}"

  const PromptTail: string := "\"-nim where it is natural.\n\tThe client's story follows.\n\t"

  const ChatPromptText: string := PromptHead + NamePlaceholder + PromptTail

  /** getChatPrompt: the template is returned as it stands, `${userName}` included. */
  function GetChatPrompt(userName: string): string {
    ChatPromptText
  }

  /** The prompt mentions no user name: every name gets the same text, placeholder included. */
  lemma ChatPromptIgnoresName(a: string, b: string)
    ensures GetChatPrompt(a) == GetChatPrompt(b)
    ensures GetChatPrompt(a)[|PromptHead|..|PromptHead| + |NamePlaceholder|] == NamePlaceholder
  {
  }

  /** The system prompt followed by every stored message, role and content, in order. */
  function BuildPrompt(userName: string, cd: ChatData): (msgs: seq<LlmMessage>)
    ensures |msgs| == |cd.messages| + 1
    ensures msgs[0] == LlmMessage(SystemRole, GetChatPrompt(userName))
    ensures forall i :: 0 <= i < |cd.messages| ==>
      msgs[i + 1] == LlmMessage(String(cd.messages[i].role), cd.messages[i].content)
  {
    [LlmMessage(SystemRole, GetChatPrompt(userName))]
      + seq(|cd.messages|, i requires 0 <= i < |cd.messages| => LlmMessage(String(cd.messages[i].role), cd.messages[i].content))
  }

  /** After the user's message is added, it is the last thing the model reads. */
  lemma PromptEndsWithUserTurn(userName: string, cd: ChatData, text: string, clock: MessageClock)
    ensures var msgs := BuildPrompt(userName, AddMessage(cd, UserRole, text, clock));
      msgs[|msgs| - 1] == LlmMessage(UserRoleName, text)
  {
  }

  // ---------------------------------------------------------------- the stream loop

  /** What one iteration of the select loop receives. */
  datatype StreamEvent =
    | Chunk(text: string)               // a value from the response channel
    | ErrorReceived(err: Option<string>) // a value from the error channel; None once it is closed
    | Closed                            // the response channel is closed

  /** The `index`-th frame write (counting from 0, the [DONE] frame included) fails with `message`. */
  datatype WriteFault = WriteFault(index: nat, message: string)

  datatype StreamEnd = Finished | ModelFailed(err: string) | WriteFailed(err: string)

  /** The text accumulated, the frames written, and how the loop ended. */
  datatype StreamResult = StreamResult(full: string, frames: seq<string>, end: StreamEnd)

  /** The SSE frame of one chunk. */
  function Frame(chunk: string): (f: string)
    ensures |f| == |chunk| + 8 && f[6..|f| - 2] == chunk
  {
    "data: " + chunk + "\n\n"
  }

  function WriteFails(fault: Option<WriteFault>, index: nat): bool {
    fault.Some? && fault.value.index == index
  }

  /** The select loop from `full`/`frames` onwards; a stream that runs out counts as closed. */
  function Consume(events: seq<StreamEvent>, fault: Option<WriteFault>, full: string, frames: seq<string>)
    : StreamResult
    decreases |events|
  {
    if |events| == 0 then StreamResult(full, frames, Finished)
    else
      match events[0]
      case Closed => StreamResult(full, frames, Finished)
      case ErrorReceived(None) => Consume(events[1..], fault, full, frames)
      case ErrorReceived(Some(m)) => StreamResult(full, frames, ModelFailed(m))
      case Chunk(c) =>
        if c == "" then Consume(events[1..], fault, full, frames)
        else if WriteFails(fault, |frames|) then StreamResult(full + c, frames, WriteFailed(fault.value.message))
        else Consume(events[1..], fault, full + c, frames + [Frame(c)])
  }

  /** The text a list of chunk frames carries. */
  function Payload(frames: seq<string>): string {
    if |frames| == 0 then ""
    else
      var f := frames[|frames| - 1];
      Payload(frames[..|frames| - 1]) + (if |f| >= 8 then f[6..|f| - 2] else "")
  }

  lemma PayloadAppend(frames: seq<string>, c: string)
    ensures Payload(frames + [Frame(c)]) == Payload(frames) + c
  {
    assert (frames + [Frame(c)])[..|frames|] == frames;
  }

  /**
   * What the client was sent is what is kept: when the loop finishes, the
   * accumulated reply is exactly the concatenation of the chunk frames'
   * payloads, and each frame is a chunk frame.
   */
  lemma {:induction false} ConsumeKeepsPayload(
    events: seq<StreamEvent>, fault: Option<WriteFault>, full: string, frames: seq<string>)
    requires Payload(frames) == full
    ensures var r := Consume(events, fault, full, frames);
      r.end.Finished? ==> r.full == Payload(r.frames)
    ensures var r := Consume(events, fault, full, frames);
      |r.frames| >= |frames| && r.frames[..|frames|] == frames
    decreases |events|
  {
    if |events| > 0 {
      match events[0]
      case Closed =>
      case ErrorReceived(None) => ConsumeKeepsPayload(events[1..], fault, full, frames);
      case ErrorReceived(Some(m)) =>
      case Chunk(c) =>
        if c != "" && !WriteFails(fault, |frames|) {
          PayloadAppend(frames, c);
          ConsumeKeepsPayload(events[1..], fault, full + c, frames + [Frame(c)]);
          var r := Consume(events[1..], fault, full + c, frames + [Frame(c)]);
          assert r.frames[..|frames|] == (r.frames[..|frames| + 1])[..|frames|];
        } else if c == "" {
          ConsumeKeepsPayload(events[1..], fault, full, frames);
        }
    }
  }

  /** Without a write fault, a failure message from the model always ends the loop with that failure. */
  lemma {:induction false} ModelErrorStopsLoop(events: seq<StreamEvent>, k: nat, m: string, full: string, frames: seq<string>)
    requires k < |events| && events[k] == ErrorReceived(Some(m))
    requires forall j :: 0 <= j < k ==> events[j].Chunk? || events[j] == ErrorReceived(None)
    ensures Consume(events, None, full, frames).end == ModelFailed(m)
    decreases k
  {
    if k > 0 {
      assert forall j :: 0 <= j < k - 1 ==> events[1..][j] == events[j + 1];
      match events[0]
      case ErrorReceived(_) => ModelErrorStopsLoop(events[1..], k - 1, m, full, frames);
      case Chunk(c) =>
        if c == "" {
          ModelErrorStopsLoop(events[1..], k - 1, m, full, frames);
        } else {
          ModelErrorStopsLoop(events[1..], k - 1, m, full + c, frames + [Frame(c)]);
        }
    }
  }

  /** The select loop as the handler runs it, iteration by iteration. */
  method RunStream(events: seq<StreamEvent>, fault: Option<WriteFault>) returns (r: StreamResult)
    ensures r == Consume(events, fault, "", [])
    ensures r.end.Finished? ==> r.full == Payload(r.frames)
  {
    ConsumeKeepsPayload(events, fault, "", []);
    var full := "";
    var frames: seq<string> := [];
    var i := 0;
    while i < |events|
      invariant 0 <= i <= |events|
      invariant Consume(events[i..], fault, full, frames) == Consume(events, fault, "", [])
    {
      match events[i] {
        case Closed =>
          return StreamResult(full, frames, Finished);
        case ErrorReceived(err) =>
          if err.Some? {
            return StreamResult(full, frames, ModelFailed(err.value));
          }
        case Chunk(c) =>
          if c != "" {
            full := full + c;
            if WriteFails(fault, |frames|) {
              return StreamResult(full, frames, WriteFailed(fault.value.message));
            }
            frames := frames + [Frame(c)];
          }
      }
      assert events[i..][1..] == events[i + 1..];
      i := i + 1;
    }
    return StreamResult(full, frames, Finished);
  }

  // ---------------------------------------------------------------- the handler

  /**
   * What the handler meets: query and write outcomes, the clock at entry, the
   * clock reads of the two new messages, and the time gorm gives UpdatedAt on the save.
   */
  datatype ChatEnv = ChatEnv(
    profileLookupError: Option<string>,
    chatLookupError: Option<string>,
    saveError: Option<string>,
    writeFault: Option<WriteFault>,
    now: int,
    userClock: MessageClock,
    replyClock: MessageClock,
    savedAt: int)

  datatype ChatError = AppFailure(error: AppError) | RawFailure(message: string)

  /** The frames sent, the error returned (None for nil), and the chat table afterwards. */
  datatype ChatReply = ChatReply(frames: seq<string>, error: Option<ChatError>, chats: seq<ChatSet>)

  predicate ChatOf(user: string, chatId: string, c: ChatSet) {
    c.id == chatId && c.userId == user && Live(c)
  }

  /** The KST calendar day of `now`, both ends included as `Before`/`After` test them. */
  predicate InKstDay(createdAt: int, now: int) {
    var start := Clock.LocalDayStart(now, Clock.KstOffset);
    start <= createdAt <= start + Clock.Day
  }

  /** HandleChat; `respond` is the language model's stream for a prompt. */
  function HandleChat(
    profiles: seq<UserProfile>, chats: seq<ChatSet>, user: string, chatId: string, message: string,
    respond: seq<LlmMessage> -> seq<StreamEvent>, env: ChatEnv): (o: ChatReply)
    ensures o.error.None? ==> |o.frames| > 0 && o.frames[|o.frames| - 1] == DoneFrame
    ensures o.chats == chats || (env.saveError.None? && |o.chats| == |chats|)
  {
    if message == "" then
      ChatReply([], Some(AppFailure(NewBadRequestError(InvalidRequestText, MessageRequiredMessage))), chats)
    else
      var profile := Tables.FindFirst(profiles, (p: UserProfile) => p.id == user);
      if env.profileLookupError.Some? || profile.None? then
        ChatReply([], Some(AppFailure(NewBadRequestError(InvalidInput, ProfileNotFoundMessage))), chats)
      else if env.chatLookupError.Some? then
        ChatReply([], Some(AppFailure(NewInternalError(DatabaseError, ChatLookupFailedMessage, env.chatLookupError))), chats)
      else
        match Tables.FindFirst(chats, (c: ChatSet) => ChatOf(user, chatId, c))
        case None => ChatReply([], Some(AppFailure(NewNotFoundError(ResourceNotFound, ChatNotFoundMessage))), chats)
        case Some(k) =>
          if !InKstDay(chats[k].createdAt, env.now) then
            ChatReply([], Some(AppFailure(NewBadRequestError(InvalidInput, AfterMidnightMessage))), chats)
          else
            Converse(chats, k, profiles[profile.value].name, message, respond, env)
  }

  /** The rest of HandleChat once the chat row `k` is found and is today's: stream the answer, then save. */
  function Converse(
    chats: seq<ChatSet>, k: nat, userName: string, message: string,
    respond: seq<LlmMessage> -> seq<StreamEvent>, env: ChatEnv): (o: ChatReply)
    requires k < |chats|
    ensures o.error.None? ==> |o.frames| > 0 && o.frames[|o.frames| - 1] == DoneFrame
    ensures o.chats == chats || (env.saveError.None? && |o.chats| == |chats| && o.chats == chats[k := o.chats[k]])
  {
    var chat := chats[k];
    var asked := AddMessage(chat.data, UserRole, message, env.userClock);
    var r := Consume(respond(BuildPrompt(userName, asked)), env.writeFault, "", []);
    match r.end
    case ModelFailed(m) =>
      ChatReply(r.frames, Some(AppFailure(NewInternalError(ModelErrorCode, ModelFailedMessage, Some("error details: " + m)))), chats)
    case WriteFailed(m) =>
      ChatReply(r.frames, Some(AppFailure(NewInternalError(StreamErrorCode, ChunkFailedMessage, Some("error details: " + m)))), chats)
    case Finished =>
      var answered := AddMessage(asked, AssistantRole, r.full, env.replyClock);
      var saved := chat.(data := answered, updatedAt := env.savedAt);
      if env.saveError.Some? then
        ChatReply(r.frames, Some(AppFailure(NewInternalError(DatabaseError, SaveFailedMessage, env.saveError))), chats)
      else if WriteFails(env.writeFault, |r.frames|) then
        ChatReply(r.frames, Some(RawFailure(env.writeFault.value.message)), chats[k := saved])
      else
        ChatReply(r.frames + [DoneFrame], None, chats[k := saved])
  }

  /** The rejection for each failed gate, in the order the handler checks them; none of them writes. */
  lemma HandleChatGates(
    profiles: seq<UserProfile>, chats: seq<ChatSet>, user: string, chatId: string, message: string,
    respond: seq<LlmMessage> -> seq<StreamEvent>, env: ChatEnv)
    ensures var o := HandleChat(profiles, chats, user, chatId, message, respond, env);
      && (message == "" ==>
            o == ChatReply([], Some(AppFailure(NewBadRequestError(InvalidRequestText, MessageRequiredMessage))), chats))
      && (message != "" && (env.profileLookupError.Some? || forall i :: 0 <= i < |profiles| ==> profiles[i].id != user) ==>
            o == ChatReply([], Some(AppFailure(NewBadRequestError(InvalidInput, ProfileNotFoundMessage))), chats))
      && (message != "" && env.profileLookupError.None? && (exists i :: 0 <= i < |profiles| && profiles[i].id == user)
          && env.chatLookupError.None? && (forall i :: 0 <= i < |chats| ==> !ChatOf(user, chatId, chats[i])) ==>
            o == ChatReply([], Some(AppFailure(NewNotFoundError(ResourceNotFound, ChatNotFoundMessage))), chats))
  {
  }

  /** The two gates after the profile check: a failed chat lookup, and a chat that is not today's. */
  lemma HandleChatLateGates(
    profiles: seq<UserProfile>, chats: seq<ChatSet>, user: string, chatId: string, message: string,
    respond: seq<LlmMessage> -> seq<StreamEvent>, env: ChatEnv)
    ensures var o := HandleChat(profiles, chats, user, chatId, message, respond, env);
      && (message != "" && env.profileLookupError.None? && (exists i :: 0 <= i < |profiles| && profiles[i].id == user)
          && env.chatLookupError.Some? ==>
            o == ChatReply([], Some(AppFailure(NewInternalError(DatabaseError, ChatLookupFailedMessage, env.chatLookupError))), chats))
      && (message != "" && env.profileLookupError.None? && (exists i :: 0 <= i < |profiles| && profiles[i].id == user)
          && env.chatLookupError.None? && FirstChatNotToday(chats, user, chatId, env.now) ==>
            o == ChatReply([], Some(AppFailure(NewBadRequestError(InvalidInput, AfterMidnightMessage))), chats))
  {
    if message != "" && env.profileLookupError.None? && env.chatLookupError.None? && FirstChatNotToday(chats, user, chatId, env.now) {
      var k :| 0 <= k < |chats| && ChatOf(user, chatId, chats[k])
        && (forall j :: 0 <= j < k ==> !ChatOf(user, chatId, chats[j]))
        && !InKstDay(chats[k].createdAt, env.now);
      var found := Tables.FindFirst(chats, (c: ChatSet) => ChatOf(user, chatId, c));
      assert found == Some(k);
    }
  }

  /** The first live chat `chatId` of `user` exists and was not created on the KST day of `now`. */
  predicate FirstChatNotToday(chats: seq<ChatSet>, user: string, chatId: string, now: int) {
    exists k :: 0 <= k < |chats| && ChatOf(user, chatId, chats[k])
      && (forall j :: 0 <= j < k ==> !ChatOf(user, chatId, chats[j]))
      && !InKstDay(chats[k].createdAt, now)
  }

  /** A chat of another user, or a deleted one, is not found: the handler never touches it. */
  lemma OtherUsersChatNotFound(
    profiles: seq<UserProfile>, chats: seq<ChatSet>, user: string, chatId: string, message: string,
    respond: seq<LlmMessage> -> seq<StreamEvent>, env: ChatEnv)
    requires message != "" && env.profileLookupError.None? && env.chatLookupError.None?
    requires exists i :: 0 <= i < |profiles| && profiles[i].id == user
    requires forall i :: 0 <= i < |chats| && chats[i].id == chatId ==> chats[i].userId != user || !Live(chats[i])
    ensures HandleChat(profiles, chats, user, chatId, message, respond, env).error
         == Some(AppFailure(NewNotFoundError(ResourceNotFound, ChatNotFoundMessage)))
    ensures HandleChat(profiles, chats, user, chatId, message, respond, env).chats == chats
  {
  }

  /**
   * `after` is `before` followed by exactly two messages, the user's text and
   * then the assistant's reply, with the count's lag kept.
   */
  predicate SavedExchange(before: ChatData, after: ChatData, message: string, reply: string) {
    var old_ := before.messages;
    var new_ := after.messages;
    && |new_| == |old_| + 2 && new_[..|old_|] == old_
    && new_[|old_|].role == UserRole && new_[|old_|].content == message
    && new_[|old_| + 1].role == AssistantRole && new_[|old_| + 1].content == reply
    && CountLag(after) == CountLag(before)
  }

  /** Adding the user's message and then the reply saves exactly that exchange. */
  lemma ExchangeAppended(cd: ChatData, message: string, reply: string, userClock: MessageClock, replyClock: MessageClock)
    ensures var asked := AddMessage(cd, UserRole, message, userClock);
      SavedExchange(cd, AddMessage(asked, AssistantRole, reply, replyClock), message, reply)
  {
    var asked := AddMessage(cd, UserRole, message, userClock);
    var answered := AddMessage(asked, AssistantRole, reply, replyClock);
    assert answered.messages[..|cd.messages|] == cd.messages by {
      assert answered.messages[..|asked.messages|] == asked.messages;
    }
    AddMessageKeepsLag(cd, UserRole, message, userClock);
    AddMessageKeepsLag(asked, AssistantRole, reply, replyClock);
  }

  /** Once the chat is found, a turn that ends without error has saved exactly the exchange into row k. */
  lemma ConverseSavesExchange(
    chats: seq<ChatSet>, k: nat, userName: string, message: string,
    respond: seq<LlmMessage> -> seq<StreamEvent>, env: ChatEnv)
    requires k < |chats|
    ensures var o := Converse(chats, k, userName, message, respond, env);
      o.error.None? ==>
      && |o.frames| > 0
      && o.chats == chats[k := o.chats[k]]
      && SavedExchange(chats[k].data, o.chats[k].data, message, Payload(o.frames[..|o.frames| - 1]))
  {
    if Converse(chats, k, userName, message, respond, env).error.Some? {
      return;
    }
    var asked := AddMessage(chats[k].data, UserRole, message, env.userClock);
    var events := respond(BuildPrompt(userName, asked));
    var r := Consume(events, env.writeFault, "", []);
    ConsumeKeepsPayload(events, env.writeFault, "", []);
    var saved := chats[k].(data := AddMessage(asked, AssistantRole, r.full, env.replyClock), updatedAt := env.savedAt);
    var o := Converse(chats, k, userName, message, respond, env);
    assert o == ChatReply(r.frames + [DoneFrame], None, chats[k := saved]);
    assert o.frames[..|o.frames| - 1] == r.frames;
    ExchangeAppended(chats[k].data, message, r.full, env.userClock, env.replyClock);
  }

  /**
   * A turn that completes without error stores, in the chat it found, the
   * old conversation followed by exactly two messages: the user's text and
   * the assistant's reply, which is the concatenation of the chunk frames the
   * client received. No other row changes, and the count's lag is kept.
   */
  lemma CompletedTurnSavesExchange(
    profiles: seq<UserProfile>, chats: seq<ChatSet>, user: string, chatId: string, message: string,
    respond: seq<LlmMessage> -> seq<StreamEvent>, env: ChatEnv)
    ensures var o := HandleChat(profiles, chats, user, chatId, message, respond, env);
      o.error.None? ==>
        exists k :: 0 <= k < |chats| && ChatOf(user, chatId, chats[k])
          && InKstDay(chats[k].createdAt, env.now)
          && o.chats == chats[k := o.chats[k]]
          && SavedExchange(chats[k].data, o.chats[k].data, message, Payload(o.frames[..|o.frames| - 1]))
  {
    if HandleChat(profiles, chats, user, chatId, message, respond, env).error.Some? {
      return;
    }
    var profile := Tables.FindFirst(profiles, (p: UserProfile) => p.id == user);
    var k := Tables.FindFirst(chats, (c: ChatSet) => ChatOf(user, chatId, c)).value;
    var name := profiles[profile.value].name;
    assert HandleChat(profiles, chats, user, chatId, message, respond, env) == Converse(chats, k, name, message, respond, env);
    ConverseSavesExchange(chats, k, name, message, respond, env);
  }

  /** A model failure or a failed chunk write ends the turn without saving anything. */
  lemma StreamFailureSavesNothing(
    profiles: seq<UserProfile>, chats: seq<ChatSet>, user: string, chatId: string, message: string,
    respond: seq<LlmMessage> -> seq<StreamEvent>, env: ChatEnv)
    requires var e := HandleChat(profiles, chats, user, chatId, message, respond, env).error;
      e.Some? && e.value.AppFailure? && e.value.error.code in {ModelErrorCode, StreamErrorCode}
    ensures HandleChat(profiles, chats, user, chatId, message, respond, env).chats == chats
  {
  }

  /**
   * The day check admits a chat created exactly at the next KST midnight
   * (After is strict) and refuses one created a nanosecond before today's.
   */
  lemma DayWindowEnds(now: int)
    ensures InKstDay(Clock.LocalDayStart(now, Clock.KstOffset) + Clock.Day, now)
    ensures !InKstDay(Clock.LocalDayStart(now, Clock.KstOffset) - 1, now)
    ensures InKstDay(now, now)
  {
  }
}
