/**
 * The chat records: a chat set holds its conversation as a JSON document
 * (messages plus metadata) in one column; pre-chats hold the assistant's
 * opening lines; user profiles give the name the chat prompt mentions.
 *
 * JSON encoding and decoding are parameters: `Value` and `Scan` only route
 * driver values to them.
 */
module ChatModel {
  import opened Wrappers
  import opened Roles
  import opened Driver
  import Ids
  import Clock

  const MessagePrefix: string := "MSG"
  const ChatSetPrefix: string := "CH_SET"
  const PreChatPrefix: string := "PRE_CHAT"

  datatype Message = Message(id: string, role: MessageRole, content: string, timestamp: int)

  datatype ChatMetadata = ChatMetadata(messageCount: int, lastMessageAt: int)

  datatype ChatData = ChatData(messages: seq<Message>, metadata: ChatMetadata)

  /** NewChatData: no messages, a zero count, last-message time set to now. */
  function NewChatData(now: int): (cd: ChatData)
    ensures cd.messages == [] && cd.metadata == ChatMetadata(0, now)
  {
    ChatData([], ChatMetadata(0, now))
  }

  /**
   * The two clock reads NewMessage makes: `GenerateID` reads the clock and a
   * UUID for the ID, and `time.Now()` is read again afterwards for Timestamp.
   */
  datatype MessageClock = MessageClock(idStamp: Ids.IdStamp, timestamp: int)

  /** The clock does not run backwards between the two reads. */
  predicate Forward(c: MessageClock) {
    c.idStamp.unixNano <= c.timestamp
  }

  /** NewMessage: a fresh "MSG" ID and, read after it, the current time. */
  function NewMessage(role: MessageRole, content: string, clock: MessageClock): (m: Message)
    ensures m.role == role && m.content == content && m.timestamp == clock.timestamp
    ensures Ids.StartsWith(m.id, MessagePrefix + "_")
  {
    var id := Ids.GenerateID(MessagePrefix, clock.idStamp);
    assert id[..|MessagePrefix| + 1] == MessagePrefix + "_";
    Message(id, role, content, clock.timestamp)
  }

  /**
   * A message's ID carries the millisecond of the first clock read, which is
   * never later than the millisecond of its own timestamp.
   */
  lemma MessageIdNotAfterTimestamp(role: MessageRole, content: string, clock: MessageClock)
    requires Forward(clock)
    ensures var m := NewMessage(role, content, clock);
      exists millis :: Ids.ParseID(MessagePrefix, m.id) == Some((millis, Ids.RandomSeed(clock.idStamp.uuid)))
        && millis <= Ids.UnixMillis(m.timestamp)
  {
    Ids.ParseGeneratedID(MessagePrefix, clock.idStamp);
    Ids.UnixMillisMonotone(clock.idStamp.unixNano, clock.timestamp);
    var millis := Ids.UnixMillis(clock.idStamp.unixNano);
    assert Ids.ParseID(MessagePrefix, NewMessage(role, content, clock).id) == Some((millis, Ids.RandomSeed(clock.idStamp.uuid)));
  }

  /** The two reads can straddle a millisecond: an ID stamped in millisecond 0 on a message timed in millisecond 1. */
  lemma MessageIdMayTrailTimestamp(role: MessageRole, content: string, u: Ids.Uuid)
    ensures var clock := MessageClock(Ids.IdStamp(999_999, u), 1_000_000);
      var m := NewMessage(role, content, clock);
      && Forward(clock)
      && Ids.ParseID(MessagePrefix, m.id) == Some((0, Ids.RandomSeed(u)))
      && Ids.UnixMillis(m.timestamp) == 1
  {
    Ids.ParseGeneratedID(MessagePrefix, Ids.IdStamp(999_999, u));
    Ids.DivUnique(999_999, Clock.Millisecond, 0, 999_999);
    Ids.DivUnique(1_000_000, Clock.Millisecond, 1, 0);
  }

  /** ChatData.AddMessage: append one new message, bump the count, move the last-message time to it. */
  function AddMessage(cd: ChatData, role: MessageRole, content: string, clock: MessageClock): (r: ChatData)
    ensures |r.messages| == |cd.messages| + 1
    ensures r.messages[..|cd.messages|] == cd.messages
    ensures r.messages[|cd.messages|] == NewMessage(role, content, clock)
    ensures r.metadata.messageCount == cd.metadata.messageCount + 1
    ensures r.metadata.lastMessageAt == r.messages[|cd.messages|].timestamp
  {
    var m := NewMessage(role, content, clock);
    ChatData(cd.messages + [m], ChatMetadata(cd.metadata.messageCount + 1, m.timestamp))
  }

  /** How far the stored count lags the messages actually held. */
  function CountLag(cd: ChatData): int {
    |cd.messages| - cd.metadata.messageCount
  }

  /** AddMessage keeps the count in step with the messages: whatever lag there was, it stays. */
  lemma AddMessageKeepsLag(cd: ChatData, role: MessageRole, content: string, clock: MessageClock)
    ensures CountLag(AddMessage(cd, role, content, clock)) == CountLag(cd)
  {
  }

  /** Data built only through NewChatData and AddMessage counts its messages exactly. */
  lemma NewChatDataCountsExactly(now: int, role: MessageRole, content: string, clock: MessageClock)
    ensures CountLag(NewChatData(now)) == 0
    ensures CountLag(AddMessage(NewChatData(now), role, content, clock)) == 0
  {
  }

  // ---------------------------------------------------------------- the JSON column

  /**
   * ChatData.Scan: nil leaves the data as it was without error; a byte slice
   * is handed to the JSON decoder (which updates the data in place and may
   * fail part-way); any other dynamic type is an error naming that type.
   */
  function Scan(cd: ChatData, value: DriverValue, decode: (ChatData, seq<bv8>) -> (ChatData, Option<string>))
    : (r: (ChatData, Option<string>))
    ensures value.NullValue? ==> r == (cd, None)
    ensures value.BytesValue? ==> r == decode(cd, value.bytes)
    ensures !value.NullValue? && !value.BytesValue? ==>
      r == (cd, Some("expected []byte, got " + GoTypeName(value)))
  {
    match value
    case NullValue => (cd, None)
    case BytesValue(b) => decode(cd, b)
    case _ => (cd, Some("expected []byte, got " + GoTypeName(value)))
  }

  /** ChatData.Value: the JSON encoding as a byte slice, or the encoder's error. */
  function Value(cd: ChatData, encode: ChatData -> Result<seq<bv8>, string>): (r: Result<DriverValue, string>)
    ensures r.Success? <==> encode(cd).Success?
    ensures r.Success? ==> r.value == BytesValue(encode(cd).value)
  {
    match encode(cd)
    case Success(b) => Success(BytesValue(b))
    case Failure(m) => Failure(m)
  }

  /**
   * What the column stores reads back as the same data, from any starting
   * value, provided the JSON codec round-trips it.
   */
  lemma ValueScanRoundTrip(
    cd: ChatData, old0: ChatData,
    encode: ChatData -> Result<seq<bv8>, string>, decode: (ChatData, seq<bv8>) -> (ChatData, Option<string>))
    requires encode(cd).Success? && decode(old0, encode(cd).value) == (cd, None)
    ensures Value(cd, encode).Success?
    ensures Scan(old0, Value(cd, encode).value, decode) == (cd, None)
  {
  }

  /** A driver that hands the column over as text is refused, and the data is left as it was. */
  lemma TextColumnRejected(cd: ChatData, text: string, decode: (ChatData, seq<bv8>) -> (ChatData, Option<string>))
    ensures Scan(cd, StringValue(text), decode) == (cd, Some("expected []byte, got string"))
  {
    assert GoTypeName(StringValue(text)) == "string";
    assert "expected []byte, got " + "string" == "expected []byte, got string";
  }

  // ---------------------------------------------------------------- rows

  /** ChatSet; `deletedAt` is gorm's soft-delete column, which every query skips when set. */
  datatype ChatSet = ChatSet(
    id: string,
    userId: string,
    title: string,
    data: ChatData,
    createdAt: int,
    updatedAt: int,
    deletedAt: Option<int>)

  predicate Live(c: ChatSet) { c.deletedAt.None? }

  datatype PreChat = PreChat(id: string, content: string, createdAt: int, updatedAt: int)

  datatype UserProfile = UserProfile(
    id: string, name: string, nickname: string, organization: string, createdAt: int, updatedAt: int)

  /** BeforeCreate of the chat set: the ID is replaced, nothing else changes. */
  function CreateChatSetRow(c: ChatSet, stamp: Ids.IdStamp): (r: ChatSet)
    ensures r.(id := c.id) == c
    ensures Ids.StartsWith(r.id, ChatSetPrefix + "_")
  {
    var id := Ids.GenerateID(ChatSetPrefix, stamp);
    assert id[..|ChatSetPrefix| + 1] == ChatSetPrefix + "_";
    c.(id := id)
  }

  /** BeforeCreate of the pre-chat: the ID is replaced, nothing else changes. */
  function CreatePreChatRow(p: PreChat, stamp: Ids.IdStamp): (r: PreChat)
    ensures r.(id := p.id) == p
    ensures Ids.StartsWith(r.id, PreChatPrefix + "_")
  {
    var id := Ids.GenerateID(PreChatPrefix, stamp);
    assert id[..|PreChatPrefix| + 1] == PreChatPrefix + "_";
    p.(id := id)
  }
}
