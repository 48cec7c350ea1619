/**
 * Notifications about chat messages: the other participant of the conversation gets a push
 * titled with the sender's name and carrying the (possibly shortened) message text. No in-app
 * record is written for chat messages.
 */
module ChatNotification {
  import opened Wrappers
  import opened TokenStore
  import opened Delivery
  import opened Documents

  const CHAT_CHANNEL := "chat_messages"
  const CHAT_MESSAGE := "chat_message"
  const DEFAULT_SENDER_NAME := "Someone"

  /** The longest text sent in full, and what replaces the rest of a longer one. */
  const MAX_BODY_LENGTH := 100
  const ELLIPSIS := "..."

  /** `participants || []`: a missing field is an empty list. */
  function Participants(conversation: ConversationDoc): seq<string> {
    conversation.participants.GetOr([])
  }

  /** `participants.find((uid) => uid !== senderId)`: the first participant who is not the sender. */
  function FindRecipient(participants: seq<string>, senderId: string): (r: Option<string>)
    ensures r.Some? ==> r.value != senderId && r.value in participants
    ensures r.None? <==> forall p :: p in participants ==> p == senderId
  {
    if participants == [] then None
    else if participants[0] != senderId then Some(participants[0])
    else
      assert participants == [participants[0]] + participants[1..];
      FindRecipient(participants[1..], senderId)
  }

  /** The recipient found is the first participant who is not the sender: all before it are the sender. */
  lemma {:induction false} RecipientIsFirstNonSender(participants: seq<string>, senderId: string)
    requires FindRecipient(participants, senderId).Some?
    ensures exists k :: 0 <= k < |participants| && participants[k] == FindRecipient(participants, senderId).value &&
                        forall j :: 0 <= j < k ==> participants[j] == senderId
  {
    if participants[0] == senderId {
      var rest := participants[1..];
      RecipientIsFirstNonSender(rest, senderId);
      var k :| 0 <= k < |rest| && rest[k] == FindRecipient(rest, senderId).value &&
               forall j :: 0 <= j < k ==> rest[j] == senderId;
      assert participants[k + 1] == rest[k];
      forall j | 0 <= j < k + 1 ensures participants[j] == senderId {
        if j > 0 {
          assert participants[j] == rest[j - 1];
        }
      }
    } else {
      assert participants[0] == FindRecipient(participants, senderId).value;
    }
  }

  /** The notification body: a text over the limit keeps its first 100 characters and gets "...". */
  function Truncate(text: string): (r: string)
    ensures |text| <= MAX_BODY_LENGTH ==> r == text
    ensures |text| > MAX_BODY_LENGTH ==>
              |r| == MAX_BODY_LENGTH + |ELLIPSIS| && r[..MAX_BODY_LENGTH] == text[..MAX_BODY_LENGTH] &&
              r[MAX_BODY_LENGTH..] == ELLIPSIS
  {
    if |text| > MAX_BODY_LENGTH then text[..MAX_BODY_LENGTH] + ELLIPSIS else text
  }

  /** The data payload of a chat push. */
  function ChatData(conversationId: string, senderId: string, senderName: string): map<string, string> {
    map["type" := CHAT_MESSAGE,
        "conversationId" := conversationId,
        "senderId" := senderId,
        "senderName" := senderName,
        "click_action" := CLICK_ACTION]
  }

  /** The multicast request for a chat message. */
  function ChatMessage(tokens: seq<string>, conversationId: string, senderId: string, senderName: string,
                       text: string): MulticastMessage {
    MulticastMessage(tokens, senderName, Truncate(text), ChatData(conversationId, senderId, senderName), CHAT_CHANNEL)
  }

  /**
   * The recipient `onNewChatMessage` resolves: none without message data or conversation, and none
   * when no participant differs from the sender (an empty id counts as not found).
   */
  function ChatRecipient(store: Store, conversationId: string, message: Option<MessageDoc>): (r: Option<string>)
    ensures r.Some? ==>
              && message.Some? && conversationId in store.conversations
              && r.value != message.value.senderId
              && r.value in Participants(store.conversations[conversationId])
              && r.value != ""
    ensures message.Some? && conversationId in store.conversations &&
            (forall p :: p in Participants(store.conversations[conversationId]) ==> p == message.value.senderId)
            ==> r.None?
    ensures message.Some? && conversationId in store.conversations ==>
              var found := FindRecipient(Participants(store.conversations[conversationId]), message.value.senderId);
              r == (if found.Some? && found.value != "" then found else None)
  {
    if message.None? || conversationId !in store.conversations then None
    else
      var recipientId := FindRecipient(Participants(store.conversations[conversationId]), message.value.senderId);
      if recipientId.None? || recipientId.value == "" then None else recipientId
  }

  /**
   * What `onNewChatMessage` does: with a recipient, a readable text and at least one token, one push
   * to all the recipient's tokens followed by the cleanup of the dead ones; otherwise nothing.
   */
  function ChatDelivery(store: Store, gateway: Gateway, conversationId: string, message: Option<MessageDoc>)
    : (e: Effects)
    ensures e.record == None
    ensures e.sent.None? ==> e.cleanup == NoWrite
    ensures e.sent.Some? <==>
              && ChatRecipient(store, conversationId, message).Some?
              && GetUserTokens(store.fcmTokens, ChatRecipient(store, conversationId, message).value).tokens != []
              && message.value.text.Some?
    ensures e.sent.Some? ==>
              var recipientId := ChatRecipient(store, conversationId, message).value;
              var senderId := message.value.senderId;
              var senderName := UserName(store.users, senderId, DEFAULT_SENDER_NAME);
              var m := e.sent.value.message;
              && e.sent.value.recipientId == recipientId
              && recipientId != senderId
              && m.tokens == GetUserTokens(store.fcmTokens, recipientId).tokens
              && m.title == senderName
              && m.body == Truncate(message.value.text.value)
              && m.data == ChatData(conversationId, senderId, senderName)
              && e.cleanup == CleanupAfterSend(recipientId, GetUserTokens(store.fcmTokens, recipientId), gateway(m))
  {
    var recipient := ChatRecipient(store, conversationId, message);
    if recipient.None? then NoEffects
    else
      var recipientId := recipient.value;
      var senderId := message.value.senderId;
      var senderName := UserName(store.users, senderId, DEFAULT_SENDER_NAME);
      var snapshot := GetUserTokens(store.fcmTokens, recipientId);
      if |snapshot.tokens| == 0 || message.value.text.None? then NoEffects
      else
        var m := ChatMessage(snapshot.tokens, conversationId, senderId, senderName, message.value.text.value);
        Effects(None, Some(Push(recipientId, m)), CleanupAfterSend(recipientId, snapshot, gateway(m)))
  }

  /** `onNewChatMessage`, step by step, with the classification and cleanup loops inline. */
  method OnNewChatMessage(store: Store, gateway: Gateway, conversationId: string, message: Option<MessageDoc>)
    returns (e: Effects)
    ensures e == ChatDelivery(store, gateway, conversationId, message)
  {
    var recipient := ChatRecipient(store, conversationId, message);
    if recipient.None? {
      return NoEffects;
    }
    var recipientId := recipient.value;
    var senderId := message.value.senderId;
    var senderName := UserName(store.users, senderId, DEFAULT_SENDER_NAME);
    var snapshot := GetUserTokens(store.fcmTokens, recipientId);
    if |snapshot.tokens| == 0 || message.value.text.None? {
      return NoEffects;
    }
    var m := ChatMessage(snapshot.tokens, conversationId, senderId, senderName, message.value.text.value);
    var responses := gateway(m);
    var failedTokens := CollectFailedTokens(snapshot.tokens, responses);
    var cleanup := CleanupInvalidTokens(recipientId, failedTokens, snapshot.tokensMap);
    e := Effects(None, Some(Push(recipientId, m)), cleanup);
  }

  /** In a two-party conversation each participant's message goes to the other one. */
  lemma TwoPartyRecipient(a: string, b: string)
    requires a != b
    ensures FindRecipient([a, b], a) == Some(b)
    ensures FindRecipient([a, b], b) == Some(a)
  {
  }

  /** Shortening is idempotent: a shortened body is not shortened again. */
  lemma TruncateIdempotent(text: string)
    ensures Truncate(Truncate(text)) == Truncate(text)
  {
  }

  /** A short message from Alice reaches the other participant unchanged, titled with her name. */
  lemma AliceGreetsB(store: Store, gateway: Gateway)
    requires store.users == map["A" := UserDoc(Some("Alice"))]
    requires store.conversations == map["C" := ConversationDoc(Some(["A", "B"]))]
    requires store.fcmTokens == map["B" := TokensDoc(Some([Entry("phone", TokenData("tb", "android", 0))]))]
    ensures
      var e := ChatDelivery(store, gateway, "C", Some(MessageDoc("A", Some("Hello there, how are you?"))));
      && e.record == None
      && e.sent.Some?
      && e.sent.value.recipientId == "B"
      && e.sent.value.message.tokens == ["tb"]
      && e.sent.value.message.title == "Alice"
      && e.sent.value.message.body == "Hello there, how are you?"
      && e.sent.value.message.data["type"] == "chat_message"
  {
    TwoPartyRecipient("A", "B");
    assert UserName(store.users, "A", DEFAULT_SENDER_NAME) == "Alice";
    assert GetUserTokens(store.fcmTokens, "B").tokens == ["tb"];
  }
}
