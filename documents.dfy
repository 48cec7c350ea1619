/**
 * The documents the handlers read, as the document store holds them, and the
 * `value || "default"` reading of optional string fields.
 */
module Documents {
  import opened Wrappers
  import opened TokenStore

  /** `users/{id}`: only the display name is read. */
  datatype UserDoc = UserDoc(name: Option<string>)

  /** `projects/{id}`: the owner's id (`uid`) and the title. */
  datatype ProjectDoc = ProjectDoc(uid: string, title: Option<string>)

  /** `projects/{id}/requests/{id}`: the requesting user and the status. */
  datatype RequestDoc = RequestDoc(userId: string, status: Option<string>)

  /** `conversations/{id}`: the participant ids, a field that may be missing. */
  datatype ConversationDoc = ConversationDoc(participants: Option<seq<string>>)

  /** `conversations/{id}/messages/{id}`: the sender and the text. */
  datatype MessageDoc = MessageDoc(senderId: string, text: Option<string>)

  /** The collections the handlers read, each keyed by document id; a missing key is a missing document. */
  datatype Store = Store(
    users: map<string, UserDoc>,
    projects: map<string, ProjectDoc>,
    conversations: map<string, ConversationDoc>,
    fcmTokens: map<string, TokensDoc>)

  /**
   * `field || default` on a string field: a missing field and an empty string are both falsy,
   * so both give the default; any other string is kept.
   */
  function OrDefault(field: Option<string>, default: string): (r: string)
    ensures field.Some? && field.value != "" ==> r == field.value
    ensures field.None? || field.value == "" ==> r == default
    ensures default != "" ==> r != ""
  {
    if field.Some? && field.value != "" then field.value else default
  }

  /** `(await users.doc(userId).get()).data()?.name || default`. */
  function UserName(users: map<string, UserDoc>, userId: string, default: string): (r: string)
    ensures userId !in users ==> r == default
    ensures userId in users ==> r == OrDefault(users[userId].name, default)
    ensures default != "" ==> r != ""
  {
    if userId in users then OrDefault(users[userId].name, default) else default
  }
}
