/**
 * The delivery protocol shared by both notification kinds: one multicast to all of the
 * recipient's tokens, then the classification of the gateway's per-token responses into the
 * list of permanently dead tokens, which feeds the cleanup.
 */
module Delivery {
  import opened Wrappers
  import opened TokenStore

  /** The two gateway error codes that mark a token as permanently dead. */
  const INVALID_REGISTRATION_TOKEN := "messaging/invalid-registration-token"
  const REGISTRATION_TOKEN_NOT_REGISTERED := "messaging/registration-token-not-registered"

  /** The marker every data payload carries. */
  const CLICK_ACTION := "FLUTTER_NOTIFICATION_CLICK"

  /** The gateway's answer for one token: success, or failure with an error code that may be absent. */
  datatype SendResponse = SendResponse(success: bool, errorCode: Option<string>)

  /** An unsuccessful response whose code is one of the two permanent codes. */
  predicate IsPermanentFailure(r: SendResponse) {
    !r.success &&
    (r.errorCode == Some(INVALID_REGISTRATION_TOKEN) ||
     r.errorCode == Some(REGISTRATION_TOKEN_NOT_REGISTERED))
  }

  /**
   * The failed list the classification loop builds: walking the responses in order, the token at
   * the same index is appended when its response is a permanent failure. (A response with no token
   * at its index would append `undefined`, which matches no stored token; it is skipped here.)
   */
  function FailedTokens(tokens: seq<string>, responses: seq<SendResponse>): (r: seq<string>)
    ensures |r| <= |responses|
  {
    if responses == [] then []
    else
      var k := |responses| - 1;
      FailedTokens(tokens, responses[..k]) +
        (if k < |tokens| && IsPermanentFailure(responses[k]) then [tokens[k]] else [])
  }

  /** The `forEach` over the responses that pushes dead tokens into `failedTokens`. */
  method CollectFailedTokens(tokens: seq<string>, responses: seq<SendResponse>)
    returns (failedTokens: seq<string>)
    ensures failedTokens == FailedTokens(tokens, responses)
  {
    failedTokens := [];
    for idx := 0 to |responses|
      invariant failedTokens == FailedTokens(tokens, responses[..idx])
    {
      assert responses[..idx + 1][..idx] == responses[..idx];
      var resp := responses[idx];
      if !resp.success {
        var errorCode := resp.errorCode;
        if errorCode == Some(INVALID_REGISTRATION_TOKEN) ||
           errorCode == Some(REGISTRATION_TOKEN_NOT_REGISTERED) {
          if idx < |tokens| {
            failedTokens := failedTokens + [tokens[idx]];
          }
        }
      }
    }
    assert responses[..|responses|] == responses;
  }

  /** A token is dead when some index holding it got a permanent failure. */
  ghost predicate ReportedDead(t: string, tokens: seq<string>, responses: seq<SendResponse>) {
    exists i :: 0 <= i < |responses| && i < |tokens| && tokens[i] == t && IsPermanentFailure(responses[i])
  }

  /**
   * A token is in the failed list exactly when the response at one of its indices is a permanent
   * failure; a success or any other error code never puts a token there.
   */
  lemma {:induction false} FailedTokensMembership(tokens: seq<string>, responses: seq<SendResponse>, t: string)
    ensures t in FailedTokens(tokens, responses) <==> ReportedDead(t, tokens, responses)
  {
    if responses != [] {
      var k := |responses| - 1;
      var prefix := responses[..k];
      FailedTokensMembership(tokens, prefix, t);
      if ReportedDead(t, tokens, prefix) {
        var i :| 0 <= i < |prefix| && i < |tokens| && tokens[i] == t && IsPermanentFailure(prefix[i]);
        assert responses[i] == prefix[i];
      }
      if ReportedDead(t, tokens, responses) {
        var i :| 0 <= i < |responses| && i < |tokens| && tokens[i] == t && IsPermanentFailure(responses[i]);
        if i < k {
          assert prefix[i] == responses[i];
        }
      }
    }
  }

  /** The failed list is taken from the sent tokens by index: a subsequence of them, in order. */
  lemma {:induction false} FailedTokensSubsequence(tokens: seq<string>, responses: seq<SendResponse>)
    requires |responses| <= |tokens|
    ensures Subsequence(FailedTokens(tokens, responses), tokens[..|responses|])
  {
    if responses != [] {
      var k := |responses| - 1;
      var f0 := FailedTokens(tokens, responses[..k]);
      FailedTokensSubsequence(tokens, responses[..k]);
      var b := tokens[..|responses|];
      assert b[..|b| - 1] == tokens[..k];
      if IsPermanentFailure(responses[k]) {
        var f := f0 + [tokens[k]];
        assert FailedTokens(tokens, responses) == f;
        assert f[..|f| - 1] == f0;
      } else {
        assert FailedTokens(tokens, responses) == f0 + [];
        assert f0 + [] == f0;
      }
    }
  }

  /** A multicast request: the token list, the display notification, the data payload and the channel. */
  datatype MulticastMessage = MulticastMessage(
    tokens: seq<string>,
    title: string,
    body: string,
    data: map<string, string>,
    androidChannelId: string)

  /** A multicast addressed to the tokens of one user. */
  datatype Push = Push(recipientId: string, message: MulticastMessage)

  /** The persisted in-app notification (its server-assigned creation time is not modelled). */
  datatype NotificationRecord = NotificationRecord(
    userId: string,
    notificationType: string,
    title: string,
    body: string,
    projectId: string,
    projectTitle: string,
    fromUserId: string,
    fromUserName: string,
    isRead: bool)

  /** What one handler invocation does to the outside world. */
  datatype Effects = Effects(record: Option<NotificationRecord>, sent: Option<Push>, cleanup: Write)

  /** The handler stopped before any write or send. */
  const NoEffects := Effects(None, None, NoWrite)

  /** The gateway, as a function from the request to one response per token. */
  type Gateway = MulticastMessage -> seq<SendResponse>

  /** The cleanup write that follows a send of `tokens` taken from `tokensMap`. */
  function CleanupAfterSend(userId: string, snapshot: TokenSnapshot, responses: seq<SendResponse>): Write {
    CleanupWrite(userId, FailedTokens(snapshot.tokens, responses), snapshot.tokensMap)
  }

  /**
   * The whole protocol on one token document: after the cleanup that follows a send to all its
   * tokens, an entry is gone exactly when the gateway reported its token permanently dead; entries
   * with a success or a transient error stay, unchanged.
   */
  lemma ProtocolRemovesExactlyDead(userId: string, m: TokenMap, responses: seq<SendResponse>)
    requires DistinctDevices(m)
    ensures forall e :: e in ApplyWrite(m, CleanupWrite(userId, FailedTokens(TokenValues(m), responses), m)) <==>
                        e in m && !ReportedDead(e.data.token, TokenValues(m), responses)
  {
    var failed := FailedTokens(TokenValues(m), responses);
    CleanupKeepsExactlyLive(userId, failed, m);
    forall e | e in m
      ensures e.data.token in failed <==> ReportedDead(e.data.token, TokenValues(m), responses)
    {
      FailedTokensMembership(TokenValues(m), responses, e.data.token);
    }
  }

  /** Of five responses, only the third is permanent: the failed list is the third token alone. */
  lemma FailedTokensOfFive(tokens: seq<string>, responses: seq<SendResponse>)
    requires |tokens| == 5
    requires responses == [SendResponse(false, Some("messaging/internal-error")), SendResponse(true, None),
                           SendResponse(false, Some(REGISTRATION_TOKEN_NOT_REGISTERED)),
                           SendResponse(true, None), SendResponse(true, None)]
    ensures FailedTokens(tokens, responses) == [tokens[2]]
  {
    assert responses[..1] == [responses[0]];
    assert responses[..2] == responses[..1] + [responses[1]];
    assert responses[..3] == responses[..2] + [responses[2]];
    assert responses[..4] == responses[..3] + [responses[3]];
    assert FailedTokens(tokens, responses[..1]) == [];
    assert FailedTokens(tokens, responses[..2]) == [];
    assert FailedTokens(tokens, responses[..3]) == [tokens[2]];
    assert FailedTokens(tokens, responses[..4]) == [tokens[2]];
  }

  /**
   * Five tokens: the third ("T3") is reported not registered, the first fails with some other
   * error. Only the entries holding "T3" are deleted; the one holding "T1" is kept.
   */
  lemma ThirdOfFiveNotRegistered(m: TokenMap, responses: seq<SendResponse>)
    requires TokenValues(m) == ["T1", "T2", "T3", "T4", "T5"]
    requires DistinctDevices(m)
    requires responses == [SendResponse(false, Some("messaging/internal-error")), SendResponse(true, None),
                           SendResponse(false, Some(REGISTRATION_TOKEN_NOT_REGISTERED)),
                           SendResponse(true, None), SendResponse(true, None)]
    ensures FailedTokens(TokenValues(m), responses) == ["T3"]
    ensures forall e :: e in ApplyWrite(m, CleanupWrite("B", ["T3"], m)) <==> e in m && e.data.token != "T3"
  {
    FailedTokensOfFive(TokenValues(m), responses);
    CleanupKeepsExactlyLive("B", ["T3"], m);
  }
}
