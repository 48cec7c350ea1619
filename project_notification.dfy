/**
 * Notifications about contribution requests: the owner hears of a new request, the requester
 * hears when it is accepted or rejected. Each notification is persisted as an in-app record
 * and pushed to the recipient's devices.
 */
module ProjectNotification {
  import opened Wrappers
  import opened TokenStore
  import opened Delivery
  import opened Documents

  const PROJECT_CHANNEL := "project_notifications"
  const DEFAULT_PROJECT_TITLE := "a project"
  const DEFAULT_REQUESTER_NAME := "Someone"
  const DEFAULT_OWNER_NAME := "The project owner"

  const PENDING := "pending"
  const ACCEPTED := "accepted"
  const REJECTED := "rejected"

  const REQUEST_RECEIVED := "request_received"
  const REQUEST_ACCEPTED := "request_accepted"
  const REQUEST_REJECTED := "request_rejected"

  /** The display part of a notification. */
  datatype Notification = Notification(title: string, body: string)

  /** The metadata every project notification carries. */
  datatype NotificationData = NotificationData(
    notificationType: string,
    projectId: string,
    projectTitle: string,
    fromUserId: string,
    fromUserName: string)

  /** Who is to be notified, and with what: the arguments of `sendNotificationToUser`. */
  datatype Notice = Notice(recipientId: string, notification: Notification, data: NotificationData)

  /** The in-app record: unread, addressed to the recipient, carrying the notification and its metadata. */
  function NewRecord(recipientId: string, notification: Notification, data: NotificationData): NotificationRecord {
    NotificationRecord(recipientId, data.notificationType, notification.title, notification.body,
                       data.projectId, data.projectTitle, data.fromUserId, data.fromUserName, false)
  }

  /** The data payload: the metadata plus the click marker. */
  function DataPayload(data: NotificationData): map<string, string> {
    map["type" := data.notificationType,
        "projectId" := data.projectId,
        "projectTitle" := data.projectTitle,
        "fromUserId" := data.fromUserId,
        "fromUserName" := data.fromUserName,
        "click_action" := CLICK_ACTION]
  }

  /** The multicast request for a project notification. */
  function ProjectMessage(tokens: seq<string>, notification: Notification, data: NotificationData): MulticastMessage {
    MulticastMessage(tokens, notification.title, notification.body, DataPayload(data), PROJECT_CHANNEL)
  }

  /**
   * What `sendNotificationToUser` does: the in-app record is written first, so it exists even when
   * the recipient has no token; with no token nothing is sent and nothing cleaned up; otherwise one
   * multicast goes to all the recipient's tokens and the dead ones are cleaned up.
   */
  function SendToUser(fcmTokens: map<string, TokensDoc>, gateway: Gateway, recipientId: string,
                      notification: Notification, data: NotificationData): (e: Effects)
    ensures e.record == Some(NewRecord(recipientId, notification, data))
    ensures !e.record.value.isRead && e.record.value.userId == recipientId
    ensures e.sent.None? <==> GetUserTokens(fcmTokens, recipientId).tokens == []
    ensures recipientId !in fcmTokens ==> e.sent.None?
    ensures e.sent.None? ==> e.cleanup == NoWrite
    ensures e.sent.Some? ==>
              var message := e.sent.value.message;
              && e.sent.value.recipientId == recipientId
              && message == ProjectMessage(GetUserTokens(fcmTokens, recipientId).tokens, notification, data)
              && message.tokens == GetUserTokens(fcmTokens, recipientId).tokens
              && message.title == notification.title && message.body == notification.body
              && message.data == DataPayload(data)
              && message.androidChannelId == PROJECT_CHANNEL
              && "type" in message.data && message.data["type"] == data.notificationType
              && "click_action" in message.data && message.data["click_action"] == CLICK_ACTION
              && e.cleanup == CleanupAfterSend(recipientId, GetUserTokens(fcmTokens, recipientId), gateway(message))
  {
    var record := NewRecord(recipientId, notification, data);
    var snapshot := GetUserTokens(fcmTokens, recipientId);
    if |snapshot.tokens| == 0 then
      Effects(Some(record), None, NoWrite)
    else
      var message := ProjectMessage(snapshot.tokens, notification, data);
      Effects(Some(record), Some(Push(recipientId, message)),
              CleanupAfterSend(recipientId, snapshot, gateway(message)))
  }

  /** `sendNotificationToUser`, step by step. */
  method SendNotificationToUser(fcmTokens: map<string, TokensDoc>, gateway: Gateway, recipientId: string,
                                notification: Notification, data: NotificationData)
    returns (e: Effects)
    ensures e == SendToUser(fcmTokens, gateway, recipientId, notification, data)
  {
    var record := NewRecord(recipientId, notification, data);
    var snapshot := GetUserTokens(fcmTokens, recipientId);
    if |snapshot.tokens| == 0 {
      return Effects(Some(record), None, NoWrite);
    }
    var message := ProjectMessage(snapshot.tokens, notification, data);
    var responses := gateway(message);
    var failedTokens := CollectFailedTokens(snapshot.tokens, responses);
    var cleanup := CleanupInvalidTokens(recipientId, failedTokens, snapshot.tokensMap);
    e := Effects(Some(record), Some(Push(recipientId, message)), cleanup);
  }

  /** The body of the owner's notification about a new request. */
  function RequestReceivedBody(requesterName: string, projectTitle: string): string {
    requesterName + " wants to join \"" + projectTitle + "\""
  }

  /**
   * The decision of `onContributionRequest`: no notice without request data or project, and none
   * when the owner requested to join their own project; otherwise the owner is told who wants to join.
   */
  function ContributionRequestNotice(store: Store, projectId: string, request: Option<RequestDoc>)
    : (r: Option<Notice>)
    ensures r.Some? <==>
              && request.Some?
              && projectId in store.projects
              && store.projects[projectId].uid != request.value.userId
    ensures r.Some? ==>
              var project := store.projects[projectId];
              var requesterId := request.value.userId;
              var projectTitle := OrDefault(project.title, DEFAULT_PROJECT_TITLE);
              var requesterName := UserName(store.users, requesterId, DEFAULT_REQUESTER_NAME);
              && r.value.recipientId == project.uid
              && r.value.recipientId != requesterId
              && r.value.notification.title == "New Contribution Request"
              && r.value.notification.body == RequestReceivedBody(requesterName, projectTitle)
              && r.value.data == NotificationData(REQUEST_RECEIVED, projectId, projectTitle, requesterId, requesterName)
  {
    if request.None? || projectId !in store.projects then None
    else
      var requesterId := request.value.userId;
      var project := store.projects[projectId];
      var ownerId := project.uid;
      var projectTitle := OrDefault(project.title, DEFAULT_PROJECT_TITLE);
      if ownerId == requesterId then None
      else
        var requesterName := UserName(store.users, requesterId, DEFAULT_REQUESTER_NAME);
        Some(Notice(ownerId,
                    Notification("New Contribution Request", RequestReceivedBody(requesterName, projectTitle)),
                    NotificationData(REQUEST_RECEIVED, projectId, projectTitle, requesterId, requesterName)))
  }

  /** What a handler does with its decision: nothing, or one `sendNotificationToUser`. */
  function Notify(store: Store, gateway: Gateway, notice: Option<Notice>): Effects {
    match notice
    case None => NoEffects
    case Some(n) => SendToUser(store.fcmTokens, gateway, n.recipientId, n.notification, n.data)
  }

  /** `onContributionRequest`: a self-request writes no record and sends nothing. */
  method OnContributionRequest(store: Store, gateway: Gateway, projectId: string, request: Option<RequestDoc>)
    returns (e: Effects)
    ensures e == Notify(store, gateway, ContributionRequestNotice(store, projectId, request))
    ensures (request.Some? && projectId in store.projects &&
             store.projects[projectId].uid == request.value.userId) ==> e == NoEffects
    ensures e.record.Some? <==> ContributionRequestNotice(store, projectId, request).Some?
  {
    var notice := ContributionRequestNotice(store, projectId, request);
    if notice.None? {
      return NoEffects;
    }
    var n := notice.value;
    e := SendNotificationToUser(store.fcmTokens, gateway, n.recipientId, n.notification, n.data);
  }

  /** The body of the requester's notification once the owner decided. */
  function DecisionBody(projectTitle: string, accepted: bool): string {
    "Your request to join \"" + projectTitle + "\"" + (if accepted then " was accepted" else " was declined")
  }

  /** The one transition that notifies: from pending to accepted or rejected. */
  predicate IsDecision(before: Option<RequestDoc>, after: Option<RequestDoc>) {
    && before.Some? && after.Some?
    && before.value.status == Some(PENDING)
    && (after.value.status == Some(ACCEPTED) || after.value.status == Some(REJECTED))
  }

  /**
   * The decision of `onRequestStatusChange`: only a pending request that became accepted or rejected,
   * in an existing project, notifies; the requester hears it from the owner.
   */
  function StatusChangeNotice(store: Store, projectId: string, before: Option<RequestDoc>, after: Option<RequestDoc>)
    : (r: Option<Notice>)
    ensures r.Some? <==> IsDecision(before, after) && projectId in store.projects
    ensures r.Some? ==>
              var project := store.projects[projectId];
              var projectTitle := OrDefault(project.title, DEFAULT_PROJECT_TITLE);
              && r.value.recipientId == after.value.userId
              && r.value.data.projectId == projectId
              && r.value.data.projectTitle == projectTitle
              && r.value.data.fromUserId == project.uid
              && r.value.data.fromUserName == UserName(store.users, project.uid, DEFAULT_OWNER_NAME)
    ensures r.Some? && after.value.status == Some(ACCEPTED) ==>
              && r.value.data.notificationType == REQUEST_ACCEPTED
              && r.value.notification.title == "Request Accepted"
              && r.value.notification.body == DecisionBody(r.value.data.projectTitle, true)
    ensures r.Some? && after.value.status == Some(REJECTED) ==>
              && r.value.data.notificationType == REQUEST_REJECTED
              && r.value.notification.title == "Request Declined"
              && r.value.notification.body == DecisionBody(r.value.data.projectTitle, false)
  {
    if before.None? || after.None? then None
    else if before.value.status != Some(PENDING) then None
    else if after.value.status != Some(ACCEPTED) && after.value.status != Some(REJECTED) then None
    else if projectId !in store.projects then None
    else
      var requesterId := after.value.userId;
      var project := store.projects[projectId];
      var ownerId := project.uid;
      var projectTitle := OrDefault(project.title, DEFAULT_PROJECT_TITLE);
      var ownerName := UserName(store.users, ownerId, DEFAULT_OWNER_NAME);
      var isAccepted := after.value.status == Some(ACCEPTED);
      var notificationType := if isAccepted then REQUEST_ACCEPTED else REQUEST_REJECTED;
      var title := if isAccepted then "Request Accepted" else "Request Declined";
      Some(Notice(requesterId,
                  Notification(title, DecisionBody(projectTitle, isAccepted)),
                  NotificationData(notificationType, projectId, projectTitle, ownerId, ownerName)))
  }

  /** `onRequestStatusChange`: any transition other than pending to accepted or rejected does nothing. */
  method OnRequestStatusChange(store: Store, gateway: Gateway, projectId: string,
                               before: Option<RequestDoc>, after: Option<RequestDoc>)
    returns (e: Effects)
    ensures e == Notify(store, gateway, StatusChangeNotice(store, projectId, before, after))
    ensures !IsDecision(before, after) ==> e == NoEffects
    ensures e.record.Some? <==> IsDecision(before, after) && projectId in store.projects
  {
    var notice := StatusChangeNotice(store, projectId, before, after);
    if notice.None? {
      return NoEffects;
    }
    var n := notice.value;
    e := SendNotificationToUser(store.fcmTokens, gateway, n.recipientId, n.notification, n.data);
  }

  /** An update whose previous status is already accepted or rejected does not notify. */
  lemma DecisionIsTerminal(store: Store, projectId: string, decided: RequestDoc, later: Option<RequestDoc>)
    requires decided.status == Some(ACCEPTED) || decided.status == Some(REJECTED)
    ensures StatusChangeNotice(store, projectId, Some(decided), later) == None
  {
  }

  /** Accepted and rejected give two different notifications for the same request. */
  lemma AcceptedAndRejectedDiffer(store: Store, projectId: string, before: RequestDoc, requesterId: string)
    requires before.status == Some(PENDING) && projectId in store.projects
    ensures
      var accepted := StatusChangeNotice(store, projectId, Some(before), Some(RequestDoc(requesterId, Some(ACCEPTED))));
      var rejected := StatusChangeNotice(store, projectId, Some(before), Some(RequestDoc(requesterId, Some(REJECTED))));
      accepted.Some? && rejected.Some? &&
      accepted.value.notification.title != rejected.value.notification.title &&
      accepted.value.data.notificationType != rejected.value.data.notificationType
  {
  }

  /** A user without any registered device still gets the in-app record, and nothing is sent. */
  lemma NoTokensStillRecords(store: Store, gateway: Gateway, notice: Notice)
    requires GetUserTokens(store.fcmTokens, notice.recipientId).tokens == []
    ensures var e := Notify(store, gateway, Some(notice));
            e.record.Some? && !e.record.value.isRead && e.sent == None && e.cleanup == NoWrite
  {
  }

  /** A request for "Garden Build" by someone other than its owner notifies the owner. */
  lemma GardenBuildRequestReceived(store: Store)
    requires store.users == map["X" := UserDoc(Some("Xena"))]
    requires store.projects == map["P" := ProjectDoc("Y", Some("Garden Build"))]
    ensures
      var notice := ContributionRequestNotice(store, "P", Some(RequestDoc("X", Some(PENDING))));
      && notice.Some?
      && notice.value.recipientId == "Y"
      && notice.value.data.notificationType == "request_received"
      && notice.value.notification.title == "New Contribution Request"
      && notice.value.notification.body == "Xena wants to join \"Garden Build\""
  {
    assert OrDefault(Some("Garden Build"), DEFAULT_PROJECT_TITLE) == "Garden Build";
    assert UserName(store.users, "X", DEFAULT_REQUESTER_NAME) == "Xena";
    assert RequestReceivedBody("Xena", "Garden Build") == "Xena wants to join \"Garden Build\"";
  }

  /** A rejected request for "Garden Build" tells the requester it was declined. */
  lemma GardenBuildRequestDeclined(store: Store)
    requires store.projects == map["P" := ProjectDoc("Y", Some("Garden Build"))]
    ensures
      var notice := StatusChangeNotice(store, "P", Some(RequestDoc("Z", Some(PENDING))), Some(RequestDoc("Z", Some(REJECTED))));
      && notice.Some?
      && notice.value.recipientId == "Z"
      && notice.value.data.notificationType == "request_rejected"
      && notice.value.notification.title == "Request Declined"
      && notice.value.notification.body == "Your request to join \"Garden Build\" was declined"
  {
    assert OrDefault(Some("Garden Build"), DEFAULT_PROJECT_TITLE) == "Garden Build";
    assert DecisionBody("Garden Build", false) == "Your request to join \"Garden Build\" was declined";
  }
}
