# Push notifications for chat messages and contribution requests

A model of the notification back end of a project-collaboration app. Three document triggers
notify users:

- a new chat message notifies the other participant of the conversation;
- a new contribution request notifies the project's owner;
- a request that goes from `pending` to `accepted` or `rejected` notifies the requester.

Project notifications are also written as unread in-app records. Every push goes out as one
multicast to all of the recipient's registered device tokens. Tokens that the gateway reports
permanently dead are then deleted from the user's token document.

The document store and the push gateway are inputs. `Documents.Store` holds the collections as
maps keyed by document id, and a missing key is a missing document. `Delivery.Gateway` is a
function from a multicast request to the per-token responses. Each handler returns a
`Delivery.Effects` value: the record it writes, the multicast it sends, and the cleanup write
(`TokenStore.Write`) it issues.

Modules:

- `TokenStore` (token_store.dfy): the token document and its cleanup. A document's `tokens`
  object is an ordered list of `deviceId -> {token, platform, updatedAt}` entries, in the order
  that `Object.values` and `Object.entries` enumerate them. `AsMap` gives its map view.
- `Delivery` (delivery.dfy): the classification of gateway responses and the shared
  send-then-clean-up protocol.
- `Documents` (documents.dfy): the documents the handlers read, and the `field || default` rule.
- `ProjectNotification` (project_notification.dfy): `sendNotificationToUser`,
  `onContributionRequest` and `onRequestStatusChange`.
- `ChatNotification` (chat_notification.dfy): `onNewChatMessage`.
- `Wrappers` (wrappers.dfy): `Option` and a subsequence predicate.

The loops of the source are methods proved against a specification function. The classification
`forEach` is `Delivery.CollectFailedTokens`, proved equal to `FailedTokens`. The cleanup `for` is
`TokenStore.CleanupInvalidTokens`, proved equal to `CleanupWrite`. The handlers are methods that
call them. The handlers' branching is in pure functions (`ContributionRequestNotice`,
`StatusChangeNotice`, `ChatRecipient`). The chat handler repeats the classification and cleanup
loops inline in the source; the model calls the same two methods, whose behaviour is identical.

Behaviour of the code that is easy to miss:

- `x || "default"` treats an empty string as missing. So an empty project title, user name or
  sender name also takes the default (`Documents.OrDefault`).
- The chat handler tests `!recipientId` after `find`. So a first non-sender participant whose id is
  the empty string also ends the handler, even when a later participant would qualify
  (`ChatNotification.ChatRecipient`).
- `sendNotificationToUser` writes the in-app record before it reads the tokens. So the record
  exists even for a user with no device.
- The dead-token list is a list, which can hold duplicates. It is not a set.

## Model

| member | source | states |
|---|---|---|
| `TokenStore.TokenValues` | functions/src/notifications/projectNotification.ts:29 | the token list has one element per device entry, and element i is entry i's `token` field |
| `TokenStore.GetUserTokens` | functions/src/notifications/projectNotification.ts:17-32 | a missing document gives an empty list and an empty map, with no error; a document without `tokens` gives empty ones; otherwise the stored entries are returned with exactly their token values, in the same order |
| `TokenStore.CleanupWrite` | functions/src/notifications/projectNotification.ts:42-58 | an empty failed list writes nothing; a write is issued exactly when some entry's token is in the failed list; the write deletes exactly the dead devices of that user |
| `TokenStore.CleanupInvalidTokens` | functions/src/notifications/projectNotification.ts:37-59 | the loop over the entries builds exactly the `CleanupWrite` deletion set and issues the update only when that set is non-empty |
| `TokenStore.RemoveDevices` | functions/src/notifications/projectNotification.ts:49-57 | after the field deletions, an entry survives exactly when its device id was not deleted |
| `TokenStore.AsMapRemoveDevices` | functions/src/notifications/projectNotification.ts:49-57 | in the map view, deleting device fields removes exactly those keys and leaves every other key and value as it was |
| `TokenStore.CleanupKeepsExactlyLive` | functions/src/notifications/projectNotification.ts:47-51 | after the cleanup an entry is gone exactly when its own token value is in the failed list; devices sharing a dead value all go, and all other entries stay |
| `TokenStore.CleanupMapView` | functions/src/notifications/projectNotification.ts:46-58 | the document's map after the cleanup equals the map before it minus the dead device ids |
| `TokenStore.DeadDevicesByValue` | functions/src/notifications/projectNotification.ts:47-50 | a device id is marked for deletion exactly when the token stored under it is in the failed list |
| `TokenStore.CleanupIdempotent` | functions/src/notifications/projectNotification.ts:37-58 | running the cleanup again with the same failed list after the first one was applied issues no write |
| `TokenStore.RemoveDevicesKeepsOrder` | functions/src/notifications/projectNotification.ts:47-51 | the surviving entries keep their relative order |
| `Delivery.FailedTokens` | functions/src/notifications/projectNotification.ts:139-152 | the failed list has at most one token per response |
| `Delivery.CollectFailedTokens` | functions/src/notifications/projectNotification.ts:139-152 | the `forEach` over the responses pushes exactly the `FailedTokens` list |
| `Delivery.FailedTokensMembership` | functions/src/notifications/projectNotification.ts:141-150 | a token is in the failed list exactly when the response at one of its indices is unsuccessful with one of the two permanent codes; successes and other codes keep the token |
| `Delivery.FailedTokensSubsequence` | functions/src/notifications/projectNotification.ts:139-152 | the failed list is a subsequence of the sent tokens, taken by index and in order |
| `Delivery.ProtocolRemovesExactlyDead` | functions/src/notifications/projectNotification.ts:138-154 | after sending to all of a document's tokens and cleaning up, an entry is gone exactly when the gateway reported its token permanently dead; entries with a success or a transient error remain |
| `Delivery.ThirdOfFiveNotRegistered` | functions/src/notifications/projectNotification.ts:139-154 | of five tokens, with the third ("T3") reported not registered and the first failing with another error, the failed list is just "T3"; the cleanup deletes exactly the entries holding "T3" and keeps the one holding "T1" |
| `Documents.OrDefault` | functions/src/notifications/projectNotification.ts:190 | a missing or empty string field gives the default, any other value is kept, and the result is never empty when the default is not |
| `Documents.UserName` | functions/src/notifications/projectNotification.ts:204-205 | a missing user document gives the default name, otherwise the `name` field under the same rule |
| `ProjectNotification.SendToUser` | functions/src/notifications/projectNotification.ts:64-155 | the unread in-app record for the recipient is always written; nothing is sent exactly when the recipient has no token, and then nothing is cleaned up; otherwise one multicast goes to all the recipient's tokens, on the `project_notifications` channel, with the notification's title and body and a data payload of exactly the type, project id, project title, sender id, sender name and click marker, followed by the cleanup of the dead ones |
| `ProjectNotification.SendNotificationToUser` | functions/src/notifications/projectNotification.ts:64-155 | the step-by-step helper (record, token read, send, classification loop, cleanup loop) has exactly the `SendToUser` effects |
| `ProjectNotification.ContributionRequestNotice` | functions/src/notifications/projectNotification.ts:163-221 | there is a notice exactly when the request data and the project exist and the owner is not the requester; it goes to the owner, is titled "New Contribution Request", has the body `<name> wants to join "<title>"` with the defaults "Someone" and "a project", and is of type `request_received` from the requester |
| `ProjectNotification.OnContributionRequest` | functions/src/notifications/projectNotification.ts:161-229 | the handler sends the notice when there is one; a self-request writes no record and sends nothing; a record is written exactly when there is a notice |
| `ProjectNotification.StatusChangeNotice` | functions/src/notifications/projectNotification.ts:237-309 | there is a notice exactly when the status went from `pending` to `accepted` or `rejected` and the project exists; it goes to the requester from the owner (name defaults to "The project owner"); accepted gives `request_accepted` / "Request Accepted" / `...was accepted`, and rejected gives `request_rejected` / "Request Declined" / `...was declined` |
| `ProjectNotification.OnRequestStatusChange` | functions/src/notifications/projectNotification.ts:235-317 | any other transition has no effect; a record is written exactly for a decision on an existing project |
| `ProjectNotification.DecisionIsTerminal` | functions/src/notifications/projectNotification.ts:251-254 | an update whose previous status is already accepted or rejected does not notify, whatever the new status |
| `ProjectNotification.AcceptedAndRejectedDiffer` | functions/src/notifications/projectNotification.ts:291-296 | for the same pending request, acceptance and rejection both notify, with different titles and types |
| `ProjectNotification.NoTokensStillRecords` | functions/src/notifications/projectNotification.ts:76-97 | a recipient without tokens still gets the unread record, and nothing is sent or cleaned up |
| `ProjectNotification.GardenBuildRequestReceived` | functions/src/notifications/projectNotification.ts:189-221 | a request by X on "Garden Build" (owner Y) notifies Y with `request_received`, "New Contribution Request" and `Xena wants to join "Garden Build"` |
| `ProjectNotification.GardenBuildRequestDeclined` | functions/src/notifications/projectNotification.ts:277-309 | pending to rejected on "Garden Build" notifies the requester with `request_rejected`, "Request Declined" and `Your request to join "Garden Build" was declined` |
| `ChatNotification.FindRecipient` | functions/src/notifications/chatNotification.ts:47-50 | the recipient found is never the sender and is a participant; nothing is found exactly when every participant is the sender (including an empty list) |
| `ChatNotification.RecipientIsFirstNonSender` | functions/src/notifications/chatNotification.ts:50 | every participant before the recipient found is the sender |
| `ChatNotification.Truncate` | functions/src/notifications/chatNotification.ts:91-93 | text of at most 100 characters is unchanged; longer text becomes its first 100 characters followed by "...", 103 in all |
| `ChatNotification.TruncateIdempotent` | functions/src/notifications/chatNotification.ts:91-93 | shortening a shortened body changes nothing |
| `ChatNotification.ChatRecipient` | functions/src/notifications/chatNotification.ts:22-55 | a recipient exists only with message data and a conversation; given both, it is the first participant who is not the sender (`FindRecipient`) unless that id is empty, in which case there is none; it is never the sender; when every participant is the sender there is none |
| `ChatNotification.ChatDelivery` | functions/src/notifications/chatNotification.ts:20-170 | no record is ever written; a push happens exactly when there is a recipient with at least one token and a text; it goes to the recipient's tokens, titled with the sender's name (default "Someone"), with the shortened text and the `chat_message` data with conversation id, sender id, sender name and click marker, followed by the cleanup of the dead tokens; without a push nothing is cleaned up |
| `ChatNotification.OnNewChatMessage` | functions/src/notifications/chatNotification.ts:18-170 | the handler, with its classification and cleanup loops, has exactly the `ChatDelivery` effects |
| `ChatNotification.TwoPartyRecipient` | functions/src/notifications/chatNotification.ts:50 | in a two-party conversation each participant's message goes to the other one |
| `ChatNotification.AliceGreetsB` | functions/src/notifications/chatNotification.ts:59-107 | Alice's short message to B is pushed to B's token with title "Alice", the text unchanged and type `chat_message` |

## Left out

- Document reads and writes, `serverTimestamp()` and `FieldValue.delete()` are not performed. The
  store is an input map, and writes are output values (`Effects`, `Write`). The creation time of a
  record and a token's `updatedAt` are not modelled.
- The gateway call is a function parameter. Its `successCount` and `failureCount` are only logged
  and are not modelled.
- The Android priority and click action, the APNs badge and the sound are constant literals and
  are not modelled. Only the Android channel id, which differs between the two kinds, is carried.
- Logging is not modelled. The `try`/`catch` blocks are not modelled either: every path returns
  `null`, and a store or gateway call that throws midway is not modelled.
- Fields read with `as string` and no default (`userId`, `uid`, `senderId`) are taken to be present
  strings. The text of a message may be missing: reading its length would throw, so no push is sent.
- A gateway response at an index with no token would push `undefined` into the failed list. That
  value matches no stored token, so the model skips it; the resulting write is the same.
- TokenStore.ApplyWrite: device ids are taken to be plain field-path segments. The cleanup deletes
  the field path `tokens.<deviceId>`. An id containing `.` would address a nested field, so the
  entry would survive. An id with a character that field paths reject would make the `update`
  throw, and the handler would swallow the error. The model removes the entry in both cases.
- A failing cleanup `update` is not modelled, and neither is its effect on the caller.
- The bootstrap in functions/src/index.ts (app initialisation and re-exports) is not part of this model.
- Concurrent triggers are not modelled. Neither is the race between token re-registration and
  cleanup, nor a duplicate delivery of the same update event.
- Strings are sequences of characters. `substring` on UTF-16 code units is not modelled.
