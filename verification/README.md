# A messaging backend, modelled and proved

The backend stores users, sessions, conversations, messages and files in PostgreSQL and
an object bucket, and keeps its WebSocket connections in two in-memory maps. This project
models its cores and proves what they keep, in every run:

* **Sessions** (`Sessions`, `SessionProtocol`, `SessionGrants`): refresh tokens that rotate
  under a row lock with a replay window of 5 s, among concurrent requests, logouts, expiry
  and reuse detection. A token is the claims it signs, so two tokens signed in one second are one
  token, and hashing is injective. Expiry is `exp` of section 4.1.4 of RFC 7519.
* **Conversations** (`PrivateKeys`, `Spelling`, `Groups`, `Integrity`, `Memberships`,
  `LiveMembers`, `GroupConcurrency`, `ConversationService`): roles, invitations, soft
  deletion, ownership and the event log. There are two models: operations one after the
  other, and the same operations with guards that read outside their transaction. In the
  second a commit may rest on anything that was true at any earlier moment.
* **Pagination** (`ConversationList`, `History`, `GroupHistory`, `Visibility`): keyset
  cursors against the order they stand for, whole walks against the list sorted once, and
  exactly when a walk ends and is complete.
* **Messages and files** (`Messaging`, `Bookkeeping`, `SerialRuns`, `MessageService`,
  `OfflineSync`, `AdminService`, `FileStore`, `Cleanup`): deliveries, unread counters,
  uploads that become attachments, cascades, send operations split into what they read and
  the transaction that rests on it, and the nightly removal as separate steps among live
  traffic.
* **Effects** (`Outcomes`, `Removals`, `Frames`): who may do what, what exactly comes of it,
  whom a message reaches, what a deletion takes, and that a step leaves every conversation
  it is not about and everybody else's belongings as they are, in every run.
* **Connections** (`Connections`, `ConnectionRuns`): two maps under every interleaving of
  handshake, token messages, change of user and closing.

`Store` is the relational store as a value: keyed tables are finite maps, tables that are
only scanned are sequences in insertion order, and deletions cascade as the entities
declare. `Database` is the same store as an object whose tables are updated in place, with
transactions that roll back; `ConversationService`, `MessageService`, `AdminService`,
`OfflineSync` and `Sessions` hold the services as classes whose methods are tied to the
functions the lemmas are about.

Ids are UUID values, except in `Spelling`: a claim about private conversations elsewhere
is about ids in the spelling of the database, and `Spelling` says what happens otherwise.

A run is a sequence of steps; a step that is not enabled changes nothing. Identifiers that
the program draws at random are parameters of the steps, checked to be new where the
database would refuse a repetition. The clock is part of the state and never goes back.

## What the code does that its documentation does not say

* `created_at` and `updated_at` are stamped by PostgreSQL in microseconds, and a cursor's
  stamp comes back through a JavaScript Date, which keeps milliseconds. Both cursor
  clauses therefore skip rows of the cursor's own millisecond. `ConversationList` and
  `History` prove exactly when nothing is lost.
* An invitation that runs out is stored as ACCEPTED (`markInvitationAsExpired`), and neither
  accept nor reject looks at the status.
* Accepting as a member who has left restores the row, writes no event and leaves the
  invitation alone. `restoredAt` is never read: a restored member sees the whole history
  (`Visibility`), although the entity's comment says that earlier messages stay hidden.
* `leaveGroup` does not look at the type of the conversation. The last live member can leave
  a private conversation, which then nobody can delete; `LiveMembers` proves that this and
  the deletion of a user are the only steps of a serial run that lead there.
* A rotation in the second the presented token was issued in hands out that token again;
  afterwards one token can obtain two pairs.
* The locked rotation does not look at `isRevoked`: a request that was looked up before a
  logout is given tokens after it, exactly under the condition `SessionGrants` states.
* Two overlapping transfers leave two OWNER rows, and a leave or a removal that overlaps a
  transfer, on either side of it, leaves a group owned by a soft-deleted row. No
  interleaving leaves a group without owner.
* A private conversation is keyed by the texts of its ids. The request schema lets a UUID
  pass in upper case, and nothing lowers it, so another spelling opens a second
  conversation of the same two people.
* `removeGroupMember` never answers USE_LEAVE_GROUP: whoever gets that far is an owner, whom
  the test before it already refuses to remove.
* A message that names an upload twice attaches one storage key twice.
* One event older than the messages, and every group has one, brings a walk through the
  history back to its beginning: with more than `limit` messages, and more than
  `2 * limit + 1` messages and events, it never ends (`GroupHistory`).
* A socket that fails cookie authentication stays registered for ever. A connection that
  authenticates as a second user is still found for the first.
* A failed file removal in `deleteUser` rolls back the rows, not the files removed by then:
  attached files are missing afterwards exactly when at least one request had been carried
  out (`AdminServices.NothingLostIff`, `RollbackKeepsFilesOkIff`).
* A private message restores the rows it read as deleted, before its transaction. A deletion
  in between stays: the message is counted for somebody who does not see the conversation.
* An offline sync marks messages by their ids some time after it looked for them, and sets
  one that was read in between back to DELIVERED.
* Accepting an invitation does not touch the stamp of the conversation, so a conversation
  can appear behind the cursor of somebody who is paging.

## Model

| member | source | states |
|---|---|---|
| `Sessions.RotateAnswers` | src/repositories/session.repository.ts:82-96 | A sound row answers its current token always, its predecessor for 5000 ms after `rotatedAt` and nothing else; the pair it hands out is the one of the token it then stores |
| `Sessions.RotateKeepsRowOk` | src/repositories/session.repository.ts:126-132 | Rotation keeps a row sound: with `rotatedAt` the predecessor and both rotated tokens are set, the stored pair is the one whose refresh token hashes to `refreshTokenHash` |
| `Sessions.RotationReissuesIff` | src/repositories/session.repository.ts:110-132 | A rotation leaves the very token presented in place if and only if it happens in the second that token was issued in |
| `Sessions.SignedIsGenuine` | src/repositories/session.repository.ts:37-43 | A token of either kind names its user, roles and session, and verifies from the second it is signed in for the lifetime of its kind, under the secret of its kind alone |
| `Sessions.NewSessionHonours` | src/repositories/session.repository.ts:45-52 | A session ends in the second its first refresh token runs out, and honours that token exactly until then |
| `Sessions.PresentedLeaves` | src/middlewares/auth.ts:52-118 | Row by row what a refresh token leaves: nothing if it is not known, EXPIRED or INVALID if it does not verify or the session has ended, the active sessions of the owner SUSPICIOUS if it is reused, and no other session changed otherwise |
| `Sessions.LookupIsUnique` | src/middlewares/auth.ts:52-55 | The lookup by current or previous hash can only find the session named inside the token, and the token names its owner |
| `Sessions.SessionRepository.CreateSession` | src/repositories/session.repository.ts:34-57 | Stores one new session and hands out a pair that names the user, the roles and the session; the session ends with the refresh token, which is honoured until the refresh lifetime is over and not a second longer |
| `Sessions.SessionRepository.RevokeSession` | src/repositories/session.repository.ts:59-64 | Marks one row and no other; an absent row is no error |
| `Sessions.SessionRepository.RevokeAllSessions` | src/middlewares/auth.ts:17-25 | The update of all rows of a user that are not yet revoked, row by row |
| `Sessions.SessionRepository.RotateSession` | src/repositories/session.repository.ts:66-139 | The locked transaction carried out field by field equals the rotation function, replays and refusals included |
| `Sessions.SessionRepository.FindByToken` | src/middlewares/auth.ts:52-55 | Finds a matching row if there is one |
| `Sessions.SessionRepository.Authenticate` | src/middlewares/auth.ts:27-120 | When uninterrupted: passes exactly on a genuine access token, as its subject in its roles; refreshes exactly when the table honours the refresh token, as the owner of the session in the roles of the token; else gives exactly the reason that applies; and leaves the table as `PresentedLeaves` says |
| `Sessions.SessionRepository.Refresh` | src/middlewares/auth.ts:52-120 | The part that looks at a refresh token, with the exact condition of each of its four refusals |
| `Sessions.SessionRepository.Logout` | src/services/auth.service.ts:70-82 | Revokes exactly the session whose current token is presented |
| `Sessions.SessionRepository.GetWsSession` | src/services/auth.service.ts:89-123 | Admits a socket exactly on a genuine access token whose session is live in the table |
| `SessionProtocol.RunKeepsInv` | src/middlewares/auth.ts:52-118 | In every interleaving of lookups, checks, locked rotations, logouts, sign-ins and deletions all rows stay sound and every grant agrees with the stored tokens |
| `SessionProtocol.RotatesAtMostOnce` | src/repositories/session.repository.ts:66-138 | Any number of requests with one token, superseded in a later second than it was issued in: all that succeed get the same pair and at most one of them rotated |
| `SessionProtocol.InitIsOk` | src/middlewares/auth.ts:27-120 | The empty table at any time satisfies this invariant |
| `SessionProtocol.ReplaysFollowARotation` | src/repositories/session.repository.ts:81-91 | Who is given stored tokens gets those of a rotation of the same token made at most 5000 ms before |
| `SessionProtocol.SupersededTwiceIsDead` | src/repositories/session.repository.ts:82-96 | Once the successor of a token has been honoured, the token is never granted anything again |
| `SessionProtocol.RevokedNeverRefreshed` | src/middlewares/auth.ts:70-91 | A request that looks a session up after its revocation never obtains tokens for it, in any continuation |
| `SessionProtocol.ExpiredNeverRefreshed` | src/middlewares/auth.ts:76-84 | A request not yet checked when the session ends never obtains tokens for it, however often it was rotated |
| `SessionProtocol.RevocationIsPermanent` | src/repositories/session.repository.ts:126-132 | In every run `isRevoked` stays, `expiresAt` and the owner never move |
| `SessionProtocol.DroppedStaysDropped` | src/entities/user-session.entity.ts:19 | A session that went with its user never comes back |
| `SessionProtocol.ReuseLocksOutTheOwner` | src/middlewares/auth.ts:69-74 | A genuine token of a revoked session leaves its owner no active session and other users untouched |
| `SessionGrants.SamePairIff` | src/repositories/session.repository.ts:82-132 | In every run two requests granted one token get the same pair if and only if both or neither got one of a later second |
| `SessionGrants.DecidedGrantsIff` | src/repositories/session.repository.ts:68-96 | The locked rotation grants if and only if the row still knows the token; revocation plays no part |
| `SessionGrants.GrantsIff` | src/middlewares/auth.ts:63-91 | A request left to finish is granted tokens if and only if it passes the checks on the row as it was looked up and the row still knows its token |
| `SessionGrants.RevokedGrantsOnlyToThosePassed` | src/middlewares/auth.ts:52-91 | A session already revoked gives out tokens, in any continuation, only to requests looked up before that pass on what they saw then; one of these that finishes gets them if and only if the checks pass and the row still knows its token |
| `SessionGrants.ReuseIsDetectedIff` | src/middlewares/auth.ts:64-74 | Reuse is detected if and only if the token is genuine and the session was seen revoked; the lock-out of the owner follows |
| `SessionGrants.InOneGo` | src/middlewares/auth.ts:52-118 | A lookup, its checks and the statement after them taken in one go leave the table as the uninterrupted middleware does, and grant tokens if and only if the table honours the one presented |
| `SessionProtocol.SameSecondRotatesTwice` | src/repositories/session.repository.ts:98-132 | The run that shows why "later second" is needed: one token obtains two different pairs |
| `SessionProtocol.RotationOutrunsLogout` | src/repositories/session.repository.ts:66-96 | The run in which a request that passed the checks is given tokens after a logout has revoked the session |
| `ConversationServices.ConversationService.CreateGroup` | src/services/conversation.service.ts:139-171 | Conversation, OWNER row and log entry in one transaction; the new store and the refusal are those of the function the lemmas below are about |
| `ConversationServices.ConversationService.GetOrCreatePrivateConversation` | src/services/conversation.service.ts:91-137 | Uninterrupted: finds the conversation of the key or opens one; more than two people or a refused row change nothing; the new store and the refusal are those of the function the lemmas below are about |
| `ConversationServices.ConversationService.CreatePrivateConversation` | src/services/conversation.service.ts:109-136 | Inserts all rows, or nothing when the key has been taken meanwhile, the id exists or a user is missing; the new store and the refusal are those of the function the lemmas below are about |
| `ConversationServices.ConversationService.ValidateGroupInvitation` | src/services/conversation.service.ts:173-215 | Refuses in the order of the guards, else adds one invitation for 24 h; the new store and the refusal are those of the function the lemmas below are about |
| `ConversationServices.ConversationService.AcceptGroupInvitation` | src/services/conversation.service.ts:217-267 | Refusals, the expiry mark, the silent restore and the joining transaction; the new store and the refusal are those of the function the lemmas below are about |
| `ConversationServices.ConversationService.RejectGroupInvitation` | src/services/conversation.service.ts:269-284 | Refusals, the expiry mark, the rejection; the new store and the refusal are those of the function the lemmas below are about |
| `ConversationServices.ConversationService.RemoveMemberFromGroup` | src/services/conversation.service.ts:48-71 | Soft delete and log entry together or not at all; the new store and the refusal are those of the function the lemmas below are about |
| `ConversationServices.ConversationService.LeaveGroup` | src/services/conversation.service.ts:286-312 | Leaving, whatever the type of the conversation; the new store and the refusal are those of the function the lemmas below are about |
| `ConversationServices.ConversationService.TransferGroupOwnership` | src/services/conversation.service.ts:314-372 | Two role updates and one log entry, or nothing; the new store and the refusal are those of the function the lemmas below are about |
| `ConversationServices.ConversationService.RemoveGroupMember` | src/services/conversation.service.ts:382-423 | Removing by the owner; the new store and the refusal are those of the function the lemmas below are about |
| `ConversationServices.ConversationService.DeleteGroup` | src/services/conversation.service.ts:433-458 | Deleting by the owner, with all cascades; the new store and the refusal are those of the function the lemmas below are about |
| `ConversationServices.ConversationService.DeletePrivateConversation` | src/services/conversation.service.ts:466-499 | Hiding, and deleting when nobody remains; the new store and the refusal are those of the function the lemmas below are about |
| `PrivateKeys.JoinInjective` | src/services/conversation.service.ts:77-78 | Joining colon-free texts by ":" is injective |
| `PrivateKeys.KeyDeterminesTexts` | src/services/conversation.service.ts:77-81 | Lists of different colon-free texts get one key if and only if they hold the same texts |
| `PrivateKeys.KeyDeterminesMembers` | src/services/conversation.service.ts:73-81 | For ids in their stored spelling: two member lists get the same key if and only if they name the same people, in any order and with any repetition |
| `PrivateKeys.PairKeyIsThePair` | src/services/conversation.service.ts:77-81 | For ids in their stored spelling: the keys of two pairs are equal if and only if the unordered pairs are |
| `Spelling.OtherSpellingIff` | src/dtos/websocket/message.dto.ts:16-18 | An id can be sent in another spelling if and only if it has a letter among its digits |
| `Spelling.KeyIsTheTexts` | src/services/conversation.service.ts:73-81 | The keys of two requests agree if and only if they send the same two texts, in either order |
| `Spelling.StoredSpelling` | src/services/conversation.service.ts:91-107 | For the stored spelling the operation on texts is the operation on ids |
| `Spelling.StoredReads` | src/dtos/websocket/message.dto.ts:16-18 | The stored spelling is one of the spellings of the id |
| `Spelling.FoundAgainIff` | src/services/conversation.service.ts:95-107 | An opened conversation is found by a later request if and only if it sends the same two texts |
| `Spelling.SecondSpellingOpensASecond` | src/services/conversation.service.ts:95-136 | Two spellings of one id open two private conversations of the same two people |
| `Memberships.AcceptIff` | src/services/conversation.service.ts:217-264 | Accepting succeeds if and only if the conversation exists, the invitation found has not run out and the user has left or never was a member; then the user is live, else members and log are unchanged |
| `Memberships.RejectDoesNotBind` | src/services/conversation.service.ts:269-284 | After a rejection accepting answers as before: the status is never looked at |
| `Memberships.ExpiredIsStoredAsAccepted` | src/repositories/group-invitation.repository.ts:43-55 | An invitation that ran out is refused and stored as ACCEPTED, on accept and on reject alike |
| `Memberships.LeaveThenReturn` | src/services/conversation.service.ts:238-242 | Leaving and accepting again restores the same row with `restoredAt`; the return is not logged and the invitation keeps its status |
| `Memberships.DeletedComesBackWithTheNextMessage` | src/services/message.service.ts:73-90 | A private conversation one side deleted is live again for that side with a message whose two rows are read after the deletion, and the message is counted |
| `Memberships.BothDeletedIsGone` | src/services/conversation.service.ts:488-498 | Deleting a private conversation removes it if and only if no other live member remains |
| `Outcomes.CreateGroupIff` | src/services/conversation.service.ts:139-171 | A group can be created by whoever exists under a new id, and then holds its OWNER row, one log entry and nothing else |
| `Outcomes.OpenedHolds` | src/services/conversation.service.ts:109-136 | A new private conversation holds its two people as plain live members and nothing else |
| `Outcomes.InviteIff` | src/services/conversation.service.ts:173-215 | An owner of a group invites anybody who exists and is not a live member, nobody else invites; one pending invitation is added, from the owner to the other, for 24 h; a refusal changes nothing |
| `Outcomes.InviteThenAccept` | src/services/conversation.service.ts:206-264 | The invited user can accept a new invitation for exactly 24 h; somebody without an invitation gets NOT_FOUND and changes nothing |
| `Outcomes.JoinedHolds` | src/services/conversation.service.ts:243-263 | Accepting for the first time adds a plain live member and a log entry and marks all invitations of the user to the group ACCEPTED, and that is all |
| `Outcomes.RejectIff` | src/services/conversation.service.ts:269-284 | Rejecting succeeds if and only if the invitation found has not run out, and marks all invitations of the user to the group REJECTED (else ACCEPTED), and that is all |
| `Outcomes.UninvitedIsRefused` | src/services/conversation.service.ts:229-231 | Without an invitation neither answer changes anything |
| `Outcomes.LeaveIff` | src/services/conversation.service.ts:286-305 | Exactly a member who is not owner leaves; the row is hidden, the departure logged, and that is all |
| `Outcomes.RemoveIff` | src/services/conversation.service.ts:382-423 | Exactly an owner removes a member, live or not, who is not owner; the row is hidden, the removal logged, and that is all |
| `Outcomes.TransferIff` | src/services/conversation.service.ts:314-372 | Exactly a live owner hands over, to another live member; the two roles change, one log entry is added, and that is all |
| `Outcomes.DeleteGroupIff` | src/services/conversation.service.ts:433-458 | Exactly an owner deletes a group; nothing is left of it; a refusal changes nothing |
| `Outcomes.DeletePrivateIff` | src/services/conversation.service.ts:466-499 | Exactly a live member deletes a private conversation; the row is hidden if somebody else is live, else nothing is left of the conversation |
| `Outcomes.OnlyTheLoggedOwner` | src/services/conversation.service.ts:382-458 | In every run whoever deletes a group, hands it over, removes a member or invites is the user the event log names as owner |
| `Outcomes.LoggedOwnerDeletes` | src/services/conversation.service.ts:433-458 | In every run without user deletion the user the log names can delete the group, and nobody else |
| `Outcomes.WhyNotDeleted` | src/services/conversation.service.ts:440-486 | Each refusal of the two deletions has exactly one cause, the first in the order of the guards |
| `Outcomes.WhyNotAllowed` | src/services/conversation.service.ts:183-205 | The same for inviting and removing; the refusal USE_LEAVE_GROUP is never given |
| `Outcomes.WhyNotHandedOver` | src/services/conversation.service.ts:292-346 | The same for leaving and transferring |
| `Outcomes.WhyNotAnswered` | src/services/conversation.service.ts:225-282 | The same for answering an invitation that is found |
| `Outcomes.WhyNotSent` | src/services/message.service.ts:163-177 | The same for sending to a group |
| `LiveMembers.LeftPrivateIsLiveIff` | src/services/conversation.service.ts:286-305 | Leaving a private conversation succeeds and leaves it in place; it has a live member afterwards if and only if somebody else was live |
| `LiveMembers.AbandonedCannotBeDeleted` | src/services/conversation.service.ts:466-486 | Where nobody is live, deleting a private conversation is refused for everybody and changes nothing |
| `LiveMembers.StepKeepsLiveIff` | src/services/conversation.service.ts:286-305 | From a store in which every private conversation has a live member, a step of any kind leads to one with the same property unless, and only unless, the last live member leaves or is deleted as a user while another row is there |
| `LiveMembers.AlwaysLiveIff` | src/services/conversation.service.ts:48-499 | A run keeps a live member in every private conversation throughout if and only if none of its steps is one of these two |
| `LiveMembers.DeleteUserKeepsLiveIff` | src/services/admin.service.ts:34-104 | Deleting a user leaves no private conversation without a live member if and only if none has rows of others but no live one among them |
| `Memberships.ReceiptSetsOneRow` | src/services/message.service.ts:275-294 | A receipt sets exactly one row to any status, lower ones included, and only READ clears the counter |
| `Integrity.CreateGroupKeepsSound` | src/services/conversation.service.ts:139-171 | Soundness (foreign keys, members in every conversation, unique keys, pairs, owners named by the log) and ownership of every group survive creating a group |
| `Integrity.CreatePrivateKeepsSound` | src/services/conversation.service.ts:109-136 | Soundness (foreign keys, members in every conversation, unique keys, pairs, owners named by the log) and ownership of every group survive opening a private conversation |
| `Integrity.InviteKeepsSound` | src/services/conversation.service.ts:173-215 | Soundness (foreign keys, members in every conversation, unique keys, pairs, owners named by the log) and ownership of every group survive inviting |
| `Integrity.AcceptKeepsSound` | src/services/conversation.service.ts:217-264 | Soundness (foreign keys, members in every conversation, unique keys, pairs, owners named by the log) and ownership of every group survive accepting |
| `Integrity.RejectKeepsSound` | src/services/conversation.service.ts:269-284 | Soundness (foreign keys, members in every conversation, unique keys, pairs, owners named by the log) and ownership of every group survive rejecting |
| `Integrity.LeaveKeepsSound` | src/services/conversation.service.ts:286-305 | Soundness (foreign keys, members in every conversation, unique keys, pairs, owners named by the log) and ownership of every group survive leaving |
| `Integrity.TransferKeepsSound` | src/services/conversation.service.ts:314-372 | Soundness (foreign keys, members in every conversation, unique keys, pairs, owners named by the log) and ownership of every group survive transferring |
| `Integrity.RemoveKeepsSound` | src/services/conversation.service.ts:382-423 | Soundness (foreign keys, members in every conversation, unique keys, pairs, owners named by the log) and ownership of every group survive removing |
| `Integrity.DeleteGroupKeepsSound` | src/services/conversation.service.ts:433-458 | Soundness (foreign keys, members in every conversation, unique keys, pairs, owners named by the log) and ownership of every group survive deleting a group |
| `Integrity.DeletePrivateKeepsSound` | src/services/conversation.service.ts:466-499 | Soundness (foreign keys, members in every conversation, unique keys, pairs, owners named by the log) and ownership of every group survive deleting a private conversation |
| `Integrity.DropMessagesKeepsSound` | src/entities/conversation.entity.ts:53-60 | Soundness (foreign keys, members in every conversation, unique keys, pairs, owners named by the log) and ownership of every group survive deleting messages with cascades and SET NULL |
| `Integrity.DropUserKeepsPopulatedIff` | src/services/admin.service.ts:108-110 | Deleting just a user row, as for administrators, leaves no empty conversation if and only if the user is nowhere the only member |
| `Integrity.DeleteUserKeepsSound` | src/services/admin.service.ts:23-106 | Deleting a user keeps the store sound, every surviving conversation populated |
| `SerialRuns.RunKeepsWorldOk` | src/services/conversation.service.ts:48-542 | Every run, with send operations whole or split into their reading and a transaction any number of steps later, keeps the store sound, (message, user) unique among deliveries, and each `unreadCount` equal to the committed messages whose recipients, as read, included that member since the last reset or the birth of the row |
| `SerialRuns.StartIsOk` | src/services/conversation.service.ts:48-542 | So does the empty store, in which also every group is owned and every file present |
| `SerialRuns.GroupCallsAreSteps` | src/services/conversation.service.ts:139-284 | Each operation the services are tied to is the step of its name: creating, inviting, accepting, rejecting |
| `SerialRuns.PartingCallsAreSteps` | src/services/conversation.service.ts:286-499 | The same for leaving, transferring, removing and the two deletions |
| `SerialRuns.SendingCallsAreSteps` | src/services/message.service.ts:58-231 | The same for the two ways of sending |
| `SerialRuns.ReceiptCallsAreSteps` | src/services/message.service.ts:275-294 | The same for receipts, resets and the offline sync |
| `SerialRuns.UpkeepCallsAreSteps` | src/services/admin.service.ts:23-106 | The same for deleting messages and users |
| `SerialRuns.GroupsHaveOneOwner` | src/services/conversation.service.ts:139-171 | Without user deletion each group has exactly one OWNER row, live, held by the user the event log names |
| `SerialRuns.GroupsHaveAtMostOneOwner` | src/services/admin.service.ts:98-104 | With user deletion at most one, still the logged one |
| `SerialRuns.PrivateConversationsHoldTwo` | src/services/conversation.service.ts:187-189 | A private conversation never has more than two members nor an owner |
| `SerialRuns.PrivateConversationsAreUnique` | src/services/conversation.service.ts:95-107 | At most one private conversation for an unordered pair, for ids in their stored spelling |
| `SerialRuns.FoundAsLongAsItExists` | src/services/conversation.service.ts:101-107 | In every run both people find their conversation as long as it exists, for ids in their stored spelling |
| `SerialRuns.OpenIsCreate` | src/services/conversation.service.ts:109-136 | Inserting after a lookup that found nothing, however old, is the whole operation or is refused |
| `SerialRuns.FoundWhicheverSideStarts` | src/services/conversation.service.ts:101-106 | Whoever of the two starts second finds the conversation of the first, for ids in their stored spelling |
| `SerialRuns.StepKeepsCounters` | src/repositories/conversation-member.repository.ts:132-157 | Each step, a transaction resting on an old reading included, changes the counters as the history of messages, resets and births says |
| `SerialRuns.FilesAgree` | src/services/storage.service.ts:96-146 | If no message names an upload twice, every run keeps each storage key in one row at most and every attached file in the bucket (apart from files missing before) |
| `Frames.StepElsewhere` | src/services/conversation.service.ts:48-499 | A step changes nothing of a conversation it is not about: its row, members, log, invitations, messages, deliveries and attachments stay, in their order |
| `Frames.RunLeavesAlone` | src/services/conversation.service.ts:48-499 | Nor does a run none of whose steps is about it |
| `Frames.StepSparesBelongings` | src/entities/pending-upload.entity.ts:22-26 | The row and the pending uploads of a user are changed only by steps that act for that user; the deletion of somebody else spares them |
| `Frames.RunSparesBelongings` | src/entities/pending-upload.entity.ts:22-26 | The same over whole runs |
| `Frames.StepRemovesAttachedFiles` | src/services/admin.service.ts:80-96 | A file leaves the bucket only with the message it is attached to |
| `GroupConcurrency.SerialGuardsAreAllowedNow` | src/services/conversation.service.ts:322-346 | Guards that read everything at one moment are the serial guards |
| `GroupConcurrency.SerialIsGuardThenCommit` | src/services/conversation.service.ts:173-458 | An operation that nothing interrupts succeeds if and only if its guard holds now and no constraint refuses the commit, and does exactly what the commit does: creating, inviting, leaving, transferring, removing, deleting |
| `GroupConcurrency.AcceptIsJoinOrRejoin` | src/services/conversation.service.ts:238-264 | So does accepting, whose commit is the restore if the row is there and hidden, else the joining transaction |
| `GroupConcurrency.RunKeepsInv` | src/services/conversation.service.ts:314-372 | Every interleaving of reads and commits keeps owners in groups and at most one owner more than there were late transfers |
| `GroupConcurrency.BlankIsOk` | src/services/conversation.service.ts:139-171 | The empty store satisfies this invariant |
| `GroupConcurrency.NoGroupBecomesOwnerless` | src/services/conversation.service.ts:348-372 | With commits resting on reads from any earlier moment, the user named by the log still always holds the OWNER role |
| `GroupConcurrency.SoleOwnerIff` | src/services/conversation.service.ts:332-334 | A transfer leaves a sole owner sole if and only if its issuer still owned the group at commit, or it repeats the transfer before |
| `GroupConcurrency.TwoOwnersAreReachable` | src/services/conversation.service.ts:322-361 | From every group with an owner and two members two overlapping transfers lead to two OWNER rows |
| `GroupConcurrency.OwnersStayLiveIff` | src/services/conversation.service.ts:296-305 | Live owners of a group stay live if and only if the commit neither soft-deletes a row that is OWNER by then nor makes a row OWNER that is soft-deleted by then |
| `GroupConcurrency.OwnersStayLive` | src/services/conversation.service.ts:314-372 | In every run without such a commit the owners are live throughout |
| `GroupConcurrency.HeirMayHaveLeft` | src/services/conversation.service.ts:340-361 | A transfer that overlaps the leaving of its heir makes a soft-deleted row OWNER |
| `GroupConcurrency.OwnerMayHaveLeft` | src/services/conversation.service.ts:296-305 | A leave that overlaps a transfer makes the owner a soft-deleted row |
| `ConversationList.CursorClauseSkips` | src/repositories/conversation.repository.ts:85-99 | The cursor clause, both NULL branches included, holds of a row exactly when it comes after the cursor and does not share its truncated millisecond |
| `ConversationList.CursorClauseIsTheOrderIff` | src/repositories/conversation.repository.ts:81-99 | It is the order of the list for all rows if and only if the cursor stamp is NULL or a whole millisecond |
| `ConversationList.PageIsAPrefix` | src/utils/pagination.ts:6-16 | A page is the ordered beginning of what the clause lets through, at most `limit` rows, its last row the next cursor if more follow |
| `ConversationList.WalkIsOrdered` | src/repositories/conversation.repository.ts:58-127 | While other rows change, pages whose cursors hold concatenate to a strictly ordered list |
| `ConversationList.StableRowsComeExactlyOnce` | src/repositories/conversation.repository.ts:58-127 | Each unchanged row that shares no millisecond with one of the user's own rows is on exactly one page of a walk to the end |
| `ConversationList.OfferedAgainIff` | src/repositories/conversation.repository.ts:62-68 | A row already shown is offered again if and only if the cursor row is gone or has moved in front of it |
| `ConversationList.EveryPageMakesProgress` | src/utils/pagination.ts:7-10 | Whatever happens between two pages whose cursor holds: without the rows the user could not see before, the rows to come after the cursor are fewer with every page; all of them are if no such row has joined |
| `ConversationList.WalkIsBounded` | src/utils/pagination.ts:6-16 | So a walk ends: it asks for at most as many pages with a next cursor as there were rows to come at its beginning and rows that joined behind the cursor on the way |
| `ConversationList.FullWalkIsTheSortedList` | src/repositories/conversation.repository.ts:70-102 | On a static table the pages concatenate to the list sorted once |
| `ConversationList.WalkIsCompleteIff` | src/repositories/conversation.repository.ts:85-99 | They do so for every page size if and only if no visible row shares its millisecond with one that would skip it |
| `ConversationList.ReorderRestoresTheOrder` | src/repositories/conversation.repository.ts:108-126 | Whatever order the second query returns, the map by id restores the page |
| `History.PageIsTheLatest` | src/services/message.service.ts:233-273 | Without events a page is the latest `limit + 1` messages left, oldest first, and its first is the cursor if more than `limit` were left |
| `History.NextLeavesTheRest` | src/repositories/message.repository.ts:34-82 | What a cursor leaves is exactly what comes before it |
| `History.WalkShowsEverythingOnce` | src/services/message.service.ts:262-267 | Without events and with distinct milliseconds a walk shows every visible message once, ascending |
| `History.WalkIsCompleteIff` | src/repositories/message.repository.ts:56-61 | Without events every walk is complete, for every page size, if and only if no two visible messages share a millisecond |
| `History.LastPageIsTheRest` | src/services/message.service.ts:264-267 | There is no next cursor exactly when `limit` or fewer are left, and a page has at most `limit + 1` |
| `History.LastPageMayBeEmpty` | src/services/message.service.ts:264-267 | When exactly `limit + 1` are left there is a cursor and the page behind it is empty |
| `GroupHistory.PageOfTheFirst` | src/repositories/conversation-event.repository.ts:26-48 | In a conversation that begins with an event, the next cursor of every page not asked for by an event is that event |
| `GroupHistory.PageBehindTheFirst` | src/repositories/message.repository.ts:37-61 | The page behind it is the newest messages alone, as on a fresh start |
| `GroupHistory.WalkEndsIff` | src/services/message.service.ts:249-267 | With an event older than all messages, as in every group, a walk ends if and only if at most `limit` messages are visible or messages and events together are at most `2 * limit + 1`; then every message was shown |
| `GroupHistory.WalkWithEventsCycles` | src/services/message.service.ts:249-267 | Otherwise the walk never ends, and shows a message if and only if it is on the second or the third page |
| `GroupHistory.CycleShowsIff` | src/services/message.service.ts:249-267 | These are the newest `limit + 1`, and of the `limit + 1` before them those that have few enough messages and carried events in front; no other message is ever shown |
| `GroupHistory.OlderEventsCompleteIff` | src/services/message.service.ts:249-267 | With all events older than the messages, a walk shows every message if and only if one page holds them or messages and carried events are at most `2 * limit + 2` |
| `GroupHistory.EventsCrowdOutMessages` | src/repositories/conversation-event.repository.ts:42-48 | With more than `limit` older events every page not asked for by an event shows just the oldest of them |
| `Visibility.HiddenSeesWhatFollows` | src/repositories/message.repository.ts:56-73 | A member with a hidden row sees exactly the messages stamped after it was hidden |
| `Visibility.LiveSeesEverything` | src/services/message.service.ts:237-247 | A member with a live row sees all messages, `restoredAt` or not |
| `Visibility.RestoredHidesIff` | src/repositories/conversation-member.repository.ts:117-130 | After a restoration the earlier messages stay hidden if and only if there are none |
| `Visibility.MessageRevealsIff` | src/services/message.service.ts:73-90 | A send transaction resting on any earlier reading takes a row out of hiding if and only if the row was read as soft-deleted |
| `Visibility.SendingReveals` | src/services/message.service.ts:79-90 | When the rows are read at the commit, both people see all messages after a private message |
| `Visibility.DeletionOutrunsMessage` | src/services/message.service.ts:73-90 | The run in which the receiver deletes the conversation between reading and transaction: the message is stored and counted, the row stays hidden |
| `MessageServices.MessageService.CreateGroupMessage` | src/services/message.service.ts:153-231 | Message, deliveries, pointer, counters and attachments together; on any error the store is as before |
| `MessageServices.MessageService.CreatePrivateMessage` | src/services/message.service.ts:58-151 | The same in the conversation found or opened; on an error only that opening remains |
| `MessageServices.MessageService.StoreRead` | src/services/message.service.ts:79-145 | The transaction of either operation, in any state after its reading |
| `MessageServices.MessageService.Transact` | src/services/message.service.ts:79-145 | The body of both transactions equals the one-step commit |
| `MessageServices.MessageService.IncrementAll` | src/services/message.service.ts:123-131 | The loop of increments counts each recipient once |
| `MessageServices.MessageService.ConfirmDelivery` | src/services/message.service.ts:275-294 | The receipt, with the missing row reported |
| `MessageServices.StorageService.ProcessMessageAttachments` | src/services/storage.service.ts:96-146 | Attaches all named uploads with their stored metadata and deletes them, or reports the first problem and writes nothing |
| `MessageServices.StorageService.PrepareUploads` | src/services/storage.service.ts:66-94 | The loop stores one pending row for each file |
| `Messaging.NoProblemIff` | src/services/storage.service.ts:109-130 | Uploads are accepted if and only if each is the user's own, not expired and in the bucket |
| `Messaging.ProblemIsTheFirst` | src/services/storage.service.ts:109-130 | What is reported is the problem of the first named upload that has one |
| `Messaging.PreparedForADay` | src/services/storage.service.ts:66-94 | An upload can be attached by its owner, for 24 h, once its file is there, and by nobody else |
| `Messaging.PrepareAllAdds` | src/services/storage.service.ts:66-82 | Each file gets its own row, open for 24 h, under a key in the user's directory, and every other row is as before |
| `MessageServices.CountThenAttach` | src/services/message.service.ts:111-132 | Counting and attaching commute |
| `Bookkeeping.CommitDeliversToSnapshot` | src/services/message.service.ts:103-112 | A committed message starts with one SENT row for each snapshot member but the sender, and uniqueness is kept |
| `Bookkeeping.StoreReadKeepsSound` | src/services/message.service.ts:79-145 | A send transaction keeps the store sound whatever was read before it |
| `Bookkeeping.CommitsIff` | src/services/message.service.ts:92-145 | A message is committed if and only if conversation and sender exist, its id is new and every upload it names is the sender's, unexpired and present |
| `Bookkeeping.RowsAfterMessage` | src/services/message.service.ts:79-131 | Every member row after a send transaction: restored exactly if read as gone, counted exactly if read as a recipient, whatever the row has become since |
| `Outcomes.StoredReaches` | src/services/message.service.ts:92-131 | A send transaction over any reading records the message as the last of its conversation, gives one SENT row to each recipient as read and nobody else, and raises just their counters |
| `Outcomes.SendGroupIff` | src/services/message.service.ts:157-180 | Sending to a group succeeds if and only if the sender is a live member who exists, the id is new and each upload can be attached |
| `Outcomes.GroupMessageReaches` | src/services/message.service.ts:160-222 | A group message reaches exactly the live members but its sender: deliveries, counters and last message |
| `Outcomes.MessageIntoReaches` | src/services/message.service.ts:73-131 | A message into a private conversation reaches exactly whoever has a row in it, hidden or not, but its sender |
| `Outcomes.SendPrivateIff` | src/services/message.service.ts:58-145 | Sending to a user succeeds if and only if the two have a conversation or one can be opened, the sender exists, the id is new and each upload can be attached |
| `Outcomes.PrivateMessagesReachOnlyTheReceiver` | src/services/message.service.ts:58-131 | In every run a message sent to a user is stored in the conversation of the two and delivered to that user, if the user still has a row there, and to nobody else |
| `Outcomes.RunKeepsKinds` | src/services/conversation.service.ts:115-122 | In every run only private conversations have a key |
| `Bookkeeping.CommitMovesUploads` | src/services/storage.service.ts:132-145 | Exactly the named uploads move to attachments, with their recorded metadata |
| `Bookkeeping.AttachKeepsKeysApartIff` | src/services/storage.service.ts:109-145 | Storage keys stay unique if and only if no upload is named twice |
| `Bookkeeping.CommitKeepsFilesOkIff` | src/services/storage.service.ts:96-146 | Unique keys and present files survive a message if and only if it names no upload twice |
| `Bookkeeping.DropKeepsFilesOk` | src/repositories/message.repository.ts:100-125 | Deleting messages with exactly their files takes no file from a survivor |
| `Bookkeeping.DeleteUserRemovesExactlyTheirFiles` | src/services/admin.service.ts:34-96 | The files removed are exactly those attached in the conversations that disappear, which are those the user was alone in |
| `Bookkeeping.DeleteUserKeepsOwnerIff` | src/services/admin.service.ts:98-104 | A surviving group keeps its owner if and only if the owner is not the user deleted |
| `AdminServices.AdminService.DeleteUser` | src/services/admin.service.ts:23-106 | The transaction step by step: succeeds if and only if the bucket carries out every request; else the rows are those of before and the files of the requests before the refused one are gone |
| `AdminServices.NothingLostIff` | src/services/admin.service.ts:80-96 | An operation that fails after the bucket refused a request has lost no file if and only if that was the first request |
| `AdminServices.RollbackKeepsFilesOkIff` | src/services/admin.service.ts:80-96 | With every attached file present before, a rolled-back deletion leaves every attached file present if and only if the first request was the refused one |
| `AdminServices.AdminService.DeleteAdmin` | src/services/admin.service.ts:108-110 | Deletes the row of an administrator only |
| `Removals.DeleteUserLoses` | src/services/admin.service.ts:23-106 | Table by table what deleting a user takes: the conversations nobody else has a row in, with all that is theirs, then memberships, uploads and invitations of the user; messages lose their sender; everything else stays row for row |
| `Removals.OthersKeepTheirs` | src/services/admin.service.ts:98-104 | So everybody else keeps account, memberships and pending uploads |
| `Removals.DeleteAdminIff` | src/services/admin.service.ts:108-110 | A row goes if and only if it has the role ADMIN, and takes no conversation with it |
| `Removals.DropLosesConversations` | src/entities/conversation.entity.ts:53-60 | Table by table what deleting conversations takes and leaves |
| `Removals.DeleteMessagesLoses` | src/repositories/message.repository.ts:100-123 | Of the ids named only messages of the conversation go, with deliveries, attachments and exactly their files; a last message that went is set to NULL |
| `Removals.OldIff` | src/repositories/message.repository.ts:84-98 | The nightly job deletes exactly what is more than 48 hours old |
| `FileStore.BatchesCover` | src/services/storage.service.ts:169-187 | The requests carry every key once, in order, 1 to 1000 each |
| `FileStore.Bucket.DeleteFiles` | src/services/storage.service.ts:169-187 | The loop sends these requests until one fails, and removes exactly their keys |
| `AdminServices.DeleteMessagesJob.Run` | src/jobs/delete-messages.job.ts:10-59 | Undisturbed: finishes if and only if there is an old message and every request is carried out, and then the old messages and exactly their files are gone; else no row is gone, and just the files of the requests before the refused one |
| `Cleanup.LiveKeepsInv` | src/jobs/delete-messages.job.ts:41-47 | A step of live traffic between two steps of the job keeps what the job has read valid |
| `Cleanup.StepMoves` | src/repositories/message.repository.ts:84-98 | Live traffic never changes a stamp, stamps new messages now and attaches only pending uploads to new messages |
| `Cleanup.RunKeepsInv` | src/jobs/delete-messages.job.ts:10-59 | The job in steps among live traffic keeps soundness, counters, keys, and what is known of missing files |
| `Cleanup.StartIsOk` | src/jobs/delete-messages.job.ts:10-25 | This holds of the empty store with no job under way |
| `Cleanup.DeletedWasRead` | src/jobs/delete-messages.job.ts:22-51 | What the last step deletes was read by the first, and every attachment row that goes had its file removed |
| `Cleanup.YoungMessagesKeepTheirFiles` | src/jobs/delete-messages.job.ts:41-47 | A missing file belongs to a message older than a cutoff read by a job; no younger message or pending upload loses one |
| `Cleanup.NothingMissingAfterTheJob` | src/jobs/delete-messages.job.ts:49-56 | Once a job comes to its end every attached file is in the bucket, whatever earlier jobs left behind |
| `Connections.ConnectionManager.RegisterConnection` | src/websocket/managers/connection-manager.ts:40-52 | A new connection, attached to nobody |
| `Connections.ConnectionManager.UnregisterConnection` | src/websocket/managers/connection-manager.ts:60-72 | Out of both maps; unknown ids are ignored |
| `Connections.ConnectionManager.RemoveUserConnection` | src/websocket/managers/connection-manager.ts:99-111 | One id out of one list, the entry with the last |
| `Connections.ConnectionManager.AttachUser` | src/websocket/managers/connection-manager.ts:81-91 | The id into the list of the user, registered or not |
| `Connections.ConnectionManager.GetUserConnections` | src/websocket/managers/connection-manager.ts:121-132 | The registered connections of the list, in its order |
| `Connections.WebSocketServer.Authenticate` | src/websocket/websocket-server.ts:24-29 | Sets both ids, attaches and announces the user |
| `Connections.WebSocketServer.OnClose` | src/websocket/websocket-server.ts:149-162 | Decides on the offline report before it unregisters |
| `ConnectionRuns.FoundExactly` | src/websocket/managers/connection-manager.ts:121-132 | In every run the connections found for a user are, each once, the registered ones ever attached to the user |
| `ConnectionRuns.NoneMissedNoneStale` | src/websocket/managers/connection-manager.ts:121-132 | No registered connection carrying the user's id is missed and no unregistered one is returned |
| `ConnectionRuns.FoundIffCarried` | src/websocket/managers/connection-manager.ts:81-91 | They are exactly those that carry the user's id if and only if no registered connection was attached to two users |
| `ConnectionRuns.OfflineExactly` | src/websocket/websocket-server.ts:155-162 | A step reports a user offline if and only if it makes the user unreachable by closing a connection last attached to that user |
| `ConnectionRuns.MapsRefinePairs` | src/websocket/managers/connection-manager.ts:40-112 | With one user for each connection the two maps are a set of (connection, user), with no empty list |
| `ConnectionRuns.OfflineWithTheLastPair` | src/websocket/websocket-server.ts:149-162 | Then the offline report comes exactly with the close that takes the user's last pair away |
| `ConnectionRuns.CloseUnregistersIff` | src/websocket/websocket-server.ts:109-121 | Closing unregisters if and only if the listeners had been installed |
| `ConnectionRuns.StuckForever` | src/websocket/websocket-server.ts:109-121 | A socket that failed or closed during the handshake stays registered for ever, and a user attached to it is never reported offline again |
| `ConnectionRuns.StaleIdsStay` | src/websocket/managers/connection-manager.ts:99-111 | An id indexed for a user but no longer registered is never taken out again |
| `ConnectionRuns.ReauthenticationHidesOffline` | src/websocket/websocket-server.ts:128-131 | A connection that changes its user hides the first user's going offline |
| `OfflineSync.OfflineSyncService.SyncPendingMessages` | src/services/offline-sync.service.ts:14-71 | Nothing without pending rows or connections; else the transcript of all sends and then one update |
| `OfflineSync.OfflineSyncService.SendAll` | src/services/offline-sync.service.ts:49-62 | The nested loops record the transcript, messages in the order of the pending rows |
| `OfflineSync.EachSentOnEach` | src/services/offline-sync.service.ts:49-62 | A message was sent on a connection if and only if it is pending, exists, and the connection is the user's |
| `OfflineSync.SentInOrder` | src/services/offline-sync.service.ts:49-62 | The transcript is the existing messages in the order of the pending rows, each exactly once on every connection, in their order |
| `OfflineSync.PendingNewestFirst` | src/services/offline-sync.service.ts:15-21 | Pending rows come newest first |
| `OfflineSync.MarkedExactlyIff` | src/services/offline-sync.service.ts:64-70 | The update marks exactly the SENT rows of the user if and only if none of them has a READ row beside it for the same message |
| `OfflineSync.SyncIsExact` | src/services/offline-sync.service.ts:14-71 | In every serial run a sync that nothing interrupts is exact and every message it marks was sent on every connection |
| `OfflineSync.MarkedLateIff` | src/services/offline-sync.service.ts:64-70 | The update made any time after the query marks exactly those of the pending rows still SENT if and only if none of these rows is READ by then |
| `OfflineSync.ReceiptIsUndone` | src/services/offline-sync.service.ts:15-70 | A receipt between query and update is undone: the deliveries are then those without it, the message DELIVERED, while the counter stays reset |
| `OfflineSync.LateSyncIsExact` | src/services/offline-sync.service.ts:14-71 | In every run the late update is exact unless the user reads one of the pending messages between query and update |

## Left out

- Cryptography and tokens: AES-GCM, bcrypt, HMAC, SHA-256 and JWT encoding are opaque; a hash is injective and a token is its claims and its key.
- The parsing of token lifetimes (`parseExpiry`): lifetimes are numbers of seconds.
- Object storage requests, presigned URLs, download URLs and web push: only which objects exist is modelled.
- The network: a send is recorded, whether the socket was still open is not.
- Express routing, cookies, headers, request schemas, logging and configuration.
- TypeORM's query building: a query is its meaning.
- Clock skew and clock steps inside one request: each atomic step reads one clock, shared by the server and the database.
- The order of rows with equal sort keys: it is that of the table. In `History` the sort is stable, in the conversation list ids break ties, and offline sync sends in reverse insertion order.
- `deliveredAt`, `readAt`, names and contents of conversations and messages.
- Inserting no deliveries at all (a message to nobody) is taken to be no error.
- `getOrCreatePrivateConversation` for the type GROUP, which has no caller.
- Group events and notifications sent after the commit of an operation.
- Failing bucket requests in `SerialRuns`: there a deletion of messages or users removes its files; `AdminServices` states what remains when it does not.
- User and administrator lists: the same shape as the message history, without its merge.
- `memberInvitationManager` and `PendingUploadRepository.deleteExpired`, which nothing calls.
- The heartbeat and the authentication timeout: both only close sockets, which the runs allow at any time.
- Typing notifications, the dispatcher and the message parser: one-branch facts.
- SerialRuns.RunKeepsWorldOk: deleting an administrator is not a step of these runs, because it can empty a conversation; `Integrity.DropUserKeepsPopulatedIff` says exactly when.
- Cleanup.RunKeepsInv: one job at a time, and a cutoff of 48 h where the code subtracts two calendar days.
- SerialRuns.PrivateConversationsAreUnique: ids in their stored spelling only; `Spelling` has the exact condition.
- ConversationList.FullWalkIsTheSortedList: a page size of at least 1, which the request schema guarantees.
