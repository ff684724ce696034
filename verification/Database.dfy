/**
 * The database as an object whose tables the repositories update in place, the
 * bucket beside it, and transactions: what a rollback brings back.
 */
module Persistence {
  import opened Prelude
  import opened Store
  import opened Groups
  import opened Messaging
  import opened FileStore

  class Database {
    var users: map<Uuid, UserRole>
    var conversations: map<Uuid, Conversation>
    var members: map<(Uuid, Uuid), Membership>
    var events: seq<Event>
    var invitations: seq<Invitation>
    var messages: map<Uuid, Message>
    var deliveries: seq<Delivery>
    var attachments: seq<Attachment>
    var uploads: map<Uuid, Upload>
    const bucket: Bucket

    constructor (bucket: Bucket)
      ensures this.bucket == bucket && View() == EMPTY.(files := bucket.objects)
    {
      this.bucket := bucket;
      users, conversations, members, messages, uploads := map[], map[], map[], map[], map[];
      events, invitations, deliveries, attachments := [], [], [], [];
    }

    function View(): Db
      reads this, bucket
    {
      Db(users, conversations, members, events, invitations, messages, deliveries, attachments, uploads, bucket.objects)
    }

    method SetTables(db: Db)
      modifies this
      ensures View() == db.(files := old(View()).files)
    {
      users, conversations, members := db.users, db.conversations, db.members;
      events, invitations, messages := db.events, db.invitations, db.messages;
      deliveries, attachments, uploads := db.deliveries, db.attachments, db.uploads;
    }

    // Tables go back to what they were; the bucket knows no transactions.
    method Rollback(saved: Db)
      modifies this
      ensures View() == saved.(files := old(View()).files)
    {
      SetTables(saved);
    }

    // -------------------------------------------------------------- conversations

    // False when the primary key or the unique private key refuses the row.
    method SaveConversation(id: Uuid, row: Conversation) returns (ok: bool)
      modifies this`conversations
      ensures ok <==>
                && id !in old(conversations)
                && (row.privateKey.Some? ==> forall c :: !HasKey(old(View()), c, row.privateKey.value))
      ensures conversations == if ok then old(conversations)[id := row] else old(conversations)
    {
      var taken := row.privateKey.Some? && exists c <- conversations :: HasKey(View(), c, row.privateKey.value);
      if id in conversations || taken {
        return false;
      }
      conversations := conversations[id := row];
      return true;
    }

    method UpdateLastMessage(c: Uuid, message: Uuid)
      modifies this`conversations
      ensures var rows := old(conversations);
              conversations == if c in rows then rows[c := rows[c].(lastMessage := Some(message))] else rows
    {
      if c in conversations {
        conversations := conversations[c := conversations[c].(lastMessage := Some(message))];
      }
    }

    method DeleteConversations(gone: set<Uuid>)
      modifies this
      ensures View() == DropConversations(old(View()), gone)
    {
      SetTables(DropConversations(View(), gone));
    }

    // -------------------------------------------------------------------- members

    // One INSERT: a missing user or conversation or an existing row refuses it.
    method BulkCreate(c: Uuid, ids: seq<Uuid>, role: Role) returns (ok: bool)
      modifies this`members
      ensures ok <==> forall u <- ids :: c in conversations && u in users && (c, u) !in old(members)
      ensures members == if ok then old(members) + NewRows(c, ids, role) else old(members)
    {
      if exists u <- ids :: c !in conversations || u !in users || (c, u) in members {
        return false;
      }
      members := members + NewRows(c, ids, role);
      return true;
    }

    method UpdateRole(c: Uuid, u: Uuid, role: Role)
      modifies this`members
      ensures View() == SetRole(old(View()), c, u, role)
    {
      if (c, u) in members {
        members := members[(c, u) := members[(c, u)].(role := role)];
      }
    }

    method MarkConversationAsDeleted(c: Uuid, u: Uuid, now: Time)
      modifies this`members
      ensures View() == SoftDelete(old(View()), c, u, now)
    {
      if (c, u) in members {
        members := members[(c, u) := members[(c, u)].(softDeletedAt := Some(now))];
      }
    }

    method RestoreConversation(c: Uuid, u: Uuid, now: Time)
      modifies this`members
      ensures View() == Restore(old(View()), c, u, now)
    {
      if (c, u) in members {
        members := members[(c, u) := members[(c, u)].(softDeletedAt := None, restoredAt := Some(now))];
      }
    }

    method IncrementUnreadCount(c: Uuid, u: Uuid)
      modifies this`members
      ensures View() == CountUnread(old(View()), c, {u})
    {
      if (c, u) in members {
        members := members[(c, u) := members[(c, u)].(unread := members[(c, u)].unread + 1)];
      }
    }

    method ResetUnreadCount(c: Uuid, u: Uuid)
      modifies this`members
      ensures View() == ResetUnread(old(View()), c, u)
    {
      if (c, u) in members {
        members := members[(c, u) := members[(c, u)].(unread := 0)];
      }
    }

    // --------------------------------------------------------- events, invitations

    method CreateEvent(e: Event) returns (ok: bool)
      modifies this`events
      ensures ok <==> e.conversation in conversations
      ensures View() == if ok then Log(old(View()), e) else old(View())
    {
      if e.conversation !in conversations {
        return false;
      }
      events := events + [e];
      return true;
    }

    method CreateInvitation(i: Invitation) returns (ok: bool)
      modifies this`invitations
      ensures ok <==> i.conversation in conversations && i.actor in users && i.target in users
      ensures invitations == if ok then old(invitations) + [i] else old(invitations)
    {
      if i.conversation !in conversations || i.actor !in users || i.target !in users {
        return false;
      }
      invitations := invitations + [i];
      return true;
    }

    method UpdateInvitations(c: Uuid, target: Uuid, status: InvitationStatus)
      modifies this`invitations
      ensures View() == SetInvitations(old(View()), c, target, status)
    {
      invitations := SetInvitations(View(), c, target, status).invitations;
    }

    // ---------------------------------------------------- messages and what hangs on them

    method SaveMessage(id: Uuid, row: Message) returns (ok: bool)
      modifies this`messages
      ensures ok <==>
                && id !in old(messages) && row.conversation in conversations
                && (row.sender.Some? ==> row.sender.value in users)
      ensures messages == if ok then old(messages)[id := row] else old(messages)
    {
      if id in messages || row.conversation !in conversations || (row.sender.Some? && row.sender.value !in users) {
        return false;
      }
      messages := messages[id := row];
      return true;
    }

    method DeleteMessageRows(gone: set<Uuid>)
      modifies this
      ensures View() == DropMessages(old(View()), gone)
    {
      SetTables(DropMessages(View(), gone));
    }

    method CreateDeliveries(rows: seq<Delivery>)
      modifies this`deliveries
      ensures deliveries == old(deliveries) + rows
    {
      deliveries := deliveries + rows;
    }

    method UpdateDeliveries(u: Uuid, ids: set<Uuid>)
      modifies this`deliveries
      ensures View() == MarkDelivered(old(View()), u, ids)
    {
      deliveries := MarkDelivered(View(), u, ids).deliveries;
    }

    method CreateAttachments(rows: seq<Attachment>)
      modifies this`attachments
      ensures attachments == old(attachments) + rows
    {
      attachments := attachments + rows;
    }

    method CreateUpload(id: Uuid, row: Upload)
      modifies this`uploads
      ensures uploads == old(uploads)[id := row]
    {
      uploads := uploads[id := row];
    }

    method DeleteUpload(id: Uuid)
      modifies this`uploads
      ensures uploads == old(uploads) - {id}
    {
      uploads := uploads - {id};
    }

    method DeleteUserRow(u: Uuid)
      modifies this
      ensures View() == DropUser(old(View()), u)
    {
      SetTables(DropUser(View(), u));
    }
  }
}
