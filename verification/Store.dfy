/**
 * The relational store: one row type per entity, the tables, and what the
 * database does when rows are deleted (the declared ON DELETE rules).
 */
module Store {
  import opened Prelude
  import opened Tables

  datatype Kind = Private | Group
  datatype Role = Owner | Member
  datatype EventKind = GroupCreated | MemberJoined | MemberLeft | MemberRemoved | OwnershipTransferred
  datatype InvitationStatus = Pending | Accepted | Rejected
  datatype Status = Sent | Delivered | Read

  datatype Digest = Sha256(text: string)

  // The object key users/<user>/attachments/<file>.bin
  datatype StorageKey = StorageKey(user: Uuid, file: Uuid)
  datatype FileInfo = FileInfo(fileName: string, contentType: string, size: nat)

  datatype Conversation = Conversation(kind: Kind, privateKey: Option<Digest>, lastMessage: Option<Uuid>)
  datatype Membership = Membership(role: Role, softDeletedAt: Option<Time>, restoredAt: Option<Time>, unread: nat)
  datatype Event = Event(conversation: Uuid, kind: EventKind, actor: Uuid, target: Option<Uuid>)
  datatype Invitation =
    Invitation(conversation: Uuid, actor: Uuid, target: Uuid, status: InvitationStatus, expiresAt: Time)
  datatype Message = Message(conversation: Uuid, sender: Option<Uuid>, createdAt: Time)
  datatype Delivery = Delivery(message: Uuid, user: Uuid, status: Status)
  datatype Attachment = Attachment(message: Uuid, storageKey: StorageKey, info: FileInfo)
  datatype Upload = Upload(user: Uuid, storageKey: StorageKey, info: FileInfo, expiresAt: Time)

  // Keyed tables are maps; tables only ever scanned keep insertion order, which
  // is the order of their createdAt column. `files` is the bucket.
  datatype Db = Db(
    users: map<Uuid, UserRole>,
    conversations: map<Uuid, Conversation>,
    members: map<(Uuid, Uuid), Membership>,
    events: seq<Event>,
    invitations: seq<Invitation>,
    messages: map<Uuid, Message>,
    deliveries: seq<Delivery>,
    attachments: seq<Attachment>,
    uploads: map<Uuid, Upload>,
    files: set<StorageKey>)

  const EMPTY := Db(map[], map[], map[], [], [], map[], [], [], map[], {})

  // ------------------------------------------------------------ ON DELETE rules

  function DropMessages(db: Db, gone: set<Uuid>): Db {
    db.(messages := db.messages - gone,
        deliveries := Keep(db.deliveries, (d: Delivery) => d.message !in gone),
        attachments := Keep(db.attachments, (a: Attachment) => a.message !in gone),
        conversations := map c <- db.conversations ::
          var row := db.conversations[c];
          if row.lastMessage.Some? && row.lastMessage.value in gone then row.(lastMessage := None) else row)
  }

  function MessagesIn(db: Db, conversations: set<Uuid>): set<Uuid> {
    set m | m in db.messages && db.messages[m].conversation in conversations
  }

  function DropConversations(db: Db, gone: set<Uuid>): Db {
    var db' := DropMessages(db, MessagesIn(db, gone));
    db'.(conversations := db'.conversations - gone,
         members := map k | k in db.members && k.0 !in gone :: db.members[k],
         events := Keep(db.events, (e: Event) => e.conversation !in gone),
         invitations := Keep(db.invitations, (i: Invitation) => i.conversation !in gone))
  }

  function DropUser(db: Db, user: Uuid): Db {
    db.(users := db.users - {user},
        members := map k | k in db.members && k.1 != user :: db.members[k],
        invitations := Keep(db.invitations, (i: Invitation) => i.actor != user && i.target != user),
        uploads := map u | u in db.uploads && db.uploads[u].user != user :: db.uploads[u],
        messages := map m <- db.messages ::
          if db.messages[m].sender == Some(user) then db.messages[m].(sender := None) else db.messages[m])
  }

  // -------------------------------------------------------------- foreign keys

  ghost predicate MembersRef(db: Db) {
    forall k <- db.members :: k.0 in db.conversations && k.1 in db.users
  }

  ghost predicate MessagesRef(db: Db) {
    && (forall m <- db.messages ::
          db.messages[m].conversation in db.conversations
          && (db.messages[m].sender.Some? ==> db.messages[m].sender.value in db.users))
    && (forall d <- db.deliveries :: d.message in db.messages)
    && (forall a <- db.attachments :: a.message in db.messages)
  }

  ghost predicate LogsRef(db: Db) {
    && (forall e <- db.events :: e.conversation in db.conversations)
    && (forall i <- db.invitations :: i.conversation in db.conversations && i.actor in db.users && i.target in db.users)
    && (forall u <- db.uploads :: db.uploads[u].user in db.users)
  }

  // Stronger than the foreign key: the last message is one of the same conversation.
  ghost predicate LastMessageOk(db: Db) {
    forall c <- db.conversations ::
      db.conversations[c].lastMessage.Some? ==>
        var m := db.conversations[c].lastMessage.value;
        m in db.messages && db.messages[m].conversation == c
  }

  ghost predicate References(db: Db) {
    MembersRef(db) && MessagesRef(db) && LogsRef(db) && LastMessageOk(db)
  }

  ghost predicate Populated(db: Db) {
    forall c <- db.conversations :: exists u :: (c, u) in db.members
  }

  lemma DropMessagesKeepsReferences(db: Db, gone: set<Uuid>)
    requires References(db)
    ensures References(DropMessages(db, gone))
  {
  }

  lemma DropConversationsKeepsReferences(db: Db, gone: set<Uuid>)
    requires References(db)
    ensures References(DropConversations(db, gone))
  {
  }

  lemma DropUserKeepsReferences(db: Db, user: Uuid)
    requires References(db)
    ensures References(DropUser(db, user))
  {
  }
}
