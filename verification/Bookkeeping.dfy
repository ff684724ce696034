/**
 * Messages, deliveries, attachments and files: what each operation of the
 * message, storage and administration services keeps.
 */
module Bookkeeping {
  import opened Prelude
  import opened Tables
  import opened Store
  import opened Groups
  import opened Messaging
  import opened Integrity

  // ------------------------------------------------------- the store stays sound

  lemma StoreMessageKeepsReferences(db: Db, c: Uuid, sender: Uuid, recipients: set<Uuid>, id: Uuid, now: Time)
    requires References(db) && c in db.conversations && sender in db.users && id !in db.messages
    ensures References(StoreMessage(db, c, sender, recipients, id, now))
  {
  }

  lemma StoreMessageKeepsShape(db: Db, c: Uuid, sender: Uuid, recipients: set<Uuid>, id: Uuid, now: Time)
    requires Shape(db) && c in db.conversations
    ensures Shape(StoreMessage(db, c, sender, recipients, id, now))
  {
    ShapeKept(db, StoreMessage(db, c, sender, recipients, id, now));
  }

  lemma StoreMessageKeepsOwners(db: Db, c: Uuid, sender: Uuid, recipients: set<Uuid>, id: Uuid, now: Time)
    requires MembersRef(db) && OwnersAreLogged(db) && InvitesToGroups(db) && c in db.conversations
    ensures var db' := StoreMessage(db, c, sender, recipients, id, now);
            OwnersAreLogged(db') && InvitesToGroups(db') && (GroupsAreOwned(db) ==> GroupsAreOwned(db'))
  {
  }

  lemma CountUnreadTouches(db: Db, c: Uuid, recipients: set<Uuid>)
    requires References(db)
    ensures Touches(db, CountUnread(db, c, recipients))
  {
  }

  lemma AttachKeepsSound(db: Db, rows: seq<Attachment>, uploads: map<Uuid, Upload>)
    requires Sound(db)
    requires forall a <- rows :: a.message in db.messages
    requires forall u <- uploads :: u in db.uploads && uploads[u] == db.uploads[u]
    ensures var db' := db.(attachments := db.attachments + rows, uploads := uploads);
            Sound(db') && (GroupsAreOwned(db) ==> GroupsAreOwned(db'))
  {
    AttachKeepsReferences(db, rows, uploads);
    AttachKeepsTheRest(db, rows, uploads);
  }

  lemma AttachKeepsTheRest(db: Db, rows: seq<Attachment>, uploads: map<Uuid, Upload>)
    requires Shape(db) && MembersRef(db) && OwnersAreLogged(db) && InvitesToGroups(db)
    ensures var db' := db.(attachments := db.attachments + rows, uploads := uploads);
            Shape(db') && OwnersAreLogged(db') && InvitesToGroups(db') && (GroupsAreOwned(db) ==> GroupsAreOwned(db'))
  {
    var db' := db.(attachments := db.attachments + rows, uploads := uploads);
    ShapeKept(db, db');
    OwnersKept(db, db');
  }

  lemma AttachKeepsReferences(db: Db, rows: seq<Attachment>, uploads: map<Uuid, Upload>)
    requires References(db)
    requires forall a <- rows :: a.message in db.messages
    requires forall u <- uploads :: u in db.uploads && uploads[u] == db.uploads[u]
    ensures References(db.(attachments := db.attachments + rows, uploads := uploads))
  {
  }

  lemma StoreMessageKeepsSound(db: Db, c: Uuid, sender: Uuid, recipients: set<Uuid>, id: Uuid, now: Time)
    requires Sound(db) && c in db.conversations && sender in db.users && id !in db.messages
    ensures var db' := StoreMessage(db, c, sender, recipients, id, now);
            Sound(db') && (GroupsAreOwned(db) ==> GroupsAreOwned(db'))
  {
    StoreMessageKeepsReferences(db, c, sender, recipients, id, now);
    StoreMessageKeepsShape(db, c, sender, recipients, id, now);
    StoreMessageKeepsOwners(db, c, sender, recipients, id, now);
  }

  // The store after the message and the counters, before the attachments.
  function Counted(db: Db, c: Uuid, sender: Uuid, snapshot: set<Uuid>, id: Uuid, now: Time): Db
    requires c in db.conversations
  {
    CountUnread(StoreMessage(db, c, sender, snapshot - {sender}, id, now), c, snapshot - {sender})
  }

  lemma CountedKeepsSound(db: Db, c: Uuid, sender: Uuid, snapshot: set<Uuid>, id: Uuid, now: Time)
    requires Sound(db) && c in db.conversations && sender in db.users && id !in db.messages
    ensures var db' := Counted(db, c, sender, snapshot, id, now);
            Sound(db') && id in db'.messages && (GroupsAreOwned(db) ==> GroupsAreOwned(db'))
  {
    var stored := StoreMessage(db, c, sender, snapshot - {sender}, id, now);
    StoreMessageKeepsSound(db, c, sender, snapshot - {sender}, id, now);
    CountUnreadTouches(stored, c, snapshot - {sender});
    TouchesKeepsSound(stored, CountUnread(stored, c, snapshot - {sender}));
  }

  lemma CommitIsAttach(db: Db, c: Uuid, sender: Uuid, snapshot: set<Uuid>, uploads: seq<Uuid>, id: Uuid, now: Time)
    requires CommitMessage(db, c, sender, snapshot, uploads, id, now).Ok?
    ensures c in db.conversations && sender in db.users && id !in db.messages
    ensures var counted := Counted(db, c, sender, snapshot, id, now);
            var db' := CommitMessage(db, c, sender, snapshot, uploads, id, now).value;
            && (forall u <- uploads :: Usable(db, sender, u, now))
            && (forall u <- uploads :: u in counted.uploads)
            && db' == counted.(attachments := counted.attachments + Attached(counted, uploads, id),
                               uploads := db'.uploads)
            && db'.uploads == map u | u in db.uploads && u !in uploads :: db.uploads[u]
  {
    var counted := Counted(db, c, sender, snapshot, id, now);
    NoProblemIff(counted, sender, uploads, now);
    forall u <- uploads ensures Usable(db, sender, u, now) {
      assert Usable(counted, sender, u, now);
    }
  }

  // A message is committed exactly when the database takes the row and every upload
  // it names can be attached.
  lemma CommitsIff(db: Db, c: Uuid, sender: Uuid, snapshot: set<Uuid>, uploads: seq<Uuid>, id: Uuid, now: Time)
    ensures CommitMessage(db, c, sender, snapshot, uploads, id, now).Ok? <==>
              && c in db.conversations && sender in db.users && id !in db.messages
              && forall u <- uploads :: Usable(db, sender, u, now)
  {
    if c in db.conversations && sender in db.users && id !in db.messages {
      var counted := Counted(db, c, sender, snapshot, id, now);
      NoProblemIff(counted, sender, uploads, now);
      assert forall u <- uploads :: Usable(counted, sender, u, now) <==> Usable(db, sender, u, now);
    }
  }

  lemma CommitKeepsSound(db: Db, c: Uuid, sender: Uuid, snapshot: set<Uuid>, uploads: seq<Uuid>, id: Uuid, now: Time)
    requires Sound(db) && CommitMessage(db, c, sender, snapshot, uploads, id, now).Ok?
    ensures var db' := CommitMessage(db, c, sender, snapshot, uploads, id, now).value;
            Sound(db') && (GroupsAreOwned(db) ==> GroupsAreOwned(db'))
  {
    CommitIsAttach(db, c, sender, snapshot, uploads, id, now);
    CountedKeepsSound(db, c, sender, snapshot, id, now);
    var counted := Counted(db, c, sender, snapshot, id, now);
    var db' := CommitMessage(db, c, sender, snapshot, uploads, id, now).value;
    AttachKeepsSound(counted, Attached(counted, uploads, id), db'.uploads);
  }

  // No table but the members is different, and there no counter.
  ghost predicate SameButMarks(db: Db, db': Db) {
    && db' == db.(members := db'.members) && db'.members.Keys == db.members.Keys
    && forall k <- db.members :: db'.members[k].unread == db.members[k].unread
  }

  lemma RestoreIfRows(db: Db, gone: bool, c: Uuid, u: Uuid, now: Time)
    ensures SameButMarks(db, RestoreIf(db, gone, c, u, now))
  {
  }

  lemma RestoredRows(db: Db, r: Reading, now: Time)
    ensures SameButMarks(db, Restored(db, r, now))
  {
    if r.PrivateRead? {
      var one := RestoreIf(db, r.senderGone, r.c, r.sender, now);
      RestoreIfRows(db, r.senderGone, r.c, r.sender, now);
      RestoreIfRows(one, r.receiverGone, r.c, r.receiver, now);
    }
  }

  // Read as soft-deleted, hence restored by the transaction.
  predicate ReadAsGone(r: Reading, u: Uuid) {
    r.PrivateRead? && ((u == r.sender && r.senderGone) || (u == r.receiver && r.receiverGone))
  }

  function Revived(row: Membership, gone: bool, now: Time): Membership {
    if gone then row.(softDeletedAt := None, restoredAt := Some(now)) else row
  }

  lemma RestoreIfExactly(db: Db, gone: bool, c: Uuid, u: Uuid, now: Time)
    ensures var db' := RestoreIf(db, gone, c, u, now);
            && db'.members.Keys == db.members.Keys
            && forall k <- db.members :: db'.members[k] == Revived(db.members[k], k == (c, u) && gone, now)
  {
  }

  lemma RestoredExactly(db: Db, r: Reading, now: Time)
    ensures var db' := Restored(db, r, now);
            && db'.members.Keys == db.members.Keys
            && forall k <- db.members ::
                 db'.members[k] == Revived(db.members[k], k.0 == r.c && ReadAsGone(r, k.1), now)
  {
    if r.PrivateRead? {
      var one := RestoreIf(db, r.senderGone, r.c, r.sender, now);
      RestoreIfExactly(db, r.senderGone, r.c, r.sender, now);
      RestoreIfExactly(one, r.receiverGone, r.c, r.receiver, now);
    }
  }

  lemma CountedRows(db: Db, r: Reading, uploads: seq<Uuid>, id: Uuid, now: Time)
    requires CommitMessage(db, r.c, r.sender, r.snapshot, uploads, id, now).Ok?
    ensures var db' := CommitMessage(db, r.c, r.sender, r.snapshot, uploads, id, now).value;
            && db'.members.Keys == db.members.Keys
            && forall k <- db.members :: var row := db.members[k];
                 db'.members[k] ==
                   if k.0 == r.c && k.1 in r.snapshot - {r.sender} then row.(unread := row.unread + 1) else row
  {
    CommitIsAttach(db, r.c, r.sender, r.snapshot, uploads, id, now);
  }

  function RowAfter(db: Db, r: Reading, k: (Uuid, Uuid), now: Time): Membership
    requires k in db.members
  {
    var row := Revived(db.members[k], k.0 == r.c && ReadAsGone(r, k.1), now);
    if k.0 == r.c && k.1 in r.snapshot - {r.sender} then row.(unread := row.unread + 1) else row
  }

  // The member rows after a send transaction that rests on any earlier reading: the
  // rows read as gone are restored, the recipients as read are counted, and nothing
  // the rows have become since is looked at.
  lemma RowsAfterMessage(db: Db, r: Reading, uploads: seq<Uuid>, id: Uuid, now: Time)
    requires StoreRead(db, r, uploads, id, now).error.None?
    ensures var db' := StoreRead(db, r, uploads, id, now).db;
            db'.members.Keys == db.members.Keys && forall k <- db.members :: db'.members[k] == RowAfter(db, r, k, now)
  {
    RestoredExactly(db, r, now);
    CountedRows(Restored(db, r, now), r, uploads, id, now);
  }

  lemma RestoredKeepsSound(db: Db, r: Reading, now: Time)
    requires Sound(db)
    ensures var db' := Restored(db, r, now); Sound(db') && (GroupsAreOwned(db) ==> GroupsAreOwned(db'))
  {
    if r.PrivateRead? {
      RestoreKeepsSound(db, r.c, r.sender, now);
      RestoreKeepsSound(RestoreIf(db, r.senderGone, r.c, r.sender, now), r.c, r.receiver, now);
    }
  }

  // Whatever was read before, and however long ago.
  lemma StoreReadKeepsSound(db: Db, r: Reading, uploads: seq<Uuid>, id: Uuid, now: Time)
    requires Sound(db)
    ensures Sound(StoreRead(db, r, uploads, id, now).db)
    ensures GroupsAreOwned(db) ==> GroupsAreOwned(StoreRead(db, r, uploads, id, now).db)
  {
    var db' := Restored(db, r, now);
    RestoredKeepsSound(db, r, now);
    if CommitMessage(db', r.c, r.sender, r.snapshot, uploads, id, now).Ok? {
      CommitKeepsSound(db', r.c, r.sender, r.snapshot, uploads, id, now);
    }
  }

  lemma SendGroupKeepsSound(db: Db, sender: Uuid, c: Uuid, uploads: seq<Uuid>, id: Uuid, now: Time)
    requires Sound(db)
    ensures Sound(SendGroup(db, sender, c, uploads, id, now).db)
    ensures GroupsAreOwned(db) ==> GroupsAreOwned(SendGroup(db, sender, c, uploads, id, now).db)
  {
    StoreReadKeepsSound(db, ReadGroup(db, sender, c), uploads, id, now);
  }

  lemma SendPrivateKeepsSound(db: Db, sender: Uuid, receiver: Uuid, uploads: seq<Uuid>, newId: Uuid, id: Uuid,
                              now: Time)
    requires Sound(db)
    ensures Sound(SendPrivate(db, sender, receiver, uploads, newId, id, now).db)
    ensures GroupsAreOwned(db) ==> GroupsAreOwned(SendPrivate(db, sender, receiver, uploads, newId, id, now).db)
  {
    match GetOrCreatePrivate(db, sender, [receiver], newId)
    case Denied(_) =>
    case Found(c) => StoreReadKeepsSound(db, ReadPrivate(db, c, sender, receiver), uploads, id, now);
    case Created(c, db') =>
      CreatePrivateKeepsSound(db, sender, receiver, newId);
      StoreReadKeepsSound(db', ReadPrivate(db', c, sender, receiver), uploads, id, now);
  }

  lemma RelabelledMessages(rows: seq<Delivery>, i: nat, status: Status, messages: set<Uuid>)
    requires i < |rows| && forall d <- rows :: d.message in messages
    ensures var rows' := rows[i := rows[i].(status := status)]; forall d <- rows' :: d.message in messages
  {
    var rows' := rows[i := rows[i].(status := status)];
    forall d <- rows' ensures d.message in messages {
      var n :| 0 <= n < |rows'| && rows'[n] == d;
      assert rows[n] in rows;
    }
  }

  lemma ConfirmTouches(db: Db, u: Uuid, c: Uuid, message: Uuid, status: Status)
    requires References(db)
    ensures Touches(db, ConfirmDelivery(db, u, c, message, status))
  {
    var i := FindDelivery(db.deliveries, message, u);
    if i < |db.deliveries| {
      var deliveries := db.deliveries[i := db.deliveries[i].(status := status)];
      RelabelledMessages(db.deliveries, i, status, db.messages.Keys);
      RelabelledTouches(db, deliveries);
      RelabelledTouches(ResetUnread(db, c, u), deliveries);
    } else {
      RelabelledTouches(db, db.deliveries);
    }
  }

  lemma RelabelledTouches(db: Db, deliveries: seq<Delivery>)
    requires forall d <- deliveries :: d.message in db.messages
    ensures Touches(db, db.(deliveries := deliveries))
  {
  }

  lemma MarkDeliveredTouches(db: Db, u: Uuid, ids: set<Uuid>)
    requires References(db)
    ensures Touches(db, MarkDelivered(db, u, ids))
  {
  }

  lemma DeleteMessagesKeepsSound(db: Db, c: Uuid, ids: set<Uuid>)
    requires Sound(db)
    ensures Sound(DeleteMessages(db, c, ids)) && (GroupsAreOwned(db) ==> GroupsAreOwned(DeleteMessages(db, c, ids)))
  {
    var gone := set m | m in db.messages && m in ids && db.messages[m].conversation == c;
    DropMessagesKeepsSound(db, gone);
    FilesDoNotMatter(DropMessages(db, gone), db.files - KeysOf(db, gone));
  }

  // ------------------------------------------------ one delivery for each recipient

  function DeliveryKey(d: Delivery): (Uuid, Uuid) {
    (d.message, d.user)
  }

  // (message, user) is unique although the schema does not say so.
  ghost predicate OneDeliveryEach(db: Db) {
    Distinct(db.deliveries, DeliveryKey)
  }

  // The deliveries of a new message: one SENT row for each member of the snapshot but the sender.
  lemma CommitDeliversToSnapshot(db: Db, c: Uuid, sender: Uuid, snapshot: set<Uuid>, uploads: seq<Uuid>, id: Uuid,
                                 now: Time)
    requires OneDeliveryEach(db) && forall d <- db.deliveries :: d.message in db.messages
    requires CommitMessage(db, c, sender, snapshot, uploads, id, now).Ok?
    ensures var db' := CommitMessage(db, c, sender, snapshot, uploads, id, now).value;
            && OneDeliveryEach(db') && db.deliveries <= db'.deliveries
            && (forall u: Uuid :: Delivery(id, u, Sent) in db'.deliveries <==> u in snapshot && u != sender)
            && (forall d <- db'.deliveries :: d.message == id ==> d.status == Sent)
  {
    var users := Enumerate(snapshot - {sender});
    var added := Deliveries(id, users);
    var all := db.deliveries + added;
    forall i, j | 0 <= i < j < |all| ensures DeliveryKey(all[i]) != DeliveryKey(all[j]) {
      if j >= |db.deliveries| {
        if i < |db.deliveries| {
          assert db.deliveries[i] in db.deliveries;
        }
      }
    }
    forall u: Uuid ensures Delivery(id, u, Sent) in all <==> u in snapshot && u != sender {
      if u in users {
        var i :| 0 <= i < |users| && users[i] == u;
        assert added[i] == Delivery(id, u, Sent);
      }
    }
  }

  lemma DropKeepsDeliveries(db: Db, gone: set<Uuid>)
    requires OneDeliveryEach(db)
    ensures OneDeliveryEach(DropMessages(db, gone))
  {
    KeepDistinct(db.deliveries, (d: Delivery) => d.message !in gone, DeliveryKey);
  }

  // --------------------------------------------------------------- keys and files

  function AttachmentKey(a: Attachment): StorageKey {
    a.storageKey
  }

  // A storage key names one row over both tables, and an attached file exists unless
  // it is one of `lost`.
  ghost predicate KeysApart(db: Db) {
    && Distinct(db.attachments, AttachmentKey)
    && (forall u, v :: u in db.uploads && v in db.uploads && u != v ==>
          db.uploads[u].storageKey != db.uploads[v].storageKey)
    && (forall u, a :: u in db.uploads && a in db.attachments ==> db.uploads[u].storageKey != a.storageKey)
  }

  ghost predicate FilesPresent(db: Db, lost: set<StorageKey>) {
    forall a <- db.attachments :: a.storageKey in db.files || a.storageKey in lost
  }

  ghost predicate FilesOk(db: Db, lost: set<StorageKey>) {
    KeysApart(db) && FilesPresent(db, lost)
  }

  // Naming an upload twice attaches its key twice; otherwise keys stay apart.
  lemma AttachKeepsKeysApartIff(db: Db, user: Uuid, ids: seq<Uuid>, message: Uuid, now: Time)
    requires KeysApart(db) && AttachUploads(db, user, ids, message, now).Ok?
    ensures KeysApart(AttachUploads(db, user, ids, message, now).value) <==> Distinct(ids, (id: Uuid) => id)
  {
    NoProblemIff(db, user, ids, now);
    RowsApartIff(db, AttachUploads(db, user, ids, message, now).value, ids, Attached(db, ids, message));
  }

  lemma RowsApartIff(db: Db, db': Db, ids: seq<Uuid>, rows: seq<Attachment>)
    requires KeysApart(db) && |rows| == |ids|
    requires forall i :: 0 <= i < |ids| ==> ids[i] in db.uploads && rows[i].storageKey == db.uploads[ids[i]].storageKey
    requires db'.attachments == db.attachments + rows
    requires db'.uploads == map u | u in db.uploads && u !in ids :: db.uploads[u]
    ensures KeysApart(db') <==> Distinct(ids, (id: Uuid) => id)
  {
    if Distinct(ids, (id: Uuid) => id) {
      AttachedApart(db, db', ids, rows);
    } else {
      var i, j :| 0 <= i < j < |ids| && ids[i] == ids[j];
      SharedKey(db', |db.attachments| + i, |db.attachments| + j);
    }
  }

  lemma SharedKey(db: Db, i: nat, j: nat)
    requires i < j < |db.attachments| && db.attachments[i].storageKey == db.attachments[j].storageKey
    ensures !KeysApart(db)
  {
    assert AttachmentKey(db.attachments[i]) == AttachmentKey(db.attachments[j]);
  }

  lemma AttachedApart(db: Db, db': Db, ids: seq<Uuid>, rows: seq<Attachment>)
    requires KeysApart(db) && Distinct(ids, (id: Uuid) => id) && |rows| == |ids|
    requires forall i :: 0 <= i < |ids| ==> ids[i] in db.uploads && rows[i].storageKey == db.uploads[ids[i]].storageKey
    requires db'.attachments == db.attachments + rows
    requires db'.uploads == map u | u in db.uploads && u !in ids :: db.uploads[u]
    ensures KeysApart(db')
  {
  }

  lemma CommitKeepsFilesOkIff(db: Db, c: Uuid, sender: Uuid, snapshot: set<Uuid>, uploads: seq<Uuid>, id: Uuid,
                              now: Time, lost: set<StorageKey>)
    requires FilesOk(db, lost) && CommitMessage(db, c, sender, snapshot, uploads, id, now).Ok?
    ensures FilesOk(CommitMessage(db, c, sender, snapshot, uploads, id, now).value, lost)
            <==> Distinct(uploads, (u: Uuid) => u)
  {
    CommitIsAttach(db, c, sender, snapshot, uploads, id, now);
    var counted := Counted(db, c, sender, snapshot, id, now);
    assert KeysApart(counted);
    AttachKeepsKeysApartIff(counted, sender, uploads, id, now);
    NoProblemIff(counted, sender, uploads, now);
    var db' := CommitMessage(db, c, sender, snapshot, uploads, id, now).value;
    forall a <- db'.attachments ensures a.storageKey in db'.files || a.storageKey in lost {
      if a !in db.attachments {
        var i :| 0 <= i < |uploads| && a == Attached(counted, uploads, id)[i];
        assert Usable(counted, sender, uploads[i], now);
      }
    }
  }

  // Exactly the named uploads move, with the metadata recorded for them.
  lemma CommitMovesUploads(db: Db, c: Uuid, sender: Uuid, snapshot: set<Uuid>, uploads: seq<Uuid>, id: Uuid, now: Time)
    requires CommitMessage(db, c, sender, snapshot, uploads, id, now).Ok?
    ensures var db' := CommitMessage(db, c, sender, snapshot, uploads, id, now).value;
            && (forall u <- uploads :: Usable(db, sender, u, now))
            && db'.uploads == (map u | u in db.uploads && u !in uploads :: db.uploads[u])
            && db'.attachments == db.attachments + Attached(db, uploads, id)
            && db'.files == db.files
  {
    CommitIsAttach(db, c, sender, snapshot, uploads, id, now);
    assert Attached(Counted(db, c, sender, snapshot, id, now), uploads, id) == Attached(db, uploads, id);
  }

  // Removing messages together with exactly their files takes no file from a survivor.
  lemma DropKeepsFilesOk(db: Db, gone: set<Uuid>, lost: set<StorageKey>)
    requires FilesOk(db, lost)
    ensures FilesOk(DropMessages(db, gone).(files := db.files - KeysOf(db, gone)), lost)
    ensures FilesOk(DropMessages(db, gone), lost)
  {
    var p := (a: Attachment) => a.message !in gone;
    KeepDistinct(db.attachments, p, AttachmentKey);
    forall a <- Keep(db.attachments, p) ensures a.storageKey !in KeysOf(db, gone) {
      forall b <- db.attachments | b.storageKey == a.storageKey ensures b == a {
        SameKeySameRow(db.attachments, AttachmentKey, a, b);
      }
    }
  }

  lemma PrepareKeepsFilesOk(db: Db, user: Uuid, f: NewFile, now: Time, lost: set<StorageKey>)
    requires FilesOk(db, lost) && f.upload !in db.uploads && !KeyInUse(db, StorageKey(user, f.file))
    ensures FilesOk(PrepareUpload(db, user, f, now), lost)
  {
  }

  lemma DeleteUserKeepsFilesOk(db: Db, user: Uuid, lost: set<StorageKey>)
    requires FilesOk(db, lost)
    ensures FilesOk(DeleteUser(db, user), lost)
  {
    var gone := Orphaned(db, user);
    DropKeepsFilesOk(db, MessagesIn(db, gone), lost);
  }

  // The bucket loses exactly the files attached in the conversations that disappear.
  lemma {:induction false} DeleteUserRemovesExactlyTheirFiles(db: Db, user: Uuid)
    requires References(db)
    ensures var db' := DeleteUser(db, user);
            && db.conversations.Keys - db'.conversations.Keys == Orphaned(db, user)
            && db'.files == db.files - (set a | a in db.attachments && a.message in db.messages
                                          && db.messages[a.message].conversation !in db'.conversations :: a.storageKey)
            && (forall a :: a in db'.attachments <==>
                  a in db.attachments && db.messages[a.message].conversation in db'.conversations)
  {
    var db' := DeleteUser(db, user);
    var gone := Orphaned(db, user);
    forall a <- db.attachments
      ensures a.message in MessagesIn(db, gone) <==> db.messages[a.message].conversation !in db'.conversations
    {
      assert a.message in db.messages;
    }
  }

  // Whoever survives keeps an owner unless the owner is the deleted user.
  lemma DeleteUserKeepsOwnerIff(db: Db, user: Uuid, c: Uuid)
    requires Sound(db) && c in DeleteUser(db, user).conversations && db.conversations[c].kind.Group? && IsOwned(db, c)
    ensures (exists u :: OwnedBy(DeleteUser(db, user), c, u)) <==> OwnerOf(db.events, c) != Some(user)
  {
    var db' := DeleteUser(db, user);
    var owner := OwnerOf(db.events, c).value;
    if owner != user {
      assert OwnedBy(db', c, owner);
    } else {
      forall u ensures !OwnedBy(db', c, u) {
        assert OwnedBy(db', c, u) ==> OwnedBy(db, c, u) && u != user;
      }
    }
  }
}
