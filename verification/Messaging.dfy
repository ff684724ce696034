/**
 * Messages, deliveries, unread counters and attachments: the message and
 * storage services on the store.
 */
module Messaging {
  import opened Prelude
  import opened Tables
  import opened Store
  import opened Groups

  datatype SendError = NotAllowed(why: Refusal) | InvalidUpload | UploadExpired | UploadNotFound

  // ------------------------------------------------------------------ snapshots

  predicate IsLeast(x: Uuid, ids: set<Uuid>) {
    x in ids && forall y <- ids :: x <= y
  }

  lemma {:induction false} LeastExists(ids: set<Uuid>) returns (least: Uuid)
    requires ids != {}
    ensures IsLeast(least, ids)
    decreases |ids|
  {
    var x :| x in ids;
    var rest := ids - {x};
    if rest == {} {
      assert forall y <- ids :: y == x || y in rest;
      least := x;
    } else {
      var m := LeastExists(rest);
      least := if x <= m then x else m;
      assert forall y <- ids :: y == x || y in rest;
    }
  }

  lemma LeastIsUnique(ids: set<Uuid>)
    requires ids != {}
    ensures exists x :: IsLeast(x, ids)
    ensures forall x, y :: IsLeast(x, ids) && IsLeast(y, ids) ==> x == y
  {
    var x := LeastExists(ids);
  }

  // The rows a query returned, one id each.
  function Enumerate(ids: set<Uuid>): (r: seq<Uuid>)
    ensures |r| == |ids| && (forall x :: x in r <==> x in ids)
    ensures Distinct(r, (id: Uuid) => id)
  {
    if ids == {} then []
    else
      LeastIsUnique(ids);
      var x :| x in ids && IsLeast(x, ids);
      [x] + Enumerate(ids - {x})
  }

  function AllMembers(db: Db, c: Uuid): set<Uuid> {
    set k | k in db.members && k.0 == c :: k.1
  }

  function ActiveMembers(db: Db, c: Uuid): set<Uuid> {
    set k | k in db.members && k.0 == c && db.members[k].softDeletedAt.None? :: k.1
  }

  // ---------------------------------------------------------------- attachments

  // The first reason for which one of the named uploads cannot be attached.
  function UploadProblem(db: Db, user: Uuid, ids: seq<Uuid>, now: Time): Option<SendError> {
    if ids == [] then None
    else
      var problem := UploadProblem(db, user, ids[..|ids| - 1], now);
      var id := ids[|ids| - 1];
      if problem.Some? then problem
      else if id !in db.uploads || db.uploads[id].user != user then Some(InvalidUpload)
      else if db.uploads[id].expiresAt < now then Some(UploadExpired)
      else if db.uploads[id].storageKey !in db.files then Some(UploadNotFound)
      else None
  }

  predicate Usable(db: Db, user: Uuid, id: Uuid, now: Time) {
    id in db.uploads && db.uploads[id].user == user && now <= db.uploads[id].expiresAt
    && db.uploads[id].storageKey in db.files
  }

  lemma {:induction false} NoProblemIff(db: Db, user: Uuid, ids: seq<Uuid>, now: Time)
    ensures UploadProblem(db, user, ids, now).None? <==> forall id <- ids :: Usable(db, user, id, now)
  {
    if ids != [] {
      var front, last := ids[..|ids| - 1], ids[|ids| - 1];
      NoProblemIff(db, user, front, now);
      assert ids == front + [last];
      assert UploadProblem(db, user, ids, now).None?
             <==> UploadProblem(db, user, front, now).None? && Usable(db, user, last, now);
    }
  }

  predicate IsProblem(db: Db, user: Uuid, id: Uuid, now: Time, e: SendError) {
    var known := id in db.uploads && db.uploads[id].user == user;
    match e
    case NotAllowed(_) => false
    case InvalidUpload => !known
    case UploadExpired => known && db.uploads[id].expiresAt < now
    case UploadNotFound => known && now <= db.uploads[id].expiresAt && db.uploads[id].storageKey !in db.files
  }

  predicate IsFirstProblem(db: Db, user: Uuid, ids: seq<Uuid>, now: Time, e: SendError, i: nat) {
    i < |ids| && IsProblem(db, user, ids[i], now, e) && forall id <- ids[..i] :: Usable(db, user, id, now)
  }

  // What is reported is the problem of the first upload that has one.
  lemma {:induction false} ProblemIsTheFirst(db: Db, user: Uuid, ids: seq<Uuid>, now: Time, e: SendError)
    ensures UploadProblem(db, user, ids, now) == Some(e) <==>
              exists i :: IsFirstProblem(db, user, ids, now, e, i)
  {
    if ids != [] {
      var front, n := ids[..|ids| - 1], |ids| - 1;
      ProblemIsTheFirst(db, user, front, now, e);
      NoProblemIff(db, user, front, now);
      forall i: nat | i < n
        ensures IsFirstProblem(db, user, ids, now, e, i) <==> IsFirstProblem(db, user, front, now, e, i)
      {
        assert front[..i] == ids[..i];
      }
      assert IsFirstProblem(db, user, ids, now, e, n) <==>
             UploadProblem(db, user, front, now).None? && IsProblem(db, user, ids[n], now, e);
    }
  }

  // The attachment takes its metadata from the stored upload, not from the message.
  function Attached(db: Db, ids: seq<Uuid>, message: Uuid): (rows: seq<Attachment>)
    requires forall id <- ids :: id in db.uploads
    ensures |rows| == |ids|
    ensures forall i :: 0 <= i < |ids| ==>
              rows[i] == Attachment(message, db.uploads[ids[i]].storageKey, db.uploads[ids[i]].info)
  {
    seq(|ids|, i requires 0 <= i < |ids| =>
      Attachment(message, db.uploads[ids[i]].storageKey, db.uploads[ids[i]].info))
  }

  function AttachUploads(db: Db, user: Uuid, ids: seq<Uuid>, message: Uuid, now: Time): Result<Db, SendError> {
    var problem := UploadProblem(db, user, ids, now);
    if problem.Some? then Err(problem.value)
    else
      NoProblemIff(db, user, ids, now);
      Ok(db.(attachments := db.attachments + Attached(db, ids, message),
             uploads := map u | u in db.uploads && u !in ids :: db.uploads[u]))
  }

  // -------------------------------------------------------------------- fan-out

  function CountUnread(db: Db, c: Uuid, recipients: set<Uuid>): Db {
    db.(members := map k <- db.members ::
      if k.0 == c && k.1 in recipients then db.members[k].(unread := db.members[k].unread + 1) else db.members[k])
  }

  function Deliveries(message: Uuid, users: seq<Uuid>): seq<Delivery> {
    Map(users, (u: Uuid) => Delivery(message, u, Sent))
  }

  // The message, one SENT delivery for each recipient, and the pointer to it.
  function StoreMessage(db: Db, c: Uuid, sender: Uuid, recipients: set<Uuid>, id: Uuid, now: Time): Db
    requires c in db.conversations
  {
    db.(messages := db.messages[id := Message(c, Some(sender), now)],
        deliveries := db.deliveries + Deliveries(id, Enumerate(recipients)),
        conversations := db.conversations[c := db.conversations[c].(lastMessage := Some(id))])
  }

  // The transaction that stores one message for the members of a snapshot.
  function CommitMessage(db: Db, c: Uuid, sender: Uuid, snapshot: set<Uuid>, uploads: seq<Uuid>, id: Uuid, now: Time)
    : Result<Db, SendError>
  {
    if c !in db.conversations || sender !in db.users || id in db.messages then Err(NotAllowed(BrokenConstraint)) else
    var recipients := snapshot - {sender};
    var stored := StoreMessage(db, c, sender, recipients, id, now);
    AttachUploads(CountUnread(stored, c, recipients), sender, uploads, id, now)
  }

  datatype SendReply = SendReply(db: Db, error: Option<SendError>)

  function Finished(db: Db, result: Result<Db, SendError>): SendReply {
    match result
    case Ok(db') => SendReply(db', None)
    case Err(e) => SendReply(db, Some(e))
  }

  function SendGroupGuard(db: Db, sender: Uuid, c: Uuid): Option<Refusal> {
    if c !in db.conversations then Some(ConversationNotFound)
    else if !db.conversations[c].kind.Group? then Some(InvalidType)
    else if (c, sender) !in db.members then Some(NotMember)
    else if db.members[(c, sender)].softDeletedAt.Some? then Some(LeftGroup)
    else None
  }

  // What a send operation reads before its transaction: the recipients, and for a
  // private message which of the two rows were soft-deleted.
  datatype Reading =
    | GroupRead(sender: Uuid, c: Uuid, snapshot: set<Uuid>)
    | PrivateRead(sender: Uuid, c: Uuid, snapshot: set<Uuid>, receiver: Uuid, senderGone: bool, receiverGone: bool)

  predicate IsHidden(db: Db, c: Uuid, u: Uuid) {
    (c, u) in db.members && db.members[(c, u)].softDeletedAt.Some?
  }

  function ReadGroup(db: Db, sender: Uuid, c: Uuid): Reading {
    GroupRead(sender, c, ActiveMembers(db, c))
  }

  function ReadPrivate(db: Db, c: Uuid, sender: Uuid, receiver: Uuid): Reading {
    PrivateRead(sender, c, AllMembers(db, c), receiver, IsHidden(db, c, sender), IsHidden(db, c, receiver))
  }

  // A send operation that reads now gets this reading.
  predicate ReadsNow(db: Db, r: Reading) {
    match r
    case GroupRead(sender, c, _) => SendGroupGuard(db, sender, c).None? && r == ReadGroup(db, sender, c)
    case PrivateRead(sender, c, _, receiver, _, _) => r == ReadPrivate(db, c, sender, receiver)
  }

  function RestoreIf(db: Db, gone: bool, c: Uuid, u: Uuid, now: Time): Db {
    if gone then Restore(db, c, u, now) else db
  }

  function Restored(db: Db, r: Reading, now: Time): Db {
    match r
    case GroupRead(_, _, _) => db
    case PrivateRead(sender, c, _, receiver, senderGone, receiverGone) =>
      RestoreIf(RestoreIf(db, senderGone, c, sender, now), receiverGone, c, receiver, now)
  }

  // The transaction of a send operation, which trusts what was read.
  function StoreRead(db: Db, r: Reading, uploads: seq<Uuid>, id: Uuid, now: Time): SendReply {
    Finished(db, CommitMessage(Restored(db, r, now), r.c, r.sender, r.snapshot, uploads, id, now))
  }

  function SendGroup(db: Db, sender: Uuid, c: Uuid, uploads: seq<Uuid>, id: Uuid, now: Time): SendReply {
    var refusal := SendGroupGuard(db, sender, c);
    if refusal.Some? then SendReply(db, Some(NotAllowed(refusal.value)))
    else StoreRead(db, ReadGroup(db, sender, c), uploads, id, now)
  }

  function SendInto(db: Db, c: Uuid, sender: Uuid, receiver: Uuid, uploads: seq<Uuid>, id: Uuid, now: Time): SendReply {
    StoreRead(db, ReadPrivate(db, c, sender, receiver), uploads, id, now)
  }

  // The conversation is found or created in a transaction of its own.
  function SendPrivate(db: Db, sender: Uuid, receiver: Uuid, uploads: seq<Uuid>, newId: Uuid, id: Uuid,
                       now: Time): SendReply
    requires KeysUnique(db)
  {
    match GetOrCreatePrivate(db, sender, [receiver], newId)
    case Denied(why) => SendReply(db, Some(NotAllowed(why)))
    case Found(c) => SendInto(db, c, sender, receiver, uploads, id, now)
    case Created(c, db') => SendInto(db', c, sender, receiver, uploads, id, now)
  }

  // ------------------------------------------------------- receipts and counters

  function ResetUnread(db: Db, c: Uuid, u: Uuid): Db {
    if (c, u) !in db.members then db else
    db.(members := db.members[(c, u) := db.members[(c, u)].(unread := 0)])
  }

  function FindDelivery(rows: seq<Delivery>, message: Uuid, u: Uuid): (i: nat)
    ensures i <= |rows|
    ensures i < |rows| ==> rows[i].message == message && rows[i].user == u
    ensures forall j :: 0 <= j < i ==> !(rows[j].message == message && rows[j].user == u)
  {
    if rows == [] || (rows[0].message == message && rows[0].user == u) then 0
    else 1 + FindDelivery(rows[1..], message, u)
  }

  function ConfirmDelivery(db: Db, u: Uuid, c: Uuid, message: Uuid, status: Status): Db {
    var i := FindDelivery(db.deliveries, message, u);
    if i == |db.deliveries| then db else
    var db' := if status.Read? then ResetUnread(db, c, u) else db;
    db'.(deliveries := db'.deliveries[i := db'.deliveries[i].(status := status)])
  }

  function PendingFor(db: Db, u: Uuid): set<Uuid> {
    set d | d in db.deliveries && d.user == u && d.status.Sent? :: d.message
  }

  // UPDATE ... WHERE user = u AND message IN (ids)
  function MarkDelivered(db: Db, u: Uuid, ids: set<Uuid>): Db {
    db.(deliveries := Map(db.deliveries, (d: Delivery) =>
      if d.user == u && d.message in ids then d.(status := Delivered) else d))
  }

  // -------------------------------------------------------------------- uploads

  datatype NewFile = NewFile(upload: Uuid, file: Uuid, info: FileInfo)

  const UPLOAD_LIFETIME := 24 * 3600 * 1000

  predicate KeyInUse(db: Db, key: StorageKey) {
    (exists u <- db.uploads :: db.uploads[u].storageKey == key) || (exists a <- db.attachments :: a.storageKey == key)
  }

  function PrepareUpload(db: Db, user: Uuid, f: NewFile, now: Time): Db {
    db.(uploads := db.uploads[f.upload := Upload(user, StorageKey(user, f.file), f.info, now + UPLOAD_LIFETIME)])
  }

  function PrepareAll(db: Db, user: Uuid, files: seq<NewFile>, now: Time): Db {
    if files == [] then db
    else PrepareUpload(PrepareAll(db, user, files[..|files| - 1], now), user, files[|files| - 1], now)
  }

  predicate Prepared(db: Db, user: Uuid, f: NewFile, now: Time) {
    f.upload in db.uploads
    && db.uploads[f.upload] == Upload(user, StorageKey(user, f.file), f.info, now + UPLOAD_LIFETIME)
  }

  lemma {:induction false} NamedRow(db: Db, user: Uuid, files: seq<NewFile>, now: Time, f: NewFile)
    requires Distinct(files, (g: NewFile) => g.upload) && f in files
    ensures Prepared(PrepareAll(db, user, files, now), user, f, now)
  {
    var front, last := files[..|files| - 1], files[|files| - 1];
    if f in front {
      NamedRow(db, user, front, now, f);
      var i :| 0 <= i < |front| && front[i] == f;
      assert files[i] == f;
    } else {
      assert files == front + [last];
    }
  }

  predicate SameUpload(db: Db, db': Db, u: Uuid) {
    (u in db'.uploads <==> u in db.uploads) && (u in db.uploads ==> db'.uploads[u] == db.uploads[u])
  }

  lemma {:induction false} OtherRow(db: Db, user: Uuid, files: seq<NewFile>, now: Time, u: Uuid)
    requires forall f <- files :: f.upload != u
    ensures SameUpload(db, PrepareAll(db, user, files, now), u)
  {
    if files != [] {
      var front := files[..|files| - 1];
      forall f <- front ensures f.upload != u {
        assert f in files;
      }
      OtherRow(db, user, front, now, u);
    }
  }

  // Each file has its own row, open for a day, under a key in the user's directory,
  // and every row that is none of these is as before.
  lemma PrepareAllAdds(db: Db, user: Uuid, files: seq<NewFile>, now: Time)
    requires Distinct(files, (g: NewFile) => g.upload)
    ensures var db' := PrepareAll(db, user, files, now);
            && (forall f <- files :: Prepared(db', user, f, now))
            && (forall u: Uuid | forall f <- files :: f.upload != u :: SameUpload(db, db', u))
  {
    forall f <- files ensures Prepared(PrepareAll(db, user, files, now), user, f, now) {
      NamedRow(db, user, files, now, f);
    }
    forall u: Uuid | forall f <- files :: f.upload != u ensures SameUpload(db, PrepareAll(db, user, files, now), u) {
      OtherRow(db, user, files, now, u);
    }
  }

  // An upload can be attached by its owner, for a day, once its file is there.
  lemma PreparedForADay(db: Db, user: Uuid, f: NewFile, now: Time, v: Uuid, t: Time)
    ensures Usable(PrepareUpload(db, user, f, now), v, f.upload, t) <==>
              v == user && t <= now + 86_400_000 && StorageKey(user, f.file) in db.files
  {
  }

  // ------------------------------------------------------------------- deletion

  function KeysOf(db: Db, messages: set<Uuid>): set<StorageKey> {
    set a | a in db.attachments && a.message in messages :: a.storageKey
  }

  // The messages of one conversation among `ids`, then the files they named.
  function DeleteMessages(db: Db, c: Uuid, ids: set<Uuid>): Db {
    var gone := set m | m in db.messages && m in ids && db.messages[m].conversation == c;
    DropMessages(db, gone).(files := db.files - KeysOf(db, gone))
  }

  // ------------------------------------------------------------- administration

  // Conversations in which nobody but `user` has a row.
  function Orphaned(db: Db, user: Uuid): set<Uuid> {
    set c | c in db.conversations && (c, user) in db.members && (forall k <- db.members :: k.0 == c ==> k.1 == user)
  }

  function DeleteUser(db: Db, user: Uuid): Db {
    var gone := Orphaned(db, user);
    DropUser(DropConversations(db, gone).(files := db.files - KeysOf(db, MessagesIn(db, gone))), user)
  }

  function DeleteAdmin(db: Db, user: Uuid): Db {
    if user in db.users && db.users[user].Admin? then DropUser(db, user) else db
  }
}
