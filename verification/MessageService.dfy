/**
 * The message and storage services as they run: one transaction for a message
 * with its deliveries, counters and attachments, and the loops inside it.
 */
module MessageServices {
  import opened Prelude
  import opened Tables
  import opened Store
  import opened Groups
  import opened Messaging
  import opened Persistence
  import opened ConversationServices

  class StorageService {
    const database: Database

    constructor (database: Database)
      ensures this.database == database
    {
      this.database := database;
    }

    method PrepareUploads(user: Uuid, files: seq<NewFile>, now: Time)
      modifies database
      ensures database.View() == PrepareAll(old(database.View()), user, files, now)
    {
      var i := 0;
      while i < |files|
        invariant 0 <= i <= |files|
        invariant database.View() == PrepareAll(old(database.View()), user, files[..i], now)
      {
        var f := files[i];
        assert files[..i + 1][..i] == files[..i];
        database.CreateUpload(f.upload, Upload(user, StorageKey(user, f.file), f.info, now + UPLOAD_LIFETIME));
        i := i + 1;
      }
      assert files[..i] == files;
    }

    // Nothing is written unless every named upload can be attached.
    method ProcessMessageAttachments(user: Uuid, ids: seq<Uuid>, message: Uuid, now: Time)
      returns (error: Option<SendError>)
      modifies database
      ensures match AttachUploads(old(database.View()), user, ids, message, now)
              case Ok(db) => error == None && database.View() == db
              case Err(e) => error == Some(e) && database.View() == old(database.View())
    {
      ghost var before := database.View();
      var rows, i := [], 0;
      while i < |ids|
        invariant 0 <= i <= |ids| == |ids[..i]| + |ids| - i && |rows| == i && database.View() == before
        invariant UploadProblem(before, user, ids[..i], now).None?
        invariant forall k :: 0 <= k < i ==> ids[k] in before.uploads
        invariant forall k :: 0 <= k < i ==>
                    rows[k] == Attachment(message, before.uploads[ids[k]].storageKey, before.uploads[ids[k]].info)
      {
        var id := ids[i];
        UploadProblemNext(before, user, ids, i, now);
        if id !in database.uploads || database.uploads[id].user != user {
          return Some(InvalidUpload);
        }
        var upload := database.uploads[id];
        if upload.expiresAt < now {
          return Some(UploadExpired);
        }
        if upload.storageKey !in database.bucket.objects {
          return Some(UploadNotFound);
        }
        rows := rows + [Attachment(message, upload.storageKey, upload.info)];
        i := i + 1;
      }
      assert ids[..i] == ids;
      assert rows == Attached(before, ids, message);
      database.CreateAttachments(rows);
      DeleteUploads(ids);
      return None;
    }

    method DeleteUploads(ids: seq<Uuid>)
      modifies database`uploads
      ensures database.uploads == map u | u in old(database.uploads) && u !in ids :: old(database.uploads)[u]
    {
      var j := 0;
      while j < |ids|
        invariant 0 <= j <= |ids|
        invariant database.uploads == map u | u in old(database.uploads) && u !in ids[..j] :: old(database.uploads)[u]
      {
        assert ids[..j + 1] == ids[..j] + [ids[j]];
        database.DeleteUpload(ids[j]);
        j := j + 1;
      }
      assert ids[..j] == ids;
    }
  }

  // A problem with a longer list is one with its front, or else with the next upload.
  lemma {:induction false} UploadProblemNext(db: Db, user: Uuid, ids: seq<Uuid>, i: nat, now: Time)
    requires i < |ids| && UploadProblem(db, user, ids[..i], now).None?
    ensures var id := ids[i];
            var problem := if id !in db.uploads || db.uploads[id].user != user then Some(InvalidUpload)
                           else if db.uploads[id].expiresAt < now then Some(UploadExpired)
                           else if db.uploads[id].storageKey !in db.files then Some(UploadNotFound)
                           else None;
            && UploadProblem(db, user, ids[..i + 1], now) == problem
            && (problem.Some? ==> UploadProblem(db, user, ids, now) == problem)
    decreases |ids|
  {
    assert ids[..i + 1][..i] == ids[..i];
    if i + 1 < |ids| {
      var front := ids[..|ids| - 1];
      assert front[..i] == ids[..i] && front[..i + 1] == ids[..i + 1];
      UploadProblemNext(db, user, front, i, now);
    } else {
      assert ids[..i + 1] == ids;
    }
  }

  class MessageService {
    const database: Database
    const conversations: ConversationService
    const storage: StorageService

    ghost predicate Valid()
      reads this
    {
      conversations.database == database && storage.database == database
    }

    constructor (database: Database, conversations: ConversationService, storage: StorageService)
      requires conversations.database == database && storage.database == database
      ensures Valid() && this.database == database
    {
      this.database, this.conversations, this.storage := database, conversations, storage;
    }

    // Every recipient's counter goes up by one.
    method IncrementAll(c: Uuid, recipients: seq<Uuid>)
      requires Distinct(recipients, (u: Uuid) => u)
      modifies database
      ensures database.View() == CountUnread(old(database.View()), c, SetOf(recipients))
    {
      ghost var before := database.View();
      var i := 0;
      CountNobody(before, c);
      while i < |recipients|
        invariant 0 <= i <= |recipients|
        invariant database.View() == CountUnread(before, c, SetOf(recipients[..i]))
      {
        assert recipients[i] !in recipients[..i];
        assert recipients[..i + 1] == recipients[..i] + [recipients[i]];
        database.IncrementUnreadCount(c, recipients[i]);
        CountOneMore(before, c, SetOf(recipients[..i]), recipients[i]);
        assert SetOf(recipients[..i + 1]) == SetOf(recipients[..i]) + {recipients[i]};
        i := i + 1;
      }
      assert recipients[..i] == recipients;
    }

    // False, with nothing written, when a constraint refuses the message.
    method StoreWithDeliveries(c: Uuid, sender: Uuid, recipients: set<Uuid>, id: Uuid, now: Time) returns (ok: bool)
      modifies database
      ensures var db := old(database.View());
              && (ok <==> c in db.conversations && sender in db.users && id !in db.messages)
              && database.View() == if ok then StoreMessage(db, c, sender, recipients, id, now) else db
    {
      ok := database.SaveMessage(id, Message(c, Some(sender), now));
      if ok {
        database.CreateDeliveries(Deliveries(id, Enumerate(recipients)));
        database.UpdateLastMessage(c, id);
      }
    }

    // The body of both transactions. On an error everything is rolled back.
    method Transact(c: Uuid, sender: Uuid, snapshot: set<Uuid>, uploads: seq<Uuid>, id: Uuid, now: Time, saved: Db)
      returns (error: Option<SendError>)
      requires Valid() && saved.files == database.View().files
      modifies database
      ensures match CommitMessage(old(database.View()), c, sender, snapshot, uploads, id, now)
              case Ok(db) => error == None && database.View() == db
              case Err(e) => error == Some(e) && database.View() == saved
    {
      var recipients := snapshot - {sender};
      var ok := StoreWithDeliveries(c, sender, recipients, id, now);
      if !ok {
        database.Rollback(saved);
        return Some(NotAllowed(BrokenConstraint));
      }
      CountThenAttach(database.View(), c, recipients, sender, uploads, id, now);
      error := storage.ProcessMessageAttachments(sender, uploads, id, now);
      if error.Some? {
        database.Rollback(saved);
        return;
      }
      IncrementAll(c, Enumerate(recipients));
      assert SetOf(Enumerate(recipients)) == recipients;
    }

    method CreateGroupMessage(sender: Uuid, c: Uuid, uploads: seq<Uuid>, id: Uuid, now: Time)
      returns (error: Option<SendError>)
      requires Valid()
      modifies database
      ensures SendReply(database.View(), error) == SendGroup(old(database.View()), sender, c, uploads, id, now)
      ensures error.Some? ==> database.View() == old(database.View())
    {
      var refusal := SendGroupGuard(database.View(), sender, c);
      if refusal.Some? {
        return Some(NotAllowed(refusal.value));
      }
      error := StoreRead(ReadGroup(database.View(), sender, c), uploads, id, now);
    }

    method CreatePrivateMessage(sender: Uuid, receiver: Uuid, uploads: seq<Uuid>, newId: Uuid, id: Uuid, now: Time)
      returns (error: Option<SendError>)
      requires Valid() && KeysUnique(database.View()) && MembersRef(database.View())
      modifies database
      ensures SendReply(database.View(), error)
              == SendPrivate(old(database.View()), sender, receiver, uploads, newId, id, now)
      ensures error.Some? ==>
                var db, r := old(database.View()), GetOrCreatePrivate(old(database.View()), sender, [receiver], newId);
                database.View() == if r.Created? then r.db else db
    {
      var found := conversations.GetOrCreatePrivateConversation(sender, [receiver], newId);
      if found.Err? {
        return Some(NotAllowed(found.error));
      }
      error := StoreRead(ReadPrivate(database.View(), found.value, sender, receiver), uploads, id, now);
    }

    // The transaction, in any state after the reading.
    method StoreRead(r: Reading, uploads: seq<Uuid>, id: Uuid, now: Time) returns (error: Option<SendError>)
      requires Valid()
      modifies database
      ensures SendReply(database.View(), error) == Messaging.StoreRead(old(database.View()), r, uploads, id, now)
    {
      var saved := database.View();
      if r.PrivateRead? {
        if r.senderGone {
          database.RestoreConversation(r.c, r.sender, now);
        }
        if r.receiverGone {
          database.RestoreConversation(r.c, r.receiver, now);
        }
      }
      error := Transact(r.c, r.sender, r.snapshot, uploads, id, now, saved);
    }

    method ConfirmDelivery(u: Uuid, c: Uuid, message: Uuid, status: Status) returns (found: bool)
      modifies database
      ensures database.View() == Messaging.ConfirmDelivery(old(database.View()), u, c, message, status)
      ensures found <==> exists d <- old(database.View()).deliveries :: d.message == message && d.user == u
    {
      var i := FindDelivery(database.deliveries, message, u);
      if i == |database.deliveries| {
        return false;
      }
      assert database.deliveries[i] in database.deliveries;
      if status.Read? {
        database.ResetUnreadCount(c, u);
      }
      database.deliveries := database.deliveries[i := database.deliveries[i].(status := status)];
      return true;
    }
  }

  lemma CountNobody(db: Db, c: Uuid)
    ensures CountUnread(db, c, SetOf([])) == db
  {
  }

  lemma CountOneMore(db: Db, c: Uuid, some: set<Uuid>, u: Uuid)
    requires u !in some
    ensures CountUnread(CountUnread(db, c, some), c, {u}) == CountUnread(db, c, some + {u})
  {
  }

  // Counting and attaching touch different tables, so their order does not matter.
  lemma CountThenAttach(db: Db, c: Uuid, recipients: set<Uuid>, user: Uuid, ids: seq<Uuid>, message: Uuid, now: Time)
    ensures match AttachUploads(db, user, ids, message, now)
            case Ok(db') =>
              AttachUploads(CountUnread(db, c, recipients), user, ids, message, now)
              == Ok(CountUnread(db', c, recipients))
            case Err(e) => AttachUploads(CountUnread(db, c, recipients), user, ids, message, now) == Err(e)
  {
    SameProblem(db, CountUnread(db, c, recipients), user, ids, now);
    NoProblemIff(db, user, ids, now);
    if UploadProblem(db, user, ids, now).None? {
      assert Attached(CountUnread(db, c, recipients), ids, message) == Attached(db, ids, message);
    }
  }

  lemma {:induction false} SameProblem(a: Db, b: Db, user: Uuid, ids: seq<Uuid>, now: Time)
    requires a.uploads == b.uploads && a.files == b.files
    ensures UploadProblem(a, user, ids, now) == UploadProblem(b, user, ids, now)
  {
    if ids != [] {
      SameProblem(a, b, user, ids[..|ids| - 1], now);
    }
  }
}
