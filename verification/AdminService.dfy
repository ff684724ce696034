/**
 * Removing users and old messages as the services do it: rows in the database,
 * files in the bucket, and what is left when the bucket fails.
 */
module AdminServices {
  import opened Prelude
  import opened Tables
  import opened Store
  import opened Messaging
  import opened Persistence
  import opened FileStore
  import opened Bookkeeping
  import Cleanup

  lemma KeysOfRows(db: Db, messages: set<Uuid>)
    ensures SetOf(Concat(Batches(Cleanup.KeysAttached(db, messages), 0))) == KeysOf(db, messages)
  {
    var keys := Cleanup.KeysAttached(db, messages);
    BatchesCover(keys, 0);
    assert keys[0..] == keys;
    forall k { Cleanup.KeysRead(db, messages, k); }
  }

  // The bucket when the request numbered `refused` has failed.
  function FilesLeft(files: set<StorageKey>, keys: seq<StorageKey>, refused: nat): set<StorageKey>
    requires refused < |Batches(keys, 0)|
  {
    files - SetOf(Concat(Batches(keys, 0)[..refused]))
  }

  // Rolling back the rows brings nothing back to the bucket: an operation that fails
  // after its files were asked to be removed has lost none if and only if it was the
  // first request that failed, and never loses a file it did not ask for.
  lemma NothingLostIff(files: set<StorageKey>, keys: seq<StorageKey>, refused: nat)
    requires refused < |Batches(keys, 0)| && SetOf(keys) <= files
    ensures FilesLeft(files, keys, refused) == files <==> refused == 0
    ensures files - SetOf(keys) <= FilesLeft(files, keys, refused)
  {
    var batches := Batches(keys, 0);
    BatchesCover(keys, 0);
    assert keys[0..] == keys;
    PrefixKeys(batches, refused);
    if refused > 0 {
      assert batches[..refused][0] == batches[0] && |batches[0]| >= 1;
      var key := batches[0][0];
      assert key in Concat(batches[..refused]);
      assert key in SetOf(Concat(batches));
    }
  }

  // The same for the store: with every attached file present before, a failed deletion
  // leaves every attached file present if and only if it was the first request that failed.
  lemma RollbackKeepsFilesOkIff(db: Db, messages: set<Uuid>, refused: nat)
    requires FilesOk(db, {}) && refused < |Batches(Cleanup.KeysAttached(db, messages), 0)|
    ensures var keys := Cleanup.KeysAttached(db, messages);
            FilesOk(db.(files := FilesLeft(db.files, keys, refused)), {}) <==> refused == 0
  {
    var keys := Cleanup.KeysAttached(db, messages);
    KeysOfRows(db, messages);
    BatchesCover(keys, 0);
    assert keys[0..] == keys;
    NothingLostIff(db.files, keys, refused);
    var left := FilesLeft(db.files, keys, refused);
    if refused > 0 {
      var key :| key in db.files && key !in left;
      assert key in KeysOf(db, messages);
    }
  }

  class AdminService {
    const database: Database

    constructor (database: Database)
      ensures this.database == database
    {
      this.database := database;
    }

    // It succeeds exactly when the bucket carries out every request. Else the rows
    // are rolled back, and the files of the requests before the refused one are not.
    method DeleteUser(u: Uuid, refused: nat) returns (ok: bool)
      requires MembersRef(database.View())
      modifies database, database.bucket
      ensures var db := old(database.View());
              var keys := Cleanup.KeysAttached(db, MessagesIn(db, Orphaned(db, u)));
              && (ok <==> |Batches(keys, 0)| <= refused)
              && (ok ==> database.View() == Messaging.DeleteUser(db, u))
              && (!ok ==> database.View() == db.(files := FilesLeft(db.files, keys, refused)))
    {
      ghost var db := database.View();
      var memberships := set k | k in database.members && k.1 == u :: k.0;
      var gone := set c | c in memberships && c in database.conversations
                          && !(exists k <- database.members :: k.0 == c && k.1 != u);
      assert gone == Orphaned(db, u) by {
        forall c ensures c in gone <==> c in Orphaned(db, u) {
          assert (c, u) in db.members ==> c in memberships;
        }
      }
      if |gone| > 0 {
        var keys := Cleanup.KeysAttached(database.View(), MessagesIn(database.View(), gone));
        KeysOfRows(db, MessagesIn(db, gone));
        ok := database.bucket.DeleteFiles(keys, refused);
        if !ok {
          return;
        }
        database.DeleteConversations(gone);
      } else {
        NothingDropped(db, gone);
      }
      database.DeleteUserRow(u);
      return true;
    }

    method DeleteAdmin(u: Uuid)
      modifies database
      ensures database.View() == Messaging.DeleteAdmin(old(database.View()), u)
    {
      if u in database.users && database.users[u].Admin? {
        database.DeleteUserRow(u);
      }
    }
  }

  lemma {:induction false} PrefixKeys(batches: seq<seq<StorageKey>>, n: nat)
    requires n <= |batches|
    ensures SetOf(Concat(batches[..n])) <= SetOf(Concat(batches))
  {
    if n == 0 {
      assert batches[..n] == [];
    } else {
      PrefixKeys(batches[1..], n - 1);
      assert batches[..n][1..] == batches[1..][..n - 1];
      SetOfSum(batches[0], Concat(batches[1..][..n - 1]));
      SetOfSum(batches[0], Concat(batches[1..]));
    }
  }

  lemma SetOfSum(a: seq<StorageKey>, b: seq<StorageKey>)
    ensures SetOf(a + b) == SetOf(a) + SetOf(b)
  {
  }

  lemma NoMessagesDropped(db: Db, gone: set<Uuid>)
    requires gone == {}
    ensures DropMessages(db, gone) == db
  {
    KeepAll(db.deliveries, (d: Delivery) => d.message !in gone);
    KeepAll(db.attachments, (a: Attachment) => a.message !in gone);
  }

  lemma NoKeys(db: Db, messages: set<Uuid>)
    requires messages == {}
    ensures Cleanup.KeysAttached(db, messages) == []
  {
    KeepNone(db.attachments, (a: Attachment) => a.message in messages);
  }

  lemma NothingDropped(db: Db, gone: set<Uuid>)
    requires gone == {}
    ensures DropConversations(db, gone) == db && KeysOf(db, MessagesIn(db, gone)) == {}
    ensures Cleanup.KeysAttached(db, MessagesIn(db, gone)) == []
  {
    NoKeys(db, MessagesIn(db, gone));
    NoMessagesDropped(db, MessagesIn(db, gone));
    KeepAll(db.events, (e: Event) => e.conversation !in gone);
    KeepAll(db.invitations, (i: Invitation) => i.conversation !in gone);
  }

  // The nightly job when nothing else happens meanwhile. It comes to its end exactly
  // when there is an old message and the bucket carries out every request.
  class DeleteMessagesJob {
    const database: Database

    constructor (database: Database)
      ensures this.database == database
    {
      this.database := database;
    }

    method Run(now: Time, refused: nat) returns (finished: bool)
      modifies database, database.bucket
      ensures var db, aged := old(database.View()), Cleanup.Old(old(database.View()), Cleanup.Cutoff(now));
              var keys := Cleanup.KeysAttached(db, aged);
              && (finished <==> aged != {} && |Batches(keys, 0)| <= refused)
              && (finished ==> database.View() == DropMessages(db, aged).(files := db.files - KeysOf(db, aged)))
              && (aged == {} ==> database.View() == db)
              && (aged != {} && !finished ==> database.View() == db.(files := FilesLeft(db.files, keys, refused)))
    {
      var cutoff := Cleanup.Cutoff(now);
      var ids := Cleanup.Old(database.View(), cutoff);
      var storageKeys := Cleanup.KeysAttached(database.View(), ids);
      if |ids| == 0 {
        return false;
      }
      KeysOfRows(database.View(), ids);
      var ok := database.bucket.DeleteFiles(storageKeys, refused);
      if !ok {
        return false;
      }
      assert Cleanup.Old(database.View(), cutoff) == ids;
      database.DeleteMessageRows(Cleanup.Old(database.View(), cutoff));
      return true;
    }
  }
}
