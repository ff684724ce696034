/**
 * What deletions take and what they leave, table by table: messages with what hangs
 * on them, whole conversations, the row of a user, a user with the conversations the
 * user was alone in.
 */
module Removals {
  import opened Prelude
  import opened Tables
  import opened Store
  import opened Groups
  import opened Messaging
  import opened Integrity
  import opened Bookkeeping
  import opened Frames
  import Cleanup

  // ------------------------------------------------------------------------ messages

  // The messages go with their deliveries and attachments; who pointed at one of them
  // as the last points at none; everything else is as before.
  ghost predicate LosesMessages(db: Db, db': Db, gone: set<Uuid>) {
    && db'.users == db.users && db'.members == db.members && db'.events == db.events
    && db'.invitations == db.invitations && db'.uploads == db.uploads
    && (forall m: Uuid :: m in db'.messages <==> m in db.messages && m !in gone)
    && (forall m <- db'.messages :: db'.messages[m] == db.messages[m])
    && (forall d :: d in db'.deliveries <==> d in db.deliveries && d.message !in gone)
    && (forall a :: a in db'.attachments <==> a in db.attachments && a.message !in gone)
    && db'.conversations.Keys == db.conversations.Keys
    && (forall c <- db.conversations ::
          db'.conversations[c] ==
            if exists m <- gone :: db.conversations[c].lastMessage == Some(m)
            then db.conversations[c].(lastMessage := None) else db.conversations[c])
  }

  lemma DropLosesMessages(db: Db, gone: set<Uuid>)
    ensures LosesMessages(db, DropMessages(db, gone), gone) && DropMessages(db, gone).files == db.files
  {
  }

  // Of the ids a client names only messages of the conversation go, and exactly the
  // files attached to these.
  lemma DeleteMessagesLoses(db: Db, c: Uuid, ids: set<Uuid>)
    ensures var db', gone := DeleteMessages(db, c, ids), set m | m in ids && IsIn(db, m, c);
            && LosesMessages(db, db', gone)
            && forall key :: key in db'.files <==>
                 key in db.files && !(exists a <- db.attachments :: a.message in gone && a.storageKey == key)
  {
    var gone := set m | m in db.messages && m in ids && db.messages[m].conversation == c;
    assert gone == set m | m in ids && IsIn(db, m, c);
    DropLosesMessages(db, gone);
  }

  // The nightly job deletes what is more than 48 hours old.
  lemma OldIff(db: Db, now: Time, m: Uuid)
    ensures m in Cleanup.Old(db, Cleanup.Cutoff(now)) <==>
              m in db.messages && db.messages[m].createdAt + 172_800_000 < now
  {
  }

  // -------------------------------------------------------------- the row of a user

  // Memberships, uploads and invitations of the user go, in whichever part; messages
  // lose their sender; deliveries, events and everything of other people stay.
  ghost predicate LosesUser(db: Db, db': Db, u: Uuid) {
    && (forall v: Uuid :: v in db'.users <==> v in db.users && v != u)
    && (forall v <- db'.users :: db'.users[v] == db.users[v])
    && db'.conversations == db.conversations && db'.events == db.events
    && db'.deliveries == db.deliveries && db'.attachments == db.attachments
    && (forall k :: k in db'.members <==> k in db.members && k.1 != u)
    && (forall k <- db'.members :: db'.members[k] == db.members[k])
    && (forall i :: i in db'.invitations <==> i in db.invitations && i.actor != u && i.target != u)
    && (forall id: Uuid :: id in db'.uploads <==> id in db.uploads && db.uploads[id].user != u)
    && (forall id <- db'.uploads :: db'.uploads[id] == db.uploads[id])
    && db'.messages.Keys == db.messages.Keys
    && (forall m <- db.messages ::
          db'.messages[m] ==
            if db.messages[m].sender == Some(u) then db.messages[m].(sender := None) else db.messages[m])
  }

  lemma DropLosesUser(db: Db, u: Uuid)
    ensures LosesUser(db, DropUser(db, u), u) && DropUser(db, u).files == db.files
  {
  }

  // Deleting an administrator needs the role ADMIN, and takes the row alone.
  lemma DeleteAdminIff(db: Db, u: Uuid)
    ensures var db' := DeleteAdmin(db, u);
            && db'.files == db.files
            && (if u in db.users && db.users[u] == UserRole.Admin then LosesUser(db, db', u) else db' == db)
    ensures u in DeleteAdmin(db, u).users <==> u in db.users && db.users[u] != UserRole.Admin
  {
    DropLosesUser(db, u);
  }

  // -------------------------------------------------- a user with lonely conversations

  // Nobody but u has a row in c.
  ghost predicate IsAlone(db: Db, c: Uuid, u: Uuid) {
    c in db.conversations && (c, u) in db.members && forall v: Uuid :: (c, v) in db.members ==> v == u
  }

  lemma OrphanedIff(db: Db, c: Uuid, u: Uuid)
    ensures c in Orphaned(db, u) <==> IsAlone(db, c, u)
  {
    if IsAlone(db, c, u) {
      forall k <- db.members | k.0 == c ensures k.1 == u {
        assert k == (c, k.1);
      }
    }
  }

  // The conversations with what belongs to them.
  ghost predicate LosesConversations(db: Db, db': Db, gone: set<Uuid>) {
    && db'.users == db.users && db'.uploads == db.uploads
    && (forall c: Uuid :: c in db'.conversations <==> c in db.conversations && c !in gone)
    && (forall c <- db'.conversations :: db'.conversations[c] == db.conversations[c])
    && (forall k :: k in db'.members <==> k in db.members && k.0 !in gone)
    && (forall k <- db'.members :: db'.members[k] == db.members[k])
    && (forall e :: e in db'.events <==> e in db.events && e.conversation !in gone)
    && (forall i :: i in db'.invitations <==> i in db.invitations && i.conversation !in gone)
    && (forall m: Uuid :: m in db'.messages <==> m in db.messages && db.messages[m].conversation !in gone)
    && (forall m <- db'.messages :: db'.messages[m] == db.messages[m])
    && (forall d :: d in db'.deliveries <==> d in db.deliveries && d.message in db'.messages)
    && (forall a :: a in db'.attachments <==> a in db.attachments && a.message in db'.messages)
  }

  lemma DropLosesConversations(db: Db, gone: set<Uuid>)
    requires MessagesRef(db) && LastMessageOk(db)
    ensures LosesConversations(db, DropConversations(db, gone), gone) && DropConversations(db, gone).files == db.files
  {
  }

  // The store between the two parts of the deletion.
  function WithoutLonely(db: Db, u: Uuid): Db {
    DropConversations(db, Orphaned(db, u)).(files := db.files - KeysOf(db, MessagesIn(db, Orphaned(db, u))))
  }

  // Deleting a user takes the conversations the user was alone in, and then the row;
  // of other people nothing goes but invitations by or to the user.
  lemma DeleteUserLoses(db: Db, u: Uuid)
    requires MessagesRef(db) && LastMessageOk(db)
    ensures forall c: Uuid :: c in Orphaned(db, u) <==> IsAlone(db, c, u)
    ensures LosesConversations(db, WithoutLonely(db, u), Orphaned(db, u))
    ensures LosesUser(WithoutLonely(db, u), DeleteUser(db, u), u)
  {
    forall c: Uuid { OrphanedIff(db, c, u); }
    LonelyGo(db, u);
    DropLosesUser(WithoutLonely(db, u), u);
  }

  lemma LonelyGo(db: Db, u: Uuid)
    requires MessagesRef(db) && LastMessageOk(db)
    ensures LosesConversations(db, WithoutLonely(db, u), Orphaned(db, u))
  {
    DropLosesConversations(db, Orphaned(db, u));
    SameTables(db, DropConversations(db, Orphaned(db, u)), WithoutLonely(db, u), Orphaned(db, u));
  }

  lemma SameTables(db: Db, kept: Db, mid: Db, gone: set<Uuid>)
    requires LosesConversations(db, kept, gone) && mid == kept.(files := mid.files)
    ensures LosesConversations(db, mid, gone)
  {
  }

  // So everybody else keeps every membership and every pending upload, row for row.
  lemma OthersKeepTheirs(db: Db, u: Uuid, v: Uuid)
    requires v != u
    ensures var db' := DeleteUser(db, u);
            && (v in db'.users <==> v in db.users)
            && (forall c :: (c, v) in db'.members <==> (c, v) in db.members)
            && (forall c :: (c, v) in db.members ==> db'.members[(c, v)] == db.members[(c, v)])
            && (forall id | id in db.uploads && db.uploads[id].user == v ::
                  id in db'.uploads && db'.uploads[id] == db.uploads[id])
  {
    forall c | (c, v) in db.members ensures c !in Orphaned(db, u) {
    }
  }
}
