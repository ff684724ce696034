/**
 * What several calls do together: invitations that are answered twice, members
 * who leave and come back, conversations that are deleted and revived, receipts.
 */
module Memberships {
  import opened Prelude
  import opened Store
  import opened Groups
  import opened Messaging
  import opened Bookkeeping

  predicate IsLive(db: Db, c: Uuid, u: Uuid) {
    (c, u) in db.members && db.members[(c, u)].softDeletedAt.None?
  }

  // An invitation of u that findOne may return and that has not run out.
  predicate ValidAt(db: Db, c: Uuid, u: Uuid, which: nat, now: Time) {
    Invited(db, c, u, which) && now <= db.invitations[which].expiresAt
  }

  // Accepting succeeds exactly when the conversation exists, the invitation that is
  // found has not run out, and the user either has left or exists and never was a
  // member. No status is looked at. Afterwards the user is a live member.
  lemma AcceptIff(db: Db, c: Uuid, u: Uuid, now: Time, which: nat)
    requires Invited(db, c, u, which)
    ensures Accept(db, c, u, now, which).refusal.None? <==>
              && c in db.conversations && ValidAt(db, c, u, which, now) && !IsLive(db, c, u)
              && ((c, u) in db.members || u in db.users)
    ensures Accept(db, c, u, now, which).refusal.None? ==> IsLive(Accept(db, c, u, now, which).db, c, u)
    ensures Accept(db, c, u, now, which).refusal.Some? ==>
              var db' := Accept(db, c, u, now, which).db; db'.members == db.members && db'.events == db.events
  {
    assert FindInvitation(db, c, u, which) == Some(which);
  }

  // Rejecting does not bind: whatever accepting would have answered before it
  // answers afterwards, and the members are then the same.
  lemma RejectDoesNotBind(db: Db, c: Uuid, u: Uuid, now: Time, later: Time, which: nat)
    requires Invited(db, c, u, which)
    ensures var rejected := Reject(db, c, u, now, which).db;
            && Accept(rejected, c, u, later, which).refusal == Accept(db, c, u, later, which).refusal
            && Accept(rejected, c, u, later, which).db.members == Accept(db, c, u, later, which).db.members
            && Accept(rejected, c, u, later, which).db.events == Accept(db, c, u, later, which).db.events
  {
    var rejected := Reject(db, c, u, now, which).db;
    assert Invited(rejected, c, u, which);
    assert rejected.invitations[which].expiresAt == db.invitations[which].expiresAt;
    assert rejected.members == db.members && rejected.users == db.users && rejected.conversations == db.conversations;
  }

  // An invitation that ran out is refused, yet stored as accepted, with no member.
  lemma ExpiredIsStoredAsAccepted(db: Db, c: Uuid, u: Uuid, now: Time, which: nat)
    requires c in db.conversations && Invited(db, c, u, which) && now > db.invitations[which].expiresAt
    ensures var r := Accept(db, c, u, now, which);
            && r.refusal == Some(InvitationExpired) && r.db.members == db.members
            && |r.db.invitations| == |db.invitations|
            && (forall i :: 0 <= i < |db.invitations| ==>
                  var row := db.invitations[i];
                  r.db.invitations[i] == if Invited(db, c, u, i) then row.(status := Accepted) else row)
    ensures Reject(db, c, u, now, which) == Accept(db, c, u, now, which)
  {
    assert FindInvitation(db, c, u, which) == Some(which);
  }

  // Leaving and accepting again gives the member the same row, counter and all,
  // marked as restored; the log shows the departure but not the return, and the
  // invitation keeps its status.
  lemma LeaveThenReturn(db: Db, u: Uuid, c: Uuid, left: Time, back: Time, which: nat)
    requires c in db.conversations && IsLive(db, c, u) && !db.members[(c, u)].role.Owner?
    requires ValidAt(db, c, u, which, back)
    ensures var gone := Leave(db, u, c, left);
            var r := Accept(gone.db, c, u, back, which);
            && gone.refusal.None? && !IsLive(gone.db, c, u) && r.refusal.None?
            && r.db.members == db.members[(c, u) := db.members[(c, u)].(restoredAt := Some(back))]
            && r.db.events == db.events + [Event(c, MemberLeft, u, Some(u))]
            && r.db.invitations == db.invitations
  {
    var gone := Leave(db, u, c, left);
    assert FindInvitation(gone.db, c, u, which) == Some(which);
    assert gone.db.members[(c, u)] == db.members[(c, u)].(softDeletedAt := Some(left));
    assert db.members[(c, u)].(softDeletedAt := None) == db.members[(c, u)];
  }

  // A private conversation that one side deleted comes back with the next message
  // from the other whose operation begins after the deletion: the row is live again
  // and counts that message. (One that had begun before leaves it hidden.)
  lemma DeletedComesBackWithTheNextMessage(db: Db, c: Uuid, u: Uuid, other: Uuid, gone: Time, uploads: seq<Uuid>,
                                           id: Uuid, now: Time)
    requires c in db.conversations && db.conversations[c].kind.Private? && u != other
    requires IsLive(db, c, u) && IsLive(db, c, other)
    requires SendInto(DeletePrivate(db, u, c, gone).db, c, other, u, uploads, id, now).error.None?
    ensures DeletePrivate(db, u, c, gone).refusal.None? && !IsLive(DeletePrivate(db, u, c, gone).db, c, u)
    ensures var db' := SendInto(DeletePrivate(db, u, c, gone).db, c, other, u, uploads, id, now).db;
            var row := db.members[(c, u)];
            (c, u) in db'.members && db'.members[(c, u)] == row.(restoredAt := Some(now), unread := row.unread + 1)
  {
    var hidden := SoftDelete(db, c, u, gone);
    assert (c, other) in hidden.members && hidden.members[(c, other)].softDeletedAt.None?;
    assert SomeoneRemains(hidden, c);
    var two := Restored(hidden, ReadPrivate(hidden, c, other, u), now);
    CommitIsAttach(two, c, other, AllMembers(hidden, c), uploads, id, now);
    assert (c, u) in hidden.members && u in AllMembers(hidden, c) - {other};
  }

  // When the last live side deletes too, the conversation is gone with all its rows.
  lemma BothDeletedIsGone(db: Db, c: Uuid, u: Uuid, now: Time)
    requires c in db.conversations && db.conversations[c].kind.Private? && IsLive(db, c, u)
    ensures c !in DeletePrivate(db, u, c, now).db.conversations <==> forall v :: IsLive(db, c, v) ==> v == u
  {
    var hidden := SoftDelete(db, c, u, now);
    if k :| k in hidden.members && k.0 == c && hidden.members[k].softDeletedAt.None? {
      assert k == (c, k.1) && IsLive(db, c, k.1) && k.1 != u;
      assert SomeoneRemains(hidden, c);
    } else {
      forall v | IsLive(db, c, v) ensures v == u {
        assert (c, v) in hidden.members;
      }
    }
  }

  // A receipt sets the status of exactly one row to whatever it says, lower or
  // higher, and READ alone clears the counter.
  lemma ReceiptSetsOneRow(db: Db, u: Uuid, c: Uuid, message: Uuid, status: Status)
    requires OneDeliveryEach(db) && exists d <- db.deliveries :: d.message == message && d.user == u
    ensures var db' := ConfirmDelivery(db, u, c, message, status);
            && |db'.deliveries| == |db.deliveries|
            && (forall i :: 0 <= i < |db.deliveries| ==>
                  var d := db.deliveries[i];
                  db'.deliveries[i] == if d.message == message && d.user == u then d.(status := status) else d)
            && db' == db.(deliveries := db'.deliveries, members := db'.members)
            && db'.members.Keys == db.members.Keys
            && (forall k <- db.members ::
                  db'.members[k] ==
                    if status.Read? && k == (c, u) then db.members[k].(unread := 0) else db.members[k])
  {
    var i := FindDelivery(db.deliveries, message, u);
    assert i < |db.deliveries| by {
      var d :| d in db.deliveries && d.message == message && d.user == u;
      var j :| 0 <= j < |db.deliveries| && db.deliveries[j] == d;
    }
    forall j | 0 <= j < |db.deliveries| && j != i ensures DeliveryKey(db.deliveries[j]) != (message, u) {
      assert DeliveryKey(db.deliveries[i]) == (message, u);
    }
  }
}
