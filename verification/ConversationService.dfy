/**
 * The conversation service as it runs: reads, refusals, and transactions that
 * update rows one statement at a time. Each method is tied to the function that
 * the lemmas about groups and private conversations are about.
 */
module ConversationServices {
  import opened Prelude
  import opened Store
  import opened PrivateKeys
  import opened Groups
  import opened Persistence

  class ConversationService {
    const database: Database

    constructor (database: Database)
      ensures this.database == database
    {
      this.database := database;
    }

    function Rows(): Db
      reads this, database, database.bucket
    {
      database.View()
    }

    method CreateGroup(owner: Uuid, id: Uuid) returns (refusal: Option<Refusal>)
      requires MembersRef(Rows())
      modifies database
      ensures Reply(Rows(), refusal) == Groups.CreateGroup(old(Rows()), owner, id)
    {
      var saved := Rows();
      assert (id, owner) in database.members ==> id in database.conversations;
      var ok := InsertGroup(owner, id);
      if !ok {
        database.Rollback(saved);
        return Some(BrokenConstraint);
      }
      return None;
    }

    method InsertGroup(owner: Uuid, id: Uuid) returns (ok: bool)
      modifies database
      ensures var db := old(Rows());
              ok <==> id !in db.conversations && owner in db.users && (id, owner) !in db.members
      ensures ok ==> Rows() == Groups.CreateGroup(old(Rows()), owner, id).db
      ensures Rows().files == old(Rows()).files
    {
      ok := database.SaveConversation(id, Conversation(Group, None, None));
      if ok {
        ok := database.BulkCreate(id, [owner], Owner);
        if ok {
          OneNewRow(id, owner);
          ok := database.CreateEvent(Event(id, GroupCreated, owner, None));
        }
      }
    }

    method GetOrCreatePrivateConversation(creator: Uuid, others: seq<Uuid>, id: Uuid) returns (r: Result<Uuid, Refusal>)
      requires KeysUnique(Rows()) && MembersRef(Rows())
      modifies database
      ensures match GetOrCreatePrivate(old(Rows()), creator, others, id)
              case Found(c) => r == Ok(c) && Rows() == old(Rows())
              case Created(c, db) => r == Ok(c) && Rows() == db
              case Denied(why) => r == Err(why) && Rows() == old(Rows())
    {
      var unique := NormalizeMembers(creator, others);
      if |unique| > 2 {
        return Err(TooManyMembers);
      }
      var key := PrivateKey(unique);
      var existing := FindByPrivateKey(Rows(), key);
      if existing.Some? {
        return Ok(existing.value);
      }
      var ok := CreatePrivateConversation(key, unique, id);
      return if ok then Ok(id) else Err(BrokenConstraint);
    }

    // The key may have been taken since it was looked up: then the constraint refuses
    // the row and nothing is written.
    method CreatePrivateConversation(key: Digest, unique: seq<Uuid>, id: Uuid) returns (ok: bool)
      requires MembersRef(Rows())
      modifies database
      ensures ok <==> OpenPrivate(old(Rows()), key, unique, id).Some?
      ensures Rows() == if ok then OpenPrivate(old(Rows()), key, unique, id).value else old(Rows())
    {
      var saved := Rows();
      assert forall u <- unique :: (id, u) in database.members ==> id in database.conversations;
      ok := database.SaveConversation(id, Conversation(Private, Some(key), None));
      if ok {
        ok := database.BulkCreate(id, unique, Member);
        if !ok {
          database.Rollback(saved);
        }
      }
    }

    method ValidateGroupInvitation(actor: Uuid, c: Uuid, target: Uuid, now: Time) returns (refusal: Option<Refusal>)
      modifies database
      ensures Reply(Rows(), refusal) == Invite(old(Rows()), actor, c, target, now)
    {
      refusal := InviteGuard(Rows(), actor, c, target);
      if refusal.Some? {
        return;
      }
      var ok := database.CreateInvitation(Invitation(c, actor, target, Pending, now + INVITATION_LIFETIME));
      refusal := if ok then None else Some(BrokenConstraint);
    }

    method AcceptGroupInvitation(c: Uuid, u: Uuid, now: Time, which: nat) returns (refusal: Option<Refusal>)
      modifies database
      ensures Reply(Rows(), refusal) == Accept(old(Rows()), c, u, now, which)
    {
      var invitation := FindInvitation(Rows(), c, u, which);
      if c !in database.conversations {
        return Some(ConversationNotFound);
      }
      if invitation.None? {
        return Some(InvitationNotFound);
      }
      if now > database.invitations[invitation.value].expiresAt {
        database.UpdateInvitations(c, u, Accepted);
        return Some(InvitationExpired);
      }
      if (c, u) in database.members && database.members[(c, u)].softDeletedAt.Some? {
        database.RestoreConversation(c, u, now);
        return None;
      }
      var ok := Join(c, u);
      return if ok then None else Some(BrokenConstraint);
    }

    method Join(c: Uuid, u: Uuid) returns (ok: bool)
      modifies database
      ensures Reply(Rows(), if ok then None else Some(BrokenConstraint))
              == Committed(old(Rows()), JoinCommit(old(Rows()), c, u))
    {
      var saved := Rows();
      database.UpdateInvitations(c, u, Accepted);
      ok := database.CreateEvent(Event(c, MemberJoined, u, None));
      if ok {
        ok := database.BulkCreate(c, [u], Member);
      }
      if !ok {
        database.Rollback(saved);
      }
    }

    method RejectGroupInvitation(c: Uuid, u: Uuid, now: Time, which: nat) returns (refusal: Option<Refusal>)
      modifies database
      ensures Reply(Rows(), refusal) == Reject(old(Rows()), c, u, now, which)
    {
      var invitation := FindInvitation(Rows(), c, u, which);
      if invitation.None? {
        return Some(InvitationNotFound);
      }
      if now > database.invitations[invitation.value].expiresAt {
        database.UpdateInvitations(c, u, Accepted);
        return Some(InvitationExpired);
      }
      database.UpdateInvitations(c, u, Rejected);
      return None;
    }

    method RemoveMemberFromGroup(c: Uuid, actor: Uuid, target: Uuid, kind: EventKind, now: Time) returns (ok: bool)
      modifies database
      ensures Reply(Rows(), if ok then None else Some(BrokenConstraint))
              == Committed(old(Rows()), DepartCommit(old(Rows()), c, actor, target, kind, now))
    {
      var saved := Rows();
      database.MarkConversationAsDeleted(c, target, now);
      ok := database.CreateEvent(Event(c, kind, actor, Some(target)));
      if !ok {
        database.Rollback(saved);
      }
    }

    method LeaveGroup(u: Uuid, c: Uuid, now: Time) returns (refusal: Option<Refusal>)
      modifies database
      ensures Reply(Rows(), refusal) == Leave(old(Rows()), u, c, now)
    {
      refusal := LeaveGuard(Rows(), u, c);
      if refusal.None? {
        var ok := RemoveMemberFromGroup(c, u, u, MemberLeft, now);
        refusal := if ok then None else Some(BrokenConstraint);
      }
    }

    method TransferGroupOwnership(owner: Uuid, c: Uuid, heir: Uuid) returns (refusal: Option<Refusal>)
      modifies database
      ensures Reply(Rows(), refusal) == Transfer(old(Rows()), owner, c, heir)
    {
      refusal := TransferGuard(Rows(), owner, c, heir);
      if refusal.Some? {
        return;
      }
      var saved := Rows();
      database.UpdateRole(c, owner, Member);
      database.UpdateRole(c, heir, Owner);
      var ok := database.CreateEvent(Event(c, OwnershipTransferred, owner, Some(heir)));
      if !ok {
        database.Rollback(saved);
        refusal := Some(BrokenConstraint);
      }
    }

    method RemoveGroupMember(actor: Uuid, c: Uuid, target: Uuid, now: Time) returns (refusal: Option<Refusal>)
      modifies database
      ensures Reply(Rows(), refusal) == Remove(old(Rows()), actor, c, target, now)
    {
      refusal := RemoveGuard(Rows(), actor, c, target);
      if refusal.None? {
        var ok := RemoveMemberFromGroup(c, actor, target, MemberRemoved, now);
        refusal := if ok then None else Some(BrokenConstraint);
      }
    }

    method DeleteGroup(u: Uuid, c: Uuid) returns (refusal: Option<Refusal>)
      modifies database
      ensures Reply(Rows(), refusal) == Groups.DeleteGroup(old(Rows()), u, c)
    {
      if c !in database.conversations {
        return Some(ConversationNotFound);
      }
      if !database.conversations[c].kind.Group? {
        return Some(InvalidType);
      }
      if (c, u) !in database.members {
        return Some(NotMember);
      }
      if !database.members[(c, u)].role.Owner? {
        return Some(OnlyOwner);
      }
      database.DeleteConversations({c});
      return None;
    }

    method DeletePrivateConversation(u: Uuid, c: Uuid, now: Time) returns (refusal: Option<Refusal>)
      modifies database
      ensures Reply(Rows(), refusal) == DeletePrivate(old(Rows()), u, c, now)
    {
      if c !in database.conversations {
        return Some(ConversationNotFound);
      }
      if !database.conversations[c].kind.Private? {
        return Some(InvalidType);
      }
      if (c, u) !in database.members {
        return Some(NotMember);
      }
      if database.members[(c, u)].softDeletedAt.Some? {
        return Some(AlreadyDeleted);
      }
      database.MarkConversationAsDeleted(c, u, now);
      var remaining := set k | k in database.members && k.0 == c && database.members[k].softDeletedAt.None?;
      assert remaining == {} <==> !SomeoneRemains(Rows(), c) by {
        if k :| k in Rows().members && k.0 == c && Rows().members[k].softDeletedAt.None? {
          assert k in remaining;
        }
      }
      if |remaining| == 0 {
        database.DeleteConversations({c});
      }
      return None;
    }
  }

  lemma OneNewRow(c: Uuid, u: Uuid)
    ensures NewRows(c, [u], Owner) == map[(c, u) := NewMember(Owner)]
  {
  }
}
