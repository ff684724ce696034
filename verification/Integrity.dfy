/**
 * What every operation keeps: foreign keys, populated conversations, unique
 * private keys, private conversations of two, owners named by the log. Each of
 * these has one lemma over a relation between the store before and after, and
 * each operation is shown to be in that relation.
 */
module Integrity {
  import opened Prelude
  import opened Store
  import opened PrivateKeys
  import opened Groups
  import opened Messaging

  // The conversation of the pair {a, b}: the key says so, and nobody else is in it.
  ghost predicate IsPair(db: Db, c: Uuid, a: Uuid, b: Uuid) {
    && c in db.conversations && db.conversations[c].privateKey == Some(PairKey(a, b))
    && forall u :: (c, u) in db.members ==> IsOneOf(u, a, b)
  }

  ghost predicate PrivatesArePairs(db: Db) {
    forall c <- db.conversations :: db.conversations[c].kind.Private? ==> exists a, b :: IsPair(db, c, a, b)
  }

  ghost predicate Shape(db: Db) {
    Populated(db) && KeysUnique(db) && PrivatesArePairs(db)
  }

  ghost predicate InvitesToGroups(db: Db) {
    forall i <- db.invitations :: i.conversation in db.conversations && db.conversations[i.conversation].kind.Group?
  }

  // Every OWNER row is a live row of a group, held by the user the log names.
  ghost predicate OwnersAreLogged(db: Db) {
    forall k <- db.members :: db.members[k].role.Owner? ==>
      && k.0 in db.conversations && db.conversations[k.0].kind.Group?
      && OwnerOf(db.events, k.0) == Some(k.1) && db.members[k].softDeletedAt.None?
  }

  ghost predicate OwnedBy(db: Db, c: Uuid, u: Uuid) {
    (c, u) in db.members && db.members[(c, u)].role.Owner?
  }

  // The user the log names does hold the OWNER row.
  ghost predicate IsOwned(db: Db, c: Uuid) {
    OwnerOf(db.events, c).Some? && OwnedBy(db, c, OwnerOf(db.events, c).value)
  }

  ghost predicate GroupsAreOwned(db: Db) {
    forall c <- db.conversations :: db.conversations[c].kind.Group? ==> IsOwned(db, c)
  }

  ghost predicate Sound(db: Db) {
    References(db) && Shape(db) && InvitesToGroups(db) && OwnersAreLogged(db)
  }

  // ---------------------------------------------------------------- three relations

  // Conversations stay what they are; members are lost nowhere and gained by groups only.
  ghost predicate KeepsShape(db: Db, db': Db, c: Uuid) {
    && c in db.conversations && c in db'.conversations
    && db'.conversations[c].kind == db.conversations[c].kind
    && db'.conversations[c].privateKey == db.conversations[c].privateKey
    && (forall u :: (c, u) in db.members ==> (c, u) in db'.members)
    && (db.conversations[c].kind.Private? ==> forall u :: (c, u) in db'.members ==> (c, u) in db.members)
  }

  lemma ShapeKept(db: Db, db': Db)
    requires Shape(db) && forall c <- db'.conversations :: KeepsShape(db, db', c)
    ensures Shape(db')
  {
    forall c <- db'.conversations ensures exists u :: (c, u) in db'.members {
      assert KeepsShape(db, db', c);
      var u :| (c, u) in db.members;
      assert (c, u) in db'.members;
    }
    forall c <- db'.conversations | db'.conversations[c].kind.Private? ensures exists a, b :: IsPair(db', c, a, b) {
      assert KeepsShape(db, db', c);
      var a, b :| IsPair(db, c, a, b);
      assert IsPair(db', c, a, b);
    }
    forall c, d | c in db'.conversations && d in db'.conversations && c != d && db'.conversations[c].privateKey.Some?
      ensures db'.conversations[c].privateKey != db'.conversations[d].privateKey
    {
      assert KeepsShape(db, db', c) && KeepsShape(db, db', d);
    }
  }

  // One conversation is new, populated, and of a key nobody has.
  lemma ShapeExtended(db: Db, db': Db, id: Uuid)
    requires Shape(db) && id !in db.conversations && db'.conversations.Keys == db.conversations.Keys + {id}
    requires forall c <- db.conversations :: KeepsShape(db, db', c)
    requires exists u :: (id, u) in db'.members
    requires db'.conversations[id].kind.Private? ==> exists a, b :: IsPair(db', id, a, b)
    requires db'.conversations[id].privateKey.Some? ==>
               forall c <- db.conversations :: db.conversations[c].privateKey != db'.conversations[id].privateKey
    ensures Shape(db')
  {
    var others := db'.(conversations := db'.conversations - {id});
    forall c <- others.conversations ensures KeepsShape(db, others, c) {
      assert KeepsShape(db, db', c);
    }
    ShapeKept(db, others);
    forall c <- db'.conversations | c != id && db'.conversations[c].kind.Private?
      ensures exists a, b :: IsPair(db', c, a, b)
    {
      var a, b :| IsPair(others, c, a, b);
      assert IsPair(db', c, a, b);
    }
    forall c <- db'.conversations ensures exists u :: (c, u) in db'.members {
      if c != id {
        var u :| (c, u) in others.members;
        assert (c, u) in db'.members;
      }
    }
    assert forall c <- db.conversations :: KeepsShape(db, db', c);
  }

  // Owners stay, and the log still names them.
  ghost predicate KeepsOwner(db: Db, db': Db, c: Uuid) {
    && OwnerOf(db'.events, c) == OwnerOf(db.events, c)
    && (forall u :: (c, u) in db'.members && db'.members[(c, u)].role.Owner? ==>
          (c, u) in db.members && db.members[(c, u)].role.Owner?
          && (db.members[(c, u)].softDeletedAt.None? ==> db'.members[(c, u)].softDeletedAt.None?))
    && (forall u :: (c, u) in db.members && db.members[(c, u)].role.Owner? ==>
          (c, u) in db'.members && db'.members[(c, u)].role.Owner?)
  }

  lemma OwnersKept(db: Db, db': Db)
    requires OwnersAreLogged(db) && MembersRef(db')
    requires forall c <- db'.conversations ::
               c in db.conversations && db'.conversations[c].kind == db.conversations[c].kind
    requires forall c <- db'.conversations :: KeepsOwner(db, db', c)
    ensures OwnersAreLogged(db') && (GroupsAreOwned(db) ==> GroupsAreOwned(db'))
  {
  }

  predicate SameParties(i: Invitation, j: Invitation) {
    i.conversation == j.conversation && i.actor == j.actor && i.target == j.target
  }

  predicate Minor(e: Event) {
    e.kind != GroupCreated && e.kind != OwnershipTransferred
  }

  // ------------------------------------- operations that only touch rows in place

  // Rows are updated, none added or removed, no role changes, no owner is soft-deleted.
  ghost predicate Touches(db: Db, db': Db) {
    && db'.users == db.users && db'.conversations == db.conversations && db'.messages == db.messages
    && db'.attachments == db.attachments && db'.uploads == db.uploads
    && (forall d <- db'.deliveries :: d.message in db.messages)
    && db'.members.Keys == db.members.Keys
    && (forall k <- db.members :: db'.members[k].role == db.members[k].role)
    && (forall k <- db.members :: db.members[k].role.Owner? && db.members[k].softDeletedAt.None?
          ==> db'.members[k].softDeletedAt.None?)
    && db.events <= db'.events <= db.events + db'.events[|db.events|..]
    && |db'.events| <= |db.events| + 1
    && (|db'.events| > |db.events| ==>
          Minor(db'.events[|db.events|]) && db'.events[|db.events|].conversation in db.conversations)
    && |db'.invitations| == |db.invitations|
    && (forall i :: 0 <= i < |db.invitations| ==> SameParties(db'.invitations[i], db.invitations[i]))
  }

  lemma TouchesKeepsOwnerOf(db: Db, db': Db, c: Uuid)
    requires Touches(db, db')
    ensures OwnerOf(db'.events, c) == OwnerOf(db.events, c)
  {
    if |db'.events| > |db.events| {
      var e := db'.events[|db.events|];
      assert db'.events == db.events + [e];
      OwnerAfter(db.events, e, c);
    } else {
      assert db'.events == db.events;
    }
  }

  lemma TouchesKeepsReferences(db: Db, db': Db)
    requires References(db) && Touches(db, db')
    ensures References(db')
  {
  }

  lemma TouchesKeepsInvites(db: Db, db': Db)
    requires InvitesToGroups(db) && Touches(db, db')
    ensures InvitesToGroups(db')
  {
  }

  lemma TouchesKeepsOwners(db: Db, db': Db)
    requires MembersRef(db) && OwnersAreLogged(db) && Touches(db, db')
    ensures OwnersAreLogged(db') && (GroupsAreOwned(db) ==> GroupsAreOwned(db'))
  {
    forall c <- db'.conversations ensures KeepsOwner(db, db', c) {
      TouchesKeepsOwnerOf(db, db', c);
    }
    OwnersKept(db, db');
  }

  lemma TouchesKeepsShape(db: Db, db': Db)
    requires Shape(db) && Touches(db, db')
    ensures Shape(db')
  {
    ShapeKept(db, db');
  }

  lemma TouchesKeepsSound(db: Db, db': Db)
    requires Sound(db) && Touches(db, db')
    ensures Sound(db') && (GroupsAreOwned(db) ==> GroupsAreOwned(db'))
  {
    TouchesKeepsReferences(db, db');
    TouchesKeepsInvites(db, db');
    TouchesKeepsOwners(db, db');
    TouchesKeepsShape(db, db');
  }

  lemma SetInvitationsTouches(db: Db, c: Uuid, u: Uuid, status: InvitationStatus)
    requires References(db)
    ensures Touches(db, SetInvitations(db, c, u, status))
  {
  }

  lemma LogTouches(db: Db, e: Event)
    requires References(db) && Minor(e) && e.conversation in db.conversations
    ensures Touches(db, Log(db, e))
  {
  }

  lemma SoftDeleteTouches(db: Db, c: Uuid, u: Uuid, now: Time)
    requires References(db) && ((c, u) in db.members ==> !db.members[(c, u)].role.Owner?)
    ensures Touches(db, SoftDelete(db, c, u, now))
  {
  }

  lemma RestoreTouches(db: Db, c: Uuid, u: Uuid, now: Time)
    requires References(db)
    ensures Touches(db, Restore(db, c, u, now))
  {
  }

  lemma DepartKeepsSound(db: Db, c: Uuid, actor: Uuid, target: Uuid, kind: EventKind, now: Time)
    requires Sound(db) && c in db.conversations
    requires (c, target) in db.members && !db.members[(c, target)].role.Owner?
    requires kind == MemberLeft || kind == MemberRemoved
    ensures var db' := DepartCommit(db, c, actor, target, kind, now).value;
            Sound(db') && (GroupsAreOwned(db) ==> GroupsAreOwned(db'))
  {
    var db1 := SoftDelete(db, c, target, now);
    SoftDeleteTouches(db, c, target, now);
    TouchesKeepsSound(db, db1);
    LogTouches(db1, Event(c, kind, actor, Some(target)));
    TouchesKeepsSound(db1, Log(db1, Event(c, kind, actor, Some(target))));
  }

  lemma LeaveKeepsSound(db: Db, u: Uuid, c: Uuid, now: Time)
    requires Sound(db)
    ensures Sound(Leave(db, u, c, now).db) && (GroupsAreOwned(db) ==> GroupsAreOwned(Leave(db, u, c, now).db))
  {
    LeaveOutcomes(db, u, c, now);
    if Leave(db, u, c, now).db != db {
      DepartKeepsSound(db, c, u, u, MemberLeft, now);
    }
  }

  lemma LeaveOutcomes(db: Db, u: Uuid, c: Uuid, now: Time)
    ensures var r := Leave(db, u, c, now).db;
            r == db || (DepartCommit(db, c, u, u, MemberLeft, now) == Some(r) && c in db.conversations
                        && (c, u) in db.members && !db.members[(c, u)].role.Owner?)
  {
  }

  lemma RemoveKeepsSound(db: Db, actor: Uuid, c: Uuid, target: Uuid, now: Time)
    requires Sound(db)
    ensures Sound(Remove(db, actor, c, target, now).db)
    ensures GroupsAreOwned(db) ==> GroupsAreOwned(Remove(db, actor, c, target, now).db)
  {
    RemoveOutcomes(db, actor, c, target, now);
    if Remove(db, actor, c, target, now).db != db {
      DepartKeepsSound(db, c, actor, target, MemberRemoved, now);
    }
  }

  lemma RemoveOutcomes(db: Db, actor: Uuid, c: Uuid, target: Uuid, now: Time)
    ensures var r := Remove(db, actor, c, target, now).db;
            r == db || (DepartCommit(db, c, actor, target, MemberRemoved, now) == Some(r) && c in db.conversations
                        && (c, target) in db.members && !db.members[(c, target)].role.Owner?)
  {
  }

  // -------------------------------------------------------- operations that add rows

  function AddMember(db: Db, c: Uuid, u: Uuid): Db {
    db.(members := db.members[(c, u) := NewMember(Member)])
  }

  lemma AddMemberKeepsShape(db: Db, c: Uuid, u: Uuid)
    requires Shape(db) && c in db.conversations && db.conversations[c].kind.Group?
    ensures Shape(AddMember(db, c, u))
  {
    ShapeKept(db, AddMember(db, c, u));
  }

  lemma AddMemberKeepsOwners(db: Db, c: Uuid, u: Uuid)
    requires MembersRef(db) && OwnersAreLogged(db) && c in db.conversations && u in db.users && (c, u) !in db.members
    ensures MembersRef(AddMember(db, c, u)) && OwnersAreLogged(AddMember(db, c, u))
    ensures GroupsAreOwned(db) ==> GroupsAreOwned(AddMember(db, c, u))
  {
  }

  lemma AddMemberKeepsReferences(db: Db, c: Uuid, u: Uuid)
    requires References(db) && InvitesToGroups(db) && c in db.conversations && u in db.users
    ensures References(AddMember(db, c, u)) && InvitesToGroups(AddMember(db, c, u))
  {
  }

  lemma AddMemberKeepsSound(db: Db, c: Uuid, u: Uuid)
    requires Sound(db) && c in db.conversations && u in db.users && (c, u) !in db.members
    requires db.conversations[c].kind.Group?
    ensures Sound(AddMember(db, c, u)) && (GroupsAreOwned(db) ==> GroupsAreOwned(AddMember(db, c, u)))
  {
    AddMemberKeepsReferences(db, c, u);
    AddMemberKeepsShape(db, c, u);
    AddMemberKeepsOwners(db, c, u);
  }

  lemma JoinKeepsSound(db: Db, c: Uuid, u: Uuid)
    requires Sound(db) && JoinCommit(db, c, u).Some?
    requires db.conversations[c].kind.Group?
    ensures Sound(JoinCommit(db, c, u).value)
    ensures GroupsAreOwned(db) ==> GroupsAreOwned(JoinCommit(db, c, u).value)
  {
    var db1 := SetInvitations(db, c, u, InvitationStatus.Accepted);
    SetInvitationsTouches(db, c, u, InvitationStatus.Accepted);
    TouchesKeepsSound(db, db1);
    var db2 := Log(db1, Event(c, MemberJoined, u, None));
    LogTouches(db1, Event(c, MemberJoined, u, None));
    TouchesKeepsSound(db1, db2);
    AddMemberKeepsSound(db2, c, u);
  }

  lemma AnswerKeepsSound(db: Db, c: Uuid, u: Uuid, status: InvitationStatus)
    requires Sound(db)
    ensures Sound(SetInvitations(db, c, u, status))
    ensures GroupsAreOwned(db) ==> GroupsAreOwned(SetInvitations(db, c, u, status))
  {
    SetInvitationsTouches(db, c, u, status);
    TouchesKeepsSound(db, SetInvitations(db, c, u, status));
  }

  lemma RestoreKeepsSound(db: Db, c: Uuid, u: Uuid, now: Time)
    requires Sound(db)
    ensures Sound(Restore(db, c, u, now)) && (GroupsAreOwned(db) ==> GroupsAreOwned(Restore(db, c, u, now)))
  {
    RestoreTouches(db, c, u, now);
    TouchesKeepsSound(db, Restore(db, c, u, now));
  }

  lemma RejectKeepsSound(db: Db, c: Uuid, u: Uuid, now: Time, which: nat)
    requires Sound(db)
    ensures Sound(Reject(db, c, u, now, which).db)
    ensures GroupsAreOwned(db) ==> GroupsAreOwned(Reject(db, c, u, now, which).db)
  {
    var r := Reject(db, c, u, now, which).db;
    RejectOutcomes(db, c, u, now, which);
    if r == SetInvitations(db, c, u, InvitationStatus.Accepted) {
      AnswerKeepsSound(db, c, u, InvitationStatus.Accepted);
    } else if r != db {
      AnswerKeepsSound(db, c, u, InvitationStatus.Rejected);
    }
  }

  lemma RejectOutcomes(db: Db, c: Uuid, u: Uuid, now: Time, which: nat)
    ensures var r := Reject(db, c, u, now, which).db;
            || r == db || r == SetInvitations(db, c, u, InvitationStatus.Accepted)
            || r == SetInvitations(db, c, u, InvitationStatus.Rejected)
  {
  }

  // An answered invitation leaves the store as it was, or in one of three new states.
  lemma AcceptOutcomes(db: Db, c: Uuid, u: Uuid, now: Time, which: nat)
    requires InvitesToGroups(db)
    ensures var r := Accept(db, c, u, now, which).db;
            || r == db || r == SetInvitations(db, c, u, InvitationStatus.Accepted) || r == Restore(db, c, u, now)
            || (JoinCommit(db, c, u) == Some(r) && c in db.conversations && db.conversations[c].kind.Group?)
  {
  }

  lemma AcceptKeepsSound(db: Db, c: Uuid, u: Uuid, now: Time, which: nat)
    requires Sound(db)
    ensures Sound(Accept(db, c, u, now, which).db)
    ensures GroupsAreOwned(db) ==> GroupsAreOwned(Accept(db, c, u, now, which).db)
  {
    var r := Accept(db, c, u, now, which).db;
    AcceptOutcomes(db, c, u, now, which);
    if r == SetInvitations(db, c, u, InvitationStatus.Accepted) {
      AnswerKeepsSound(db, c, u, InvitationStatus.Accepted);
    } else if r == Restore(db, c, u, now) {
      RestoreKeepsSound(db, c, u, now);
    } else if r != db {
      JoinKeepsSound(db, c, u);
    }
  }

  lemma InviteKeepsTheRest(db: Db, i: Invitation)
    requires Shape(db) && MembersRef(db) && OwnersAreLogged(db)
    ensures var db' := db.(invitations := db.invitations + [i]);
            Shape(db') && OwnersAreLogged(db') && (GroupsAreOwned(db) ==> GroupsAreOwned(db'))
  {
    ShapeKept(db, db.(invitations := db.invitations + [i]));
    OwnersKept(db, db.(invitations := db.invitations + [i]));
  }

  lemma InviteKeepsReferences(db: Db, i: Invitation)
    requires References(db) && InvitesToGroups(db)
    requires i.conversation in db.conversations && db.conversations[i.conversation].kind.Group?
    requires i.actor in db.users && i.target in db.users
    ensures var db' := db.(invitations := db.invitations + [i]); References(db') && InvitesToGroups(db')
  {
  }

  lemma InviteKeepsSound(db: Db, actor: Uuid, c: Uuid, target: Uuid, now: Time)
    requires Sound(db)
    ensures Sound(Invite(db, actor, c, target, now).db)
    ensures GroupsAreOwned(db) ==> GroupsAreOwned(Invite(db, actor, c, target, now).db)
  {
    if Invite(db, actor, c, target, now).refusal.None? {
      var i := Invitation(c, actor, target, Pending, now + INVITATION_LIFETIME);
      InviteKeepsTheRest(db, i);
      InviteKeepsReferences(db, i);
    }
  }

  lemma NewGroupOwners(db: Db, owner: Uuid, id: Uuid)
    requires References(db) && OwnersAreLogged(db) && CreateGroup(db, owner, id).refusal.None?
    ensures var db' := CreateGroup(db, owner, id).db;
            OwnersAreLogged(db') && (GroupsAreOwned(db) ==> GroupsAreOwned(db'))
  {
    var db' := CreateGroup(db, owner, id).db;
    forall c ensures OwnerOf(db'.events, c) == if c == id then Some(owner) else OwnerOf(db.events, c) {
      OwnerAfter(db.events, Event(id, GroupCreated, owner, None), c);
    }
    if GroupsAreOwned(db) {
      forall c <- db'.conversations | db'.conversations[c].kind.Group? ensures IsOwned(db', c) {
        assert c != id ==> IsOwned(db, c);
      }
    }
  }

  lemma NewGroupShape(db: Db, owner: Uuid, id: Uuid)
    requires Shape(db) && MembersRef(db) && CreateGroup(db, owner, id).refusal.None?
    ensures Shape(CreateGroup(db, owner, id).db)
  {
    var db' := CreateGroup(db, owner, id).db;
    assert (id, owner) in db'.members;
    ShapeExtended(db, db', id);
  }

  lemma NewGroupReferences(db: Db, owner: Uuid, id: Uuid)
    requires References(db) && InvitesToGroups(db) && CreateGroup(db, owner, id).refusal.None?
    ensures References(CreateGroup(db, owner, id).db) && InvitesToGroups(CreateGroup(db, owner, id).db)
  {
  }

  lemma CreateGroupKeepsSound(db: Db, owner: Uuid, id: Uuid)
    requires Sound(db)
    ensures Sound(CreateGroup(db, owner, id).db)
    ensures GroupsAreOwned(db) ==> GroupsAreOwned(CreateGroup(db, owner, id).db)
  {
    if CreateGroup(db, owner, id).refusal.None? {
      NewGroupShape(db, owner, id);
      NewGroupReferences(db, owner, id);
      NewGroupOwners(db, owner, id);
    }
  }

  // Exactly the two people (or the one) get a row in the new conversation.
  lemma NewPrivateMembers(db: Db, creator: Uuid, other: Uuid, id: Uuid)
    requires MembersRef(db) && KeysUnique(db) && GetOrCreatePrivate(db, creator, [other], id).Created?
    ensures var db' := GetOrCreatePrivate(db, creator, [other], id).db;
            && id !in db.conversations && db'.conversations == db.conversations[id := db'.conversations[id]]
            && db'.conversations[id] == Conversation(Private, Some(PairKey(creator, other)), None)
            && creator in db.users && other in db.users
            && (forall u: Uuid :: (id, u) in db'.members <==> IsOneOf(u, creator, other))
            && (forall k <- db'.members :: k in db.members || (k == (id, k.1) && IsOneOf(k.1, creator, other)))
            && (forall k <- db.members :: k in db'.members && db'.members[k] == db.members[k])
            && (forall k <- db'.members :: k !in db.members ==> db'.members[k] == NewMember(Member))
            && db' == db.(conversations := db'.conversations, members := db'.members)
  {
    var unique := NormalizeMembers(creator, [other]);
    PairMembers(creator, other);
    assert forall u :: u in unique <==> u in [creator] + [other];
    assert forall u :: u in unique <==> IsOneOf(u, creator, other);
    assert IsOneOf(other, creator, other) && IsOneOf(creator, creator, other);
  }

  lemma NewPrivateReferences(db: Db, creator: Uuid, other: Uuid, id: Uuid)
    requires References(db) && KeysUnique(db) && InvitesToGroups(db)
    requires GetOrCreatePrivate(db, creator, [other], id).Created?
    ensures var db' := GetOrCreatePrivate(db, creator, [other], id).db; References(db') && InvitesToGroups(db')
  {
    NewPrivateMembers(db, creator, other, id);
  }

  lemma NewPrivateOwners(db: Db, creator: Uuid, other: Uuid, id: Uuid)
    requires MembersRef(db) && KeysUnique(db) && OwnersAreLogged(db)
    requires GetOrCreatePrivate(db, creator, [other], id).Created?
    ensures var db' := GetOrCreatePrivate(db, creator, [other], id).db;
            OwnersAreLogged(db') && (GroupsAreOwned(db) ==> GroupsAreOwned(db'))
  {
    var db' := GetOrCreatePrivate(db, creator, [other], id).db;
    NewPrivateMembers(db, creator, other, id);
    if GroupsAreOwned(db) {
      forall c <- db'.conversations | db'.conversations[c].kind.Group? ensures IsOwned(db', c) {
        assert IsOwned(db, c);
      }
    }
  }

  lemma NewPrivateShape(db: Db, creator: Uuid, other: Uuid, id: Uuid)
    requires References(db) && Shape(db) && GetOrCreatePrivate(db, creator, [other], id).Created?
    ensures Shape(GetOrCreatePrivate(db, creator, [other], id).db)
  {
    var db' := GetOrCreatePrivate(db, creator, [other], id).db;
    var key := PrivateKey(NormalizeMembers(creator, [other]));
    assert forall c <- db.conversations :: !HasKey(db, c, key);
    NewPrivateMembers(db, creator, other, id);
    assert IsOneOf(creator, creator, other) && (id, creator) in db'.members;
    assert IsPair(db', id, creator, other);
    ShapeExtended(db, db', id);
  }

  lemma CreatePrivateKeepsSound(db: Db, creator: Uuid, other: Uuid, id: Uuid)
    requires Sound(db) && GetOrCreatePrivate(db, creator, [other], id).Created?
    ensures Sound(GetOrCreatePrivate(db, creator, [other], id).db)
    ensures GroupsAreOwned(db) ==> GroupsAreOwned(GetOrCreatePrivate(db, creator, [other], id).db)
  {
    NewPrivateReferences(db, creator, other, id);
    NewPrivateShape(db, creator, other, id);
    NewPrivateOwners(db, creator, other, id);
  }

  // --------------------------------------------------------------- handing over

  // What a transfer does to the two rows and to the log.
  ghost predicate HandedOver(db: Db, db': Db, owner: Uuid, c: Uuid, heir: Uuid) {
    && db'.conversations == db.conversations && db'.members.Keys == db.members.Keys
    && (c, owner) in db.members && db.members[(c, owner)].role.Owner?
    && (c, heir) in db.members && db.members[(c, heir)].softDeletedAt.None?
    && (forall k <- db.members :: db'.members[k] ==
          if k == (c, heir) then db.members[k].(role := Owner)
          else if k == (c, owner) then db.members[k].(role := Member) else db.members[k])
    && (forall d :: OwnerOf(db'.events, d) == if d == c then Some(heir) else OwnerOf(db.events, d))
  }

  lemma SetRoleRows(db: Db, c: Uuid, u: Uuid, role: Role)
    requires (c, u) in db.members
    ensures var db' := SetRole(db, c, u, role);
            && db' == db.(members := db'.members) && db'.members.Keys == db.members.Keys
            && forall k <- db.members ::
                 db'.members[k] == if k == (c, u) then db.members[k].(role := role) else db.members[k]
  {
  }

  lemma TransferHandsOver(db: Db, owner: Uuid, c: Uuid, heir: Uuid)
    requires TransferGuard(db, owner, c, heir).None? && c in db.conversations
    ensures HandedOver(db, Transfer(db, owner, c, heir).db, owner, c, heir)
  {
    var e := Event(c, OwnershipTransferred, owner, Some(heir));
    var one := SetRole(db, c, owner, Member);
    SetRoleRows(db, c, owner, Member);
    SetRoleRows(one, c, heir, Owner);
    assert Transfer(db, owner, c, heir).db == Log(SetRole(one, c, heir, Owner), e);
    forall d { OwnerAfter(db.events, e, d); }
  }

  lemma HandedOverIsLogged(db: Db, db': Db, owner: Uuid, c: Uuid, heir: Uuid)
    requires OwnersAreLogged(db) && HandedOver(db, db', owner, c, heir)
    ensures OwnersAreLogged(db')
  {
  }

  lemma HandedOverIsOwned(db: Db, db': Db, owner: Uuid, c: Uuid, heir: Uuid)
    requires GroupsAreOwned(db) && OwnersAreLogged(db) && HandedOver(db, db', owner, c, heir)
    ensures GroupsAreOwned(db')
  {
    forall d <- db'.conversations | db'.conversations[d].kind.Group? ensures IsOwned(db', d) {
      assert IsOwned(db, d);
    }
  }

  lemma HandedOverShape(db: Db, db': Db, owner: Uuid, c: Uuid, heir: Uuid)
    requires Shape(db) && HandedOver(db, db', owner, c, heir)
    ensures Shape(db')
  {
    ShapeKept(db, db');
  }

  lemma TransferKeepsReferences(db: Db, owner: Uuid, c: Uuid, heir: Uuid)
    requires References(db)
    ensures References(Transfer(db, owner, c, heir).db)
  {
  }

  lemma TransferKeepsSound(db: Db, owner: Uuid, c: Uuid, heir: Uuid)
    requires Sound(db)
    ensures Sound(Transfer(db, owner, c, heir).db)
    ensures GroupsAreOwned(db) ==> GroupsAreOwned(Transfer(db, owner, c, heir).db)
  {
    if TransferGuard(db, owner, c, heir).None? {
      var db' := Transfer(db, owner, c, heir).db;
      TransferKeepsReferences(db, owner, c, heir);
      TransferHandsOver(db, owner, c, heir);
      HandedOverIsLogged(db, db', owner, c, heir);
      HandedOverShape(db, db', owner, c, heir);
      if GroupsAreOwned(db) {
        HandedOverIsOwned(db, db', owner, c, heir);
      }
    }
  }

  // ------------------------------------------------------------------- deletion

  lemma DropMessagesKeepsSound(db: Db, gone: set<Uuid>)
    requires Sound(db)
    ensures Sound(DropMessages(db, gone)) && (GroupsAreOwned(db) ==> GroupsAreOwned(DropMessages(db, gone)))
  {
    DropMessagesKeepsReferences(db, gone);
    DropMessagesKeepsTheRest(db, gone);
  }

  lemma DropMessagesKeepsTheRest(db: Db, gone: set<Uuid>)
    requires Shape(db) && MembersRef(db) && OwnersAreLogged(db)
    ensures var db' := DropMessages(db, gone);
            Shape(db') && OwnersAreLogged(db') && (GroupsAreOwned(db) ==> GroupsAreOwned(db'))
  {
    ShapeKept(db, DropMessages(db, gone));
    OwnersKept(db, DropMessages(db, gone));
  }

  lemma DroppedConversationsShape(db: Db, gone: set<Uuid>)
    requires Shape(db)
    ensures Shape(DropConversations(db, gone))
  {
    ShapeKept(db, DropConversations(db, gone));
  }

  lemma DroppedConversationsOwners(db: Db, gone: set<Uuid>)
    requires References(db) && OwnersAreLogged(db)
    ensures var db' := DropConversations(db, gone); OwnersAreLogged(db') && (GroupsAreOwned(db) ==> GroupsAreOwned(db'))
  {
    var db' := DropConversations(db, gone);
    DropConversationsKeepsReferences(db, gone);
    forall c <- db'.conversations ensures KeepsOwner(db, db', c) {
      OwnerOfKept(db.events, gone, c);
    }
    OwnersKept(db, db');
  }

  lemma DropConversationsKeepsSound(db: Db, gone: set<Uuid>)
    requires Sound(db)
    ensures Sound(DropConversations(db, gone)) && (GroupsAreOwned(db) ==> GroupsAreOwned(DropConversations(db, gone)))
  {
    DropConversationsKeepsReferences(db, gone);
    DroppedConversationsShape(db, gone);
    DroppedConversationsOwners(db, gone);
  }

  lemma DeleteGroupKeepsSound(db: Db, u: Uuid, c: Uuid)
    requires Sound(db)
    ensures Sound(DeleteGroup(db, u, c).db) && (GroupsAreOwned(db) ==> GroupsAreOwned(DeleteGroup(db, u, c).db))
  {
    if DeleteGroup(db, u, c).db != db {
      DropConversationsKeepsSound(db, {c});
    }
  }

  lemma HideKeepsSound(db: Db, u: Uuid, c: Uuid, now: Time)
    requires Sound(db) && c in db.conversations && db.conversations[c].kind.Private? && (c, u) in db.members
    ensures var db' := SoftDelete(db, c, u, now); Sound(db') && (GroupsAreOwned(db) ==> GroupsAreOwned(db'))
  {
    SoftDeleteTouches(db, c, u, now);
    TouchesKeepsSound(db, SoftDelete(db, c, u, now));
  }

  lemma DeletePrivateKeepsSound(db: Db, u: Uuid, c: Uuid, now: Time)
    requires Sound(db)
    ensures Sound(DeletePrivate(db, u, c, now).db)
    ensures GroupsAreOwned(db) ==> GroupsAreOwned(DeletePrivate(db, u, c, now).db)
  {
    var r := DeletePrivate(db, u, c, now).db;
    if r != db {
      HideKeepsSound(db, u, c, now);
      if r != SoftDelete(db, c, u, now) {
        DropConversationsKeepsSound(SoftDelete(db, c, u, now), {c});
      }
    }
  }

  // Deleting the row of a user leaves every conversation populated exactly when
  // the user is nowhere the only member.
  lemma DropUserKeepsPopulatedIff(db: Db, user: Uuid)
    requires Populated(db)
    ensures Populated(DropUser(db, user)) <==> Orphaned(db, user) == {}
  {
    var db' := DropUser(db, user);
    if Orphaned(db, user) == {} {
      forall c <- db'.conversations ensures exists u :: (c, u) in db'.members {
        var u :| (c, u) in db.members;
        if u == user {
          assert c !in Orphaned(db, user);
          var k :| k in db.members && k.0 == c && k.1 != user;
          assert k == (c, k.1) && (c, k.1) in db'.members;
        } else {
          assert (c, u) in db'.members;
        }
      }
    } else {
      var c :| c in Orphaned(db, user);
      assert forall u :: (c, u) in db.members ==> (c, u).0 == c;
      assert c in db'.conversations && forall u :: (c, u) !in db'.members;
    }
  }

  lemma DropUserKeepsPairs(db: Db, user: Uuid)
    requires PrivatesArePairs(db) && KeysUnique(db)
    ensures PrivatesArePairs(DropUser(db, user)) && KeysUnique(DropUser(db, user))
  {
    var db' := DropUser(db, user);
    forall c <- db'.conversations | db'.conversations[c].kind.Private? ensures exists a, b :: IsPair(db', c, a, b) {
      var a, b :| IsPair(db, c, a, b);
      assert IsPair(db', c, a, b);
    }
  }

  lemma DropUserKeepsSound(db: Db, user: Uuid)
    requires Sound(db) && Orphaned(db, user) == {}
    ensures Sound(DropUser(db, user))
  {
    DropUserKeepsReferences(db, user);
    DropUserKeepsPopulatedIff(db, user);
    DropUserKeepsPairs(db, user);
  }

  lemma NoOrphansLeft(db: Db, user: Uuid)
    ensures Orphaned(DropConversations(db, Orphaned(db, user)), user) == {}
  {
  }

  lemma FilesDoNotMatter(db: Db, files: set<StorageKey>)
    requires Sound(db)
    ensures Sound(db.(files := files)) && (GroupsAreOwned(db) ==> GroupsAreOwned(db.(files := files)))
  {
    TouchesKeepsSound(db, db.(files := files));
  }

  lemma DeleteUserKeepsSound(db: Db, user: Uuid)
    requires Sound(db)
    ensures Sound(DeleteUser(db, user))
  {
    var gone := Orphaned(db, user);
    var kept := DropConversations(db, gone);
    var files := db.files - KeysOf(db, MessagesIn(db, gone));
    DropConversationsKeepsSound(db, gone);
    NoOrphansLeft(db, user);
    FilesDoNotMatter(kept, files);
    assert Orphaned(kept.(files := files), user) == Orphaned(kept, user);
    DropUserKeepsSound(kept.(files := files), user);
  }
}
