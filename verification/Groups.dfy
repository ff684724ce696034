/**
 * The conversation service on the store: each operation is its guard (what it
 * reads and refuses) and its commit (the transaction).
 */
module Groups {
  import opened Prelude
  import opened Tables
  import opened Store
  import opened PrivateKeys

  datatype Refusal =
    | ConversationNotFound | InvalidType | NotMember | OnlyOwner
    | CannotInviteYourself | AlreadyMember | InvitationNotFound | InvitationExpired
    | TransferOwnershipFirst | InvalidOwner | OwnerRemoved | TargetNotMember | TargetRemoved
    | CannotRemoveOwner | UseLeaveGroup | AlreadyDeleted | LeftGroup | TooManyMembers
    | BrokenConstraint   // the database refused the transaction and rolled it back

  datatype Reply = Reply(db: Db, refusal: Option<Refusal>)

  const INVITATION_LIFETIME := 24 * 3600 * 1000

  function NewMember(role: Role): Membership {
    Membership(role, None, None, 0)
  }

  function NewKeys(c: Uuid, ids: seq<Uuid>): set<(Uuid, Uuid)> {
    set u | u in ids :: (c, u)
  }

  function NewRows(c: Uuid, ids: seq<Uuid>, role: Role): map<(Uuid, Uuid), Membership> {
    map k | k in NewKeys(c, ids) :: NewMember(role)
  }

  function Log(db: Db, e: Event): Db {
    db.(events := db.events + [e])
  }

  // UPDATE statements: a key that is absent is no error.
  function SetRole(db: Db, c: Uuid, u: Uuid, role: Role): Db {
    if (c, u) !in db.members then db else
    db.(members := db.members[(c, u) := db.members[(c, u)].(role := role)])
  }

  function SoftDelete(db: Db, c: Uuid, u: Uuid, now: Time): Db {
    if (c, u) !in db.members then db else
    db.(members := db.members[(c, u) := db.members[(c, u)].(softDeletedAt := Some(now))])
  }

  function Restore(db: Db, c: Uuid, u: Uuid, now: Time): Db {
    if (c, u) !in db.members then db else
    db.(members := db.members[(c, u) := db.members[(c, u)].(softDeletedAt := None, restoredAt := Some(now))])
  }

  function SetInvitations(db: Db, c: Uuid, target: Uuid, status: InvitationStatus): Db {
    db.(invitations := Map(db.invitations, (i: Invitation) =>
      if i.conversation == c && i.target == target then i.(status := status) else i))
  }

  // ------------------------------------------------------------------ creation

  function CreateGroup(db: Db, owner: Uuid, id: Uuid): Reply {
    if owner !in db.users || id in db.conversations then Reply(db, Some(BrokenConstraint)) else
    Reply(Log(db.(conversations := db.conversations[id := Conversation(Group, None, None)],
                  members := db.members[(id, owner) := NewMember(Owner)]),
              Event(id, GroupCreated, owner, None)), None)
  }

  // The UNIQUE constraint on private_key.
  ghost predicate KeysUnique(db: Db) {
    forall c, d :: c in db.conversations && d in db.conversations && c != d && db.conversations[c].privateKey.Some?
      ==> db.conversations[c].privateKey != db.conversations[d].privateKey
  }

  predicate HasKey(db: Db, c: Uuid, key: Digest) {
    c in db.conversations && db.conversations[c].privateKey == Some(key)
  }

  function FindByPrivateKey(db: Db, key: Digest): (found: Option<Uuid>)
    requires KeysUnique(db)
    ensures found.Some? ==> HasKey(db, found.value, key)
    ensures found.None? ==> forall c :: !HasKey(db, c, key)
  {
    if c: Uuid :| c in db.conversations && HasKey(db, c, key) then Some(c) else None
  }

  datatype PrivateReply = Found(c: Uuid) | Created(c: Uuid, db: Db) | Denied(why: Refusal)

  // The transaction that opens a private conversation: the UNIQUE key, the primary
  // key or a missing user refuse it.
  function OpenPrivate(db: Db, key: Digest, unique: seq<Uuid>, id: Uuid): Option<Db> {
    if id in db.conversations || (exists c <- db.conversations :: HasKey(db, c, key)) then None
    else if exists u <- unique :: u !in db.users then None
    else
      Some(db.(conversations := db.conversations[id := Conversation(Private, Some(key), None)],
               members := db.members + NewRows(id, unique, Member)))
  }

  function FindOrOpen(db: Db, key: Digest, unique: seq<Uuid>, id: Uuid): PrivateReply
    requires KeysUnique(db)
  {
    var existing := FindByPrivateKey(db, key);
    if existing.Some? then Found(existing.value)
    else match OpenPrivate(db, key, unique, id)
      case None => Denied(BrokenConstraint)
      case Some(db') => Created(id, db')
  }

  function GetOrCreatePrivate(db: Db, creator: Uuid, members: seq<Uuid>, id: Uuid): PrivateReply
    requires KeysUnique(db)
  {
    var unique := NormalizeMembers(creator, members);
    if |unique| > 2 then Denied(TooManyMembers) else FindOrOpen(db, PrivateKey(unique), unique, id)
  }

  // ---------------------------------------------------------------- invitations

  function InviteGuard(db: Db, actor: Uuid, c: Uuid, target: Uuid): Option<Refusal> {
    if c !in db.conversations then Some(ConversationNotFound)
    else if !db.conversations[c].kind.Group? then Some(InvalidType)
    else if (c, actor) !in db.members then Some(NotMember)
    else if !db.members[(c, actor)].role.Owner? then Some(OnlyOwner)
    else if actor == target then Some(CannotInviteYourself)
    else if (c, target) in db.members && db.members[(c, target)].softDeletedAt.None? then Some(AlreadyMember)
    else None
  }

  function Invite(db: Db, actor: Uuid, c: Uuid, target: Uuid, now: Time): Reply {
    var refusal := InviteGuard(db, actor, c, target);
    if refusal.Some? then Reply(db, refusal)
    else if actor !in db.users || target !in db.users then Reply(db, Some(BrokenConstraint))
    else
      var row := Invitation(c, actor, target, Pending, now + INVITATION_LIFETIME);
      Reply(db.(invitations := db.invitations + [row]), None)
  }

  predicate Invited(db: Db, c: Uuid, u: Uuid, i: nat) {
    i < |db.invitations| && db.invitations[i].conversation == c && db.invitations[i].target == u
  }

  function FirstInvitation(db: Db, c: Uuid, u: Uuid, from: nat): (found: Option<nat>)
    ensures found.Some? ==> Invited(db, c, u, found.value)
    ensures found.None? ==> forall i :: from <= i ==> !Invited(db, c, u, i)
    decreases |db.invitations| - from
  {
    if from >= |db.invitations| then None
    else if Invited(db, c, u, from) then Some(from)
    else FirstInvitation(db, c, u, from + 1)
  }

  // The row findOne returns: `which` if it matches, else the first match.
  function FindInvitation(db: Db, c: Uuid, u: Uuid, which: nat): (found: Option<nat>)
    ensures found.Some? ==> Invited(db, c, u, found.value)
    ensures found.None? ==> forall i :: !Invited(db, c, u, i)
  {
    if Invited(db, c, u, which) then Some(which) else FirstInvitation(db, c, u, 0)
  }

  function JoinCommit(db: Db, c: Uuid, u: Uuid): Option<Db> {
    if c !in db.conversations || u !in db.users || (c, u) in db.members then None else
    var db' := Log(SetInvitations(db, c, u, Accepted), Event(c, MemberJoined, u, None));
    Some(db'.(members := db'.members[(c, u) := NewMember(Member)]))
  }

  function Accept(db: Db, c: Uuid, u: Uuid, now: Time, which: nat): (r: Reply)
    ensures r.db == db.(members := r.db.members, events := r.db.events, invitations := r.db.invitations)
  {
    var found := FindInvitation(db, c, u, which);
    if c !in db.conversations then Reply(db, Some(ConversationNotFound))
    else if found.None? then Reply(db, Some(InvitationNotFound))
    else if now > db.invitations[found.value].expiresAt then
      // markInvitationAsExpired writes ACCEPTED.
      Reply(SetInvitations(db, c, u, Accepted), Some(InvitationExpired))
    else if (c, u) in db.members && db.members[(c, u)].softDeletedAt.Some? then
      Reply(Restore(db, c, u, now), None)
    else match JoinCommit(db, c, u)
      case None => Reply(db, Some(BrokenConstraint))
      case Some(db') => Reply(db', None)
  }

  function Reject(db: Db, c: Uuid, u: Uuid, now: Time, which: nat): (r: Reply)
    ensures r.db == db.(members := r.db.members, events := r.db.events, invitations := r.db.invitations)
  {
    var found := FindInvitation(db, c, u, which);
    if found.None? then Reply(db, Some(InvitationNotFound))
    else if now > db.invitations[found.value].expiresAt then
      Reply(SetInvitations(db, c, u, Accepted), Some(InvitationExpired))
    else Reply(SetInvitations(db, c, u, Rejected), None)
  }

  // ------------------------------------------------- leaving, removing, handing over

  function DepartCommit(db: Db, c: Uuid, actor: Uuid, target: Uuid, kind: EventKind, now: Time): Option<Db> {
    if c !in db.conversations then None
    else Some(Log(SoftDelete(db, c, target, now), Event(c, kind, actor, Some(target))))
  }

  function Committed(db: Db, result: Option<Db>): Reply {
    match result
    case None => Reply(db, Some(BrokenConstraint))
    case Some(db') => Reply(db', None)
  }

  function LeaveGuard(db: Db, u: Uuid, c: Uuid): Option<Refusal> {
    if (c, u) !in db.members then Some(NotMember)
    else if db.members[(c, u)].role.Owner? then Some(TransferOwnershipFirst)
    else None
  }

  function Leave(db: Db, u: Uuid, c: Uuid, now: Time): Reply {
    var refusal := LeaveGuard(db, u, c);
    if refusal.Some? then Reply(db, refusal) else Committed(db, DepartCommit(db, c, u, u, MemberLeft, now))
  }

  function TransferGuard(db: Db, owner: Uuid, c: Uuid, heir: Uuid): Option<Refusal> {
    if owner == heir then Some(InvalidOwner)
    else if (c, owner) !in db.members then Some(NotMember)
    else if !db.members[(c, owner)].role.Owner? then Some(OnlyOwner)
    else if db.members[(c, owner)].softDeletedAt.Some? then Some(OwnerRemoved)
    else if (c, heir) !in db.members then Some(TargetNotMember)
    else if db.members[(c, heir)].softDeletedAt.Some? then Some(TargetRemoved)
    else None
  }

  function TransferCommit(db: Db, owner: Uuid, c: Uuid, heir: Uuid): Option<Db> {
    if c !in db.conversations then None
    else Some(Log(SetRole(SetRole(db, c, owner, Member), c, heir, Owner),
                  Event(c, OwnershipTransferred, owner, Some(heir))))
  }

  function Transfer(db: Db, owner: Uuid, c: Uuid, heir: Uuid): Reply {
    var refusal := TransferGuard(db, owner, c, heir);
    if refusal.Some? then Reply(db, refusal) else Committed(db, TransferCommit(db, owner, c, heir))
  }

  function RemoveGuard(db: Db, actor: Uuid, c: Uuid, target: Uuid): Option<Refusal> {
    if c !in db.conversations then Some(ConversationNotFound)
    else if !db.conversations[c].kind.Group? then Some(InvalidType)
    else if (c, actor) !in db.members then Some(NotMember)
    else if !db.members[(c, actor)].role.Owner? then Some(OnlyOwner)
    else if (c, target) !in db.members then Some(TargetNotMember)
    else if db.members[(c, target)].role.Owner? then Some(CannotRemoveOwner)
    else if actor == target then Some(UseLeaveGroup)
    else None
  }

  function Remove(db: Db, actor: Uuid, c: Uuid, target: Uuid, now: Time): Reply {
    var refusal := RemoveGuard(db, actor, c, target);
    if refusal.Some? then Reply(db, refusal) else Committed(db, DepartCommit(db, c, actor, target, MemberRemoved, now))
  }

  // ------------------------------------------------------------------- deletion

  function DeleteGroup(db: Db, u: Uuid, c: Uuid): Reply {
    if c !in db.conversations then Reply(db, Some(ConversationNotFound))
    else if !db.conversations[c].kind.Group? then Reply(db, Some(InvalidType))
    else if (c, u) !in db.members then Reply(db, Some(NotMember))
    else if !db.members[(c, u)].role.Owner? then Reply(db, Some(OnlyOwner))
    else Reply(DropConversations(db, {c}), None)
  }

  predicate SomeoneRemains(db: Db, c: Uuid) {
    exists k <- db.members :: k.0 == c && db.members[k].softDeletedAt.None?
  }

  function DeletePrivate(db: Db, u: Uuid, c: Uuid, now: Time): Reply {
    if c !in db.conversations then Reply(db, Some(ConversationNotFound))
    else if !db.conversations[c].kind.Private? then Reply(db, Some(InvalidType))
    else if (c, u) !in db.members then Reply(db, Some(NotMember))
    else if db.members[(c, u)].softDeletedAt.Some? then Reply(db, Some(AlreadyDeleted))
    else
      var db' := SoftDelete(db, c, u, now);
      Reply(if SomeoneRemains(db', c) then db' else DropConversations(db', {c}), None)
  }

  // ------------------------------------------------ who the event log says owns a group

  function OwnerOf(events: seq<Event>, c: Uuid): Option<Uuid> {
    if events == [] then None
    else
      var e := events[|events| - 1];
      if e.conversation == c && e.kind == GroupCreated then Some(e.actor)
      else if e.conversation == c && e.kind == OwnershipTransferred then e.target
      else OwnerOf(events[..|events| - 1], c)
  }

  lemma OwnerAfter(events: seq<Event>, e: Event, c: Uuid)
    ensures OwnerOf(events + [e], c) ==
              if e.conversation == c && e.kind == GroupCreated then Some(e.actor)
              else if e.conversation == c && e.kind == OwnershipTransferred then e.target
              else OwnerOf(events, c)
  {
  }

  lemma {:induction false} OwnerOfKept(events: seq<Event>, gone: set<Uuid>, c: Uuid)
    requires c !in gone
    ensures OwnerOf(Keep(events, (e: Event) => e.conversation !in gone), c) == OwnerOf(events, c)
  {
    if events != [] {
      var p := (e: Event) => e.conversation !in gone;
      var front, e := events[..|events| - 1], events[|events| - 1];
      OwnerOfKept(front, gone, c);
      if p(e) {
        OwnerAfter(Keep(front, p), e, c);
      }
    }
  }
}
