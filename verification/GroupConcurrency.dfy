/**
 * Group operations as the service really runs them: the guards read outside the
 * transaction. A commit may therefore rest on facts that were true at any earlier
 * moment, and at different moments; this covers every interleaving.
 */
module GroupConcurrency {
  import opened Prelude
  import opened Store
  import opened Groups
  import opened Integrity

  // One row (or its absence) as some query returned it.
  datatype Fact =
    | MemberSeen(c: Uuid, u: Uuid, row: Membership)
    | NoMemberSeen(c: Uuid, u: Uuid)
    | ConversationSeen(c: Uuid, kind: Kind)
    | InvitationSeen(invitation: Invitation)

  predicate Holds(db: Db, f: Fact) {
    match f
    case MemberSeen(c, u, row) => (c, u) in db.members && db.members[(c, u)] == row
    case NoMemberSeen(c, u) => (c, u) !in db.members
    case ConversationSeen(c, kind) => c in db.conversations && db.conversations[c].kind == kind
    case InvitationSeen(i) => i in db.invitations
  }

  datatype Commit =
    | Establish(owner: Uuid, id: Uuid)
    | Ask(actor: Uuid, c: Uuid, target: Uuid)
    | JoinNew(c: Uuid, u: Uuid)
    | Rejoin(c: Uuid, u: Uuid)
    | Quit(u: Uuid, c: Uuid)
    | HandOver(owner: Uuid, c: Uuid, heir: Uuid)
    | Expel(actor: Uuid, c: Uuid, target: Uuid)
    | Dissolve(u: Uuid, c: Uuid)

  // ------------------------------------------------------- guards as sets of facts

  ghost predicate SawOwner(seen: iset<Fact>, c: Uuid, u: Uuid) {
    exists row :: MemberSeen(c, u, row) in seen && row.role.Owner?
  }

  ghost predicate SawLiveOwner(seen: iset<Fact>, c: Uuid, u: Uuid) {
    exists row :: MemberSeen(c, u, row) in seen && row.role.Owner? && row.softDeletedAt.None?
  }

  ghost predicate SawPlain(seen: iset<Fact>, c: Uuid, u: Uuid) {
    exists row :: MemberSeen(c, u, row) in seen && !row.role.Owner?
  }

  ghost predicate SawLive(seen: iset<Fact>, c: Uuid, u: Uuid) {
    exists row :: MemberSeen(c, u, row) in seen && row.softDeletedAt.None?
  }

  ghost predicate SawDeleted(seen: iset<Fact>, c: Uuid, u: Uuid) {
    exists row :: MemberSeen(c, u, row) in seen && row.softDeletedAt.Some?
  }

  ghost predicate SawInvitation(seen: iset<Fact>, c: Uuid, u: Uuid) {
    exists i :: InvitationSeen(i) in seen && i.conversation == c && i.target == u
  }

  ghost predicate SawConversation(seen: iset<Fact>, c: Uuid) {
    exists kind :: ConversationSeen(c, kind) in seen
  }

  ghost predicate Allowed(seen: iset<Fact>, commit: Commit) {
    match commit
    case Establish(_, _) => true
    case Ask(actor, c, target) =>
      ConversationSeen(c, Group) in seen && SawOwner(seen, c, actor) && actor != target
      && (NoMemberSeen(c, target) in seen || SawDeleted(seen, c, target))
    case JoinNew(c, u) =>
      SawConversation(seen, c) && SawInvitation(seen, c, u) && (NoMemberSeen(c, u) in seen || SawLive(seen, c, u))
    case Rejoin(c, u) => SawConversation(seen, c) && SawInvitation(seen, c, u) && SawDeleted(seen, c, u)
    case Quit(u, c) => SawPlain(seen, c, u)
    case HandOver(owner, c, heir) => owner != heir && SawLiveOwner(seen, c, owner) && SawLive(seen, c, heir)
    case Expel(actor, c, target) =>
      ConversationSeen(c, Group) in seen && SawOwner(seen, c, actor) && SawPlain(seen, c, target) && actor != target
    case Dissolve(u, c) => ConversationSeen(c, Group) in seen && SawOwner(seen, c, u)
  }

  ghost function Now(db: Db): iset<Fact> {
    iset f | Holds(db, f)
  }

  // The serial guards are these, read all at one moment.
  lemma SerialGuardsAreAllowedNow(db: Db, a: Uuid, c: Uuid, b: Uuid)
    ensures TransferGuard(db, a, c, b).None? <==> Allowed(Now(db), HandOver(a, c, b))
    ensures LeaveGuard(db, a, c).None? <==> Allowed(Now(db), Quit(a, c))
    ensures RemoveGuard(db, a, c, b).None? <==> Allowed(Now(db), Expel(a, c, b))
    ensures InviteGuard(db, a, c, b).None? <==> Allowed(Now(db), Ask(a, c, b))
    ensures DeleteGroup(db, a, c).refusal.None? <==> Allowed(Now(db), Dissolve(a, c))
  {
    var seen := Now(db);
    forall u: Uuid, row ensures MemberSeen(c, u, row) in seen <==> (c, u) in db.members && db.members[(c, u)] == row {
    }
    assert ConversationSeen(c, Group) in seen <==> c in db.conversations && db.conversations[c].kind.Group?;
    forall u: Uuid ensures SawOwner(seen, c, u) <==> (c, u) in db.members && db.members[(c, u)].role.Owner? {
      if (c, u) in db.members { assert MemberSeen(c, u, db.members[(c, u)]) in seen; }
    }
    forall u: Uuid ensures SawPlain(seen, c, u) <==> (c, u) in db.members && !db.members[(c, u)].role.Owner? {
      if (c, u) in db.members { assert MemberSeen(c, u, db.members[(c, u)]) in seen; }
    }
    forall u: Uuid ensures SawLive(seen, c, u) <==> (c, u) in db.members && db.members[(c, u)].softDeletedAt.None? {
      if (c, u) in db.members { assert MemberSeen(c, u, db.members[(c, u)]) in seen; }
    }
    forall u: Uuid ensures SawDeleted(seen, c, u) <==> (c, u) in db.members && db.members[(c, u)].softDeletedAt.Some? {
      if (c, u) in db.members { assert MemberSeen(c, u, db.members[(c, u)]) in seen; }
    }
    forall u: Uuid ensures SawLiveOwner(seen, c, u) <==>
      (c, u) in db.members && db.members[(c, u)].role.Owner? && db.members[(c, u)].softDeletedAt.None?
    {
      if (c, u) in db.members { assert MemberSeen(c, u, db.members[(c, u)]) in seen; }
    }
  }

  // ----------------------------------------------------------------------- steps

  // `late` counts, per conversation, the transfers committed by someone who no
  // longer held the OWNER role.
  datatype Shared = Shared(db: Db, now: Time, seen: iset<Fact>, used: set<Uuid>, late: multiset<Uuid>)

  datatype Step =
    | Tick(now: Time)
    | AddUser(user: Uuid)
    | Observe(fact: Fact)
    | Do(commit: Commit)

  // The transaction; None when a constraint rolls it back.
  function Effect(db: Db, now: Time, commit: Commit): Option<Db> {
    match commit
    case Establish(owner, id) =>
      var r := CreateGroup(db, owner, id);
      if r.refusal.None? then Some(r.db) else None
    case Ask(actor, c, target) =>
      if c !in db.conversations || actor !in db.users || target !in db.users then None
      else Some(db.(invitations := db.invitations + [Invitation(c, actor, target, Pending, now + INVITATION_LIFETIME)]))
    case JoinNew(c, u) => JoinCommit(db, c, u)
    case Rejoin(c, u) => Some(Restore(db, c, u, now))
    case Quit(u, c) => DepartCommit(db, c, u, u, MemberLeft, now)
    case HandOver(owner, c, heir) => TransferCommit(db, owner, c, heir)
    case Expel(actor, c, target) => DepartCommit(db, c, actor, target, MemberRemoved, now)
    case Dissolve(_, c) => Some(DropConversations(db, {c}))
  }

  // The operation of which the commit is the last part, when nothing interrupts it.
  function Uninterrupted(db: Db, now: Time, commit: Commit, which: nat): Reply {
    match commit
    case Establish(owner, id) => CreateGroup(db, owner, id)
    case Ask(actor, c, target) => Invite(db, actor, c, target, now)
    case JoinNew(c, u) => Accept(db, c, u, now, which)
    case Rejoin(c, u) => Accept(db, c, u, now, which)
    case Quit(u, c) => Leave(db, u, c, now)
    case HandOver(owner, c, heir) => Transfer(db, owner, c, heir)
    case Expel(actor, c, target) => Remove(db, actor, c, target, now)
    case Dissolve(u, c) => DeleteGroup(db, u, c)
  }

  // It succeeds if and only if its guard holds now and no constraint refuses the
  // commit, and then does what the commit does.
  lemma SerialIsGuardThenCommit(db: Db, now: Time, commit: Commit)
    requires !commit.JoinNew? && !commit.Rejoin?
    ensures var r := Uninterrupted(db, now, commit, 0);
            && (r.refusal.None? <==> Allowed(Now(db), commit) && Effect(db, now, commit).Some?)
            && (r.refusal.None? ==> r.db == Effect(db, now, commit).value)
  {
    match commit
    case Establish(_, _) =>
    case Ask(actor, c, target) => SerialGuardsAreAllowedNow(db, actor, c, target);
    case Quit(u, c) => SerialGuardsAreAllowedNow(db, u, c, u);
    case HandOver(owner, c, heir) => SerialGuardsAreAllowedNow(db, owner, c, heir);
    case Expel(actor, c, target) => SerialGuardsAreAllowedNow(db, actor, c, target);
    case Dissolve(u, c) => SerialGuardsAreAllowedNow(db, u, c, u);
  }

  // Accepting is one of two commits, told apart by the row that is there.
  lemma AcceptIsJoinOrRejoin(db: Db, now: Time, c: Uuid, u: Uuid, which: nat)
    requires c in db.conversations && Invited(db, c, u, which) && now <= db.invitations[which].expiresAt
    ensures var commit := if (c, u) in db.members && db.members[(c, u)].softDeletedAt.Some?
                          then Rejoin(c, u) else JoinNew(c, u);
            var r := Uninterrupted(db, now, commit, which);
            && Allowed(Now(db), commit)
            && (r.refusal.None? <==> Effect(db, now, commit).Some?)
            && (r.refusal.None? ==> r.db == Effect(db, now, commit).value)
  {
    var seen := Now(db);
    assert ConversationSeen(c, db.conversations[c].kind) in seen;
    assert InvitationSeen(db.invitations[which]) in seen;
    if (c, u) in db.members {
      assert MemberSeen(c, u, db.members[(c, u)]) in seen;
    } else {
      assert NoMemberSeen(c, u) in seen;
    }
  }

  ghost predicate IsLate(db: Db, commit: Commit) {
    commit.HandOver? && !OwnedBy(db, commit.c, commit.owner)
  }

  ghost predicate Enabled(s: Shared, commit: Commit) {
    Allowed(s.seen, commit) && Effect(s.db, s.now, commit).Some? && (commit.Establish? ==> commit.id !in s.used)
  }

  ghost function Next(s: Shared, step: Step): Shared {
    match step
    case Tick(now) => if s.now <= now then s.(now := now) else s
    case AddUser(user) => if user in s.db.users then s else s.(db := s.db.(users := s.db.users[user := PlainUser]))
    case Observe(f) => if Holds(s.db, f) then s.(seen := s.seen + iset{f}) else s
    case Do(commit) =>
      if !Enabled(s, commit) then s else
      s.(db := Effect(s.db, s.now, commit).value,
         used := if commit.Establish? then s.used + {commit.id} else s.used,
         late := if IsLate(s.db, commit) then s.late + multiset{commit.c} else s.late)
  }

  ghost function Exec(s: Shared, steps: seq<Step>): Shared
    decreases |steps|
  {
    if steps == [] then s else Exec(Next(s, steps[0]), steps[1..])
  }

  // ------------------------------------------------------------------- invariant

  ghost function OwnersOf(db: Db, c: Uuid): set<Uuid> {
    set k | k in db.members && k.0 == c && db.members[k].role.Owner? :: k.1
  }

  ghost predicate OwnersInGroups(db: Db) {
    forall k <- db.members :: db.members[k].role.Owner? ==> k.0 in db.conversations && db.conversations[k.0].kind.Group?
  }

  // What was seen of a conversation that still exists has not been taken back:
  // rows stay, kinds stay.
  ghost predicate FactOk(s: Shared, f: Fact) {
    match f
    case MemberSeen(c, u, row) =>
      && c in s.used
      && (c in s.db.conversations ==>
            (c, u) in s.db.members && (row.role.Owner? ==> s.db.conversations[c].kind.Group?))
    case NoMemberSeen(_, _) => true
    case ConversationSeen(c, kind) => c in s.used && (c in s.db.conversations ==> s.db.conversations[c].kind == kind)
    case InvitationSeen(i) =>
      && i.conversation in s.used
      && (i.conversation in s.db.conversations ==> s.db.conversations[i.conversation].kind.Group?)
  }

  ghost predicate FactsOk(s: Shared) {
    forall f <- s.seen :: FactOk(s, f)
  }

  ghost predicate StoreOk(s: Shared) {
    && s.db.conversations.Keys <= s.used
    && MembersRef(s.db) && OwnersInGroups(s.db) && InvitesToGroups(s.db)
  }

  ghost predicate FewOwners(s: Shared) {
    forall c :: |OwnersOf(s.db, c)| <= 1 + s.late[c]
  }

  ghost predicate Inv(s: Shared) {
    StoreOk(s) && FactsOk(s) && GroupsAreOwned(s.db) && FewOwners(s)
  }

  lemma HandOverKeepsStoreOk(s: Shared, commit: Commit)
    requires StoreOk(s) && FactsOk(s) && Enabled(s, commit) && commit.HandOver?
    ensures StoreOk(Next(s, Do(commit)))
  {
  }

  lemma AskKeepsStoreOk(s: Shared, commit: Commit)
    requires StoreOk(s) && FactsOk(s) && Enabled(s, commit) && commit.Ask?
    ensures StoreOk(Next(s, Do(commit)))
  {
  }

  lemma CommitKeepsStoreOk(s: Shared, commit: Commit)
    requires StoreOk(s) && FactsOk(s) && Enabled(s, commit)
    ensures StoreOk(Next(s, Do(commit)))
  {
    match commit
    case HandOver(_, _, _) => HandOverKeepsStoreOk(s, commit);
    case Ask(_, _, _) => AskKeepsStoreOk(s, commit);
    case JoinNew(c, u) => AnsweredInvites(s.db, c, u);
    case _ =>
  }

  lemma AnsweredInvites(db: Db, c: Uuid, u: Uuid)
    requires InvitesToGroups(db)
    ensures InvitesToGroups(SetInvitations(db, c, u, InvitationStatus.Accepted))
  {
  }

  lemma CommitKeepsFactsOk(s: Shared, commit: Commit)
    requires StoreOk(s) && FactsOk(s) && Enabled(s, commit)
    ensures FactsOk(Next(s, Do(commit)))
  {
    var t := Next(s, Do(commit));
    forall f <- t.seen ensures FactOk(t, f) {
      assert FactOk(s, f);
    }
  }

  lemma HandOverKeepsOwned(s: Shared, commit: Commit)
    requires FactsOk(s) && Enabled(s, commit) && commit.HandOver? && GroupsAreOwned(s.db)
    ensures GroupsAreOwned(Next(s, Do(commit)).db)
  {
  }

  // Commits other than a transfer re-name nobody and take the role from nobody.
  lemma OtherCommitKeepsLog(s: Shared, commit: Commit, c: Uuid)
    requires Enabled(s, commit) && !commit.HandOver?
    requires c in s.db.conversations && c in Next(s, Do(commit)).db.conversations
    ensures OwnerOf(Next(s, Do(commit)).db.events, c) == OwnerOf(s.db.events, c)
  {
    var events := s.db.events;
    match commit
    case Establish(owner, id) => OwnerAfter(events, Event(id, GroupCreated, owner, None), c);
    case JoinNew(d, u) => OwnerAfter(events, Event(d, MemberJoined, u, None), c);
    case Quit(u, d) => OwnerAfter(events, Event(d, MemberLeft, u, Some(u)), c);
    case Expel(actor, d, target) => OwnerAfter(events, Event(d, MemberRemoved, actor, Some(target)), c);
    case Dissolve(_, d) => OwnerOfKept(events, {d}, c);
    case _ =>
  }

  lemma OtherCommitKeepsRoles(s: Shared, commit: Commit, c: Uuid)
    requires Enabled(s, commit) && !commit.HandOver?
    requires c in s.db.conversations && c in Next(s, Do(commit)).db.conversations
    ensures var db' := Next(s, Do(commit)).db;
            && (forall u: Uuid :: OwnedBy(db', c, u) <==> OwnedBy(s.db, c, u))
            && db'.conversations[c].kind == s.db.conversations[c].kind
  {
  }

  lemma CommitKeepsOwned(s: Shared, commit: Commit)
    requires StoreOk(s) && FactsOk(s) && Enabled(s, commit) && GroupsAreOwned(s.db)
    ensures GroupsAreOwned(Next(s, Do(commit)).db)
  {
    if commit.HandOver? {
      HandOverKeepsOwned(s, commit);
    } else {
      var db' := Next(s, Do(commit)).db;
      forall c <- db'.conversations | db'.conversations[c].kind.Group? ensures IsOwned(db', c) {
        if c in s.db.conversations {
          OtherCommitKeepsLog(s, commit, c);
          OtherCommitKeepsRoles(s, commit, c);
          assert IsOwned(s.db, c);
        } else {
          OwnerAfter(s.db.events, Event(commit.id, GroupCreated, commit.owner, None), c);
        }
      }
    }
  }

  // --------------------------------------------------------------- counting owners

  lemma OwnersOfMembers(db: Db, c: Uuid)
    ensures forall u: Uuid :: u in OwnersOf(db, c) <==> OwnedBy(db, c, u)
  {
  }

  lemma HandOverOwners(s: Shared, commit: Commit, c: Uuid)
    requires FactsOk(s) && Enabled(s, commit) && commit.HandOver?
    ensures OwnersOf(Next(s, Do(commit)).db, c) ==
              if c == commit.c then OwnersOf(s.db, c) - {commit.owner} + {commit.heir} else OwnersOf(s.db, c)
  {
  }

  lemma OtherCommitOwners(s: Shared, commit: Commit, c: Uuid)
    requires StoreOk(s) && Enabled(s, commit) && !commit.HandOver?
    ensures var db' := Next(s, Do(commit)).db;
            || OwnersOf(db', c) == OwnersOf(s.db, c)
            || OwnersOf(db', c) == {}
            || (commit.Establish? && OwnersOf(db', c) == {commit.owner})
  {
    var db' := Next(s, Do(commit)).db;
    OwnersOfMembers(s.db, c);
    OwnersOfMembers(db', c);
    if c in s.db.conversations && c in db'.conversations {
      OtherCommitKeepsRoles(s, commit, c);
      assert OwnersOf(db', c) == OwnersOf(s.db, c);
    } else if c in db'.conversations {
      NewGroupHasOneOwner(s, commit, c);
    } else {
      GoneHasNoOwner(s, commit, c);
    }
  }

  lemma NewGroupHasOneOwner(s: Shared, commit: Commit, c: Uuid)
    requires StoreOk(s) && Enabled(s, commit) && !commit.HandOver?
    requires c !in s.db.conversations && c in Next(s, Do(commit)).db.conversations
    ensures commit.Establish? && OwnersOf(Next(s, Do(commit)).db, c) == {commit.owner}
  {
  }

  lemma GoneHasNoOwner(s: Shared, commit: Commit, c: Uuid)
    requires StoreOk(s) && Enabled(s, commit) && !commit.HandOver?
    requires c !in Next(s, Do(commit)).db.conversations
    ensures OwnersOf(Next(s, Do(commit)).db, c) == {}
  {
  }

  lemma CommitKeepsFewOwners(s: Shared, commit: Commit)
    requires StoreOk(s) && FactsOk(s) && FewOwners(s) && Enabled(s, commit)
    ensures FewOwners(Next(s, Do(commit)))
  {
    var t := Next(s, Do(commit));
    forall c: Uuid ensures |OwnersOf(t.db, c)| <= 1 + t.late[c] {
      assert |OwnersOf(s.db, c)| <= 1 + s.late[c];
      if commit.HandOver? {
        HandOverOwners(s, commit, c);
        OwnersOfMembers(s.db, c);
      } else {
        OtherCommitOwners(s, commit, c);
      }
    }
  }

  lemma NextKeepsInv(s: Shared, step: Step)
    requires Inv(s)
    ensures Inv(Next(s, step))
  {
    var t := Next(s, step);
    match step
    case Do(commit) =>
      if Enabled(s, commit) {
        CommitKeepsStoreOk(s, commit);
        CommitKeepsFactsOk(s, commit);
        CommitKeepsOwned(s, commit);
        CommitKeepsFewOwners(s, commit);
      }
    case Observe(f) => ObserveKeepsInv(s, f);
    case AddUser(user) => AddUserKeepsInv(s, user);
    case Tick(_) => ClockKeepsInv(s, t);
  }

  lemma ClockKeepsInv(s: Shared, t: Shared)
    requires Inv(s) && t == s.(now := t.now)
    ensures Inv(t)
  {
  }

  lemma ObserveKeepsInv(s: Shared, f: Fact)
    requires Inv(s)
    ensures Inv(Next(s, Observe(f)))
  {
  }

  lemma AddUserKeepsInv(s: Shared, user: Uuid)
    requires Inv(s)
    ensures Inv(Next(s, AddUser(user)))
  {
  }

  lemma BlankIsOk()
    ensures Inv(Shared(EMPTY, 0, iset{}, {}, multiset{}))
  {
  }

  lemma {:induction false} RunKeepsInv(s: Shared, steps: seq<Step>)
    requires Inv(s)
    ensures Inv(Exec(s, steps))
    decreases |steps|
  {
    if steps != [] {
      NextKeepsInv(s, steps[0]);
      RunKeepsInv(Next(s, steps[0]), steps[1..]);
    }
  }

  // ------------------------------------------------------------------- theorems

  // Under every interleaving of reads and commits the user named by the event log
  // holds the OWNER role, so no group is ever without one; and there is at most
  // one owner more than there were late transfers.
  lemma {:induction false} NoGroupBecomesOwnerless(s: Shared, steps: seq<Step>, c: Uuid)
    requires Inv(s)
    requires var db := Exec(s, steps).db; c in db.conversations && db.conversations[c].kind.Group?
    ensures var t := Exec(s, steps);
            && OwnerOf(t.db.events, c).Some? && OwnedBy(t.db, c, OwnerOf(t.db.events, c).value)
            && 1 <= |OwnersOf(t.db, c)| <= 1 + t.late[c]
  {
    RunKeepsInv(s, steps);
    var t := Exec(s, steps);
    assert IsOwned(t.db, c);
    OwnersOfMembers(t.db, c);
    assert |OwnersOf(t.db, c)| <= 1 + t.late[c];
  }

  // A transfer leaves a sole owner sole exactly when it was not late, or repeats
  // the transfer that made it late.
  lemma SoleOwnerIff(s: Shared, commit: Commit, owner: Uuid)
    requires Inv(s) && Enabled(s, commit) && commit.HandOver? && OwnersOf(s.db, commit.c) == {owner}
    ensures |OwnersOf(Next(s, Do(commit)).db, commit.c)| == 1 <==> !IsLate(s.db, commit) || commit.heir == owner
  {
    HandOverOwners(s, commit, commit.c);
    OwnersOfMembers(s.db, commit.c);
    assert IsLate(s.db, commit) <==> commit.owner != owner;
    if IsLate(s.db, commit) && commit.heir != owner {
      assert OwnersOf(Next(s, Do(commit)).db, commit.c) == {owner, commit.heir};
    }
  }

  ghost predicate LiveOwners(db: Db, c: Uuid) {
    forall u :: OwnedBy(db, c, u) ==> db.members[(c, u)].softDeletedAt.None?
  }

  // The commit hides an owner: it soft-deletes a row that is OWNER by then, or makes
  // a row OWNER that is soft-deleted by then.
  ghost predicate HidesOwner(db: Db, commit: Commit, c: Uuid) {
    match commit
    case Quit(u, d) => d == c && OwnedBy(db, c, u)
    case Expel(_, d, target) => d == c && OwnedBy(db, c, target)
    case HandOver(_, d, heir) => d == c && (c, heir) in db.members && db.members[(c, heir)].softDeletedAt.Some?
    case _ => false
  }

  // Live owners stay live exactly when the commit is none of these three.
  lemma OwnersStayLiveIff(s: Shared, commit: Commit, c: Uuid)
    requires Inv(s) && Enabled(s, commit) && LiveOwners(s.db, c)
    ensures LiveOwners(Next(s, Do(commit)).db, c) <==> !HidesOwner(s.db, commit, c)
  {
    var db' := Next(s, Do(commit)).db;
    match commit
    case HandOver(owner, d, heir) => HandOverHides(s, owner, d, heir, c);
    case Quit(u, d) => DepartureHides(s.db, db', d, u, c);
    case Expel(_, d, target) => DepartureHides(s.db, db', d, target, c);
    case _ => OthersHideNobody(s, commit, c);
  }

  lemma HandOverHides(s: Shared, owner: Uuid, d: Uuid, heir: Uuid, c: Uuid)
    requires Inv(s) && Enabled(s, HandOver(owner, d, heir)) && LiveOwners(s.db, c)
    ensures LiveOwners(Next(s, Do(HandOver(owner, d, heir))).db, c) <==> !HidesOwner(s.db, HandOver(owner, d, heir), c)
  {
    var db' := Next(s, Do(HandOver(owner, d, heir))).db;
    var row :| MemberSeen(d, heir, row) in s.seen && row.softDeletedAt.None?;
    assert FactOk(s, MemberSeen(d, heir, row));
    if d == c {
      assert OwnedBy(db', c, heir) && db'.members[(c, heir)].softDeletedAt == s.db.members[(c, heir)].softDeletedAt;
    }
  }

  lemma DepartureHides(db: Db, db': Db, d: Uuid, u: Uuid, c: Uuid)
    requires LiveOwners(db, c) && db'.members.Keys == db.members.Keys
    requires forall k <- db.members :: db'.members[k].role == db.members[k].role
               && (k != (d, u) ==> db'.members[k] == db.members[k])
    requires (d, u) in db.members ==> db'.members[(d, u)].softDeletedAt.Some?
    ensures LiveOwners(db', c) <==> !(d == c && OwnedBy(db, c, u))
  {
    if d == c && OwnedBy(db, c, u) {
      assert OwnedBy(db', c, u);
    }
  }

  lemma OthersHideNobody(s: Shared, commit: Commit, c: Uuid)
    requires Enabled(s, commit) && !commit.HandOver? && !commit.Quit? && !commit.Expel? && LiveOwners(s.db, c)
    ensures LiveOwners(Next(s, Do(commit)).db, c)
  {
    var db' := Next(s, Do(commit)).db;
    forall u | OwnedBy(db', c, u) ensures db'.members[(c, u)].softDeletedAt.None? {
      assert OwnedBy(s.db, c, u) || (commit.Establish? && commit.id == c);
    }
  }

  // No commit of the run hides an owner of the group.
  ghost predicate NoneHidden(s: Shared, steps: seq<Step>, c: Uuid)
    decreases |steps|
  {
    steps == [] ||
      (&& (steps[0].Do? && Enabled(s, steps[0].commit) ==> !HidesOwner(s.db, steps[0].commit, c))
       && NoneHidden(Next(s, steps[0]), steps[1..], c))
  }

  // In every run without such a commit the owners are live throughout.
  lemma {:induction false} OwnersStayLive(s: Shared, steps: seq<Step>, c: Uuid)
    requires Inv(s) && LiveOwners(s.db, c) && NoneHidden(s, steps, c)
    ensures LiveOwners(Exec(s, steps).db, c)
    decreases |steps|
  {
    if steps != [] {
      NextKeepsInv(s, steps[0]);
      if steps[0].Do? && Enabled(s, steps[0].commit) {
        OwnersStayLiveIff(s, steps[0].commit, c);
      } else {
        assert Next(s, steps[0]).db.members == s.db.members;
      }
      OwnersStayLive(Next(s, steps[0]), steps[1..], c);
    }
  }

  // Three rows are read; then both commits find what they need.
  lemma AfterReading(s: Shared, f: Fact, g: Fact, h: Fact)
    requires Holds(s.db, f) && Holds(s.db, g) && Holds(s.db, h)
    ensures Next(Next(Next(s, Observe(f)), Observe(g)), Observe(h)) == s.(seen := s.seen + iset{f} + iset{g} + iset{h})
  {
  }

  lemma HandOverHappens(s: Shared, c: Uuid, a: Uuid, b: Uuid)
    requires c in s.db.conversations && a != b && SawLiveOwner(s.seen, c, a) && SawLive(s.seen, c, b)
    ensures Next(s, Do(HandOver(a, c, b))).db == TransferCommit(s.db, a, c, b).value
    ensures Next(s, Do(HandOver(a, c, b))).seen == s.seen
  {
  }

  lemma QuitHappens(s: Shared, c: Uuid, b: Uuid)
    requires c in s.db.conversations && SawPlain(s.seen, c, b)
    ensures Next(s, Do(Quit(b, c))).db == DepartCommit(s.db, c, b, b, MemberLeft, s.now).value
  {
  }

  lemma Five(s: Shared, p: Step, q: Step, r: Step, t: Step, u: Step)
    ensures Exec(s, [p, q, r, t, u]) == Next(Next(Next(Next(Next(s, p), q), r), t), u)
  {
    ExecFirst(s, p, [q, r, t, u]);
    var s1 := Next(s, p);
    ExecFirst(s1, q, [r, t, u]);
    var s2 := Next(s1, q);
    ExecFirst(s2, r, [t, u]);
    var s3 := Next(s2, r);
    ExecFirst(s3, t, [u]);
    ExecFirst(Next(s3, t), u, []);
    assert [p] + [q, r, t, u] == [p, q, r, t, u] && [q] + [r, t, u] == [q, r, t, u];
    assert [r] + [t, u] == [r, t, u] && [t] + [u] == [t, u] && [u] + [] == [u];
  }

  lemma ExecFirst(s: Shared, p: Step, rest: seq<Step>)
    ensures Exec(s, [p] + rest) == Exec(Next(s, p), rest)
    ensures Exec(s, []) == s
  {
  }

  ghost predicate LiveMember(db: Db, c: Uuid, u: Uuid, role: Role) {
    (c, u) in db.members && db.members[(c, u)].role == role && db.members[(c, u)].softDeletedAt.None?
  }

  // From every state in which a group has a live owner and two other live members,
  // two overlapping transfers lead to two OWNER rows.
  lemma TwoOwnersAreReachable(s: Shared, c: Uuid, a: Uuid, b: Uuid, d: Uuid) returns (steps: seq<Step>)
    requires c in s.db.conversations && a != b && b != d && a != d
    requires LiveMember(s.db, c, a, Owner) && LiveMember(s.db, c, b, Member) && LiveMember(s.db, c, d, Member)
    ensures OwnedBy(Exec(s, steps).db, c, b) && OwnedBy(Exec(s, steps).db, c, d)
  {
    var fa, fb := MemberSeen(c, a, s.db.members[(c, a)]), MemberSeen(c, b, s.db.members[(c, b)]);
    var fd := MemberSeen(c, d, s.db.members[(c, d)]);
    AfterReading(s, fa, fb, fd);
    var s1 := s.(seen := s.seen + iset{fa} + iset{fb} + iset{fd});
    assert fa in s1.seen && fb in s1.seen && fd in s1.seen;
    HandOverHappens(s1, c, a, b);
    var s2 := Next(s1, Do(HandOver(a, c, b)));
    HandOverHappens(s2, c, a, d);
    steps := [Observe(fa), Observe(fb), Observe(fd), Do(HandOver(a, c, b)), Do(HandOver(a, c, d))];
    Five(s, Observe(fa), Observe(fb), Observe(fd), Do(HandOver(a, c, b)), Do(HandOver(a, c, d)));
  }

  // A member may leave on a guard read before being made owner: the group is then
  // owned, as ever, but by a soft-deleted row.
  lemma OwnerMayHaveLeft(s: Shared, c: Uuid, a: Uuid, b: Uuid) returns (steps: seq<Step>)
    requires c in s.db.conversations && a != b && LiveMember(s.db, c, a, Owner) && LiveMember(s.db, c, b, Member)
    ensures var db := Exec(s, steps).db;
            OwnerOf(db.events, c) == Some(b) && OwnedBy(db, c, b) && db.members[(c, b)].softDeletedAt.Some?
  {
    var fa, fb := MemberSeen(c, a, s.db.members[(c, a)]), MemberSeen(c, b, s.db.members[(c, b)]);
    AfterReading(s, fa, fb, fb);
    var s1 := s.(seen := s.seen + iset{fa} + iset{fb} + iset{fb});
    assert fa in s1.seen && fb in s1.seen;
    HandOverHappens(s1, c, a, b);
    var s2 := Next(s1, Do(HandOver(a, c, b)));
    QuitHappens(s2, c, b);
    OwnerAfter(s1.db.events, Event(c, OwnershipTransferred, a, Some(b)), c);
    OwnerAfter(s2.db.events, Event(c, MemberLeft, b, Some(b)), c);
    steps := [Observe(fa), Observe(fb), Observe(fb), Do(HandOver(a, c, b)), Do(Quit(b, c))];
    Five(s, Observe(fa), Observe(fb), Observe(fb), Do(HandOver(a, c, b)), Do(Quit(b, c)));
  }

  // The other way round: the heir leaves between the guard of a transfer and its
  // commit, and is made owner all the same.
  lemma HeirMayHaveLeft(s: Shared, c: Uuid, a: Uuid, b: Uuid) returns (steps: seq<Step>)
    requires c in s.db.conversations && a != b && LiveMember(s.db, c, a, Owner) && LiveMember(s.db, c, b, Member)
    ensures var db := Exec(s, steps).db;
            OwnerOf(db.events, c) == Some(b) && OwnedBy(db, c, b) && db.members[(c, b)].softDeletedAt.Some?
  {
    var fa, fb := MemberSeen(c, a, s.db.members[(c, a)]), MemberSeen(c, b, s.db.members[(c, b)]);
    AfterReading(s, fa, fb, fb);
    var s1 := s.(seen := s.seen + iset{fa} + iset{fb} + iset{fb});
    assert fa in s1.seen && fb in s1.seen;
    QuitHappens(s1, c, b);
    var s2 := Next(s1, Do(Quit(b, c)));
    assert s2.seen == s1.seen;
    HandOverHappens(s2, c, a, b);
    OwnerAfter(s2.db.events, Event(c, OwnershipTransferred, a, Some(b)), c);
    steps := [Observe(fa), Observe(fb), Observe(fb), Do(Quit(b, c)), Do(HandOver(a, c, b))];
    Five(s, Observe(fa), Observe(fb), Observe(fb), Do(Quit(b, c)), Do(HandOver(a, c, b)));
  }
}
