/**
 * Private conversations that nobody can see any more: which steps leave one behind,
 * and what is left of it.
 */
module LiveMembers {
  import opened Prelude
  import opened Store
  import opened PrivateKeys
  import opened Groups
  import opened Messaging
  import opened Integrity
  import opened Bookkeeping
  import opened Memberships
  import opened SerialRuns

  predicate IsPrivate(db: Db, c: Uuid) {
    c in db.conversations && db.conversations[c].kind.Private?
  }

  ghost predicate HasLive(db: Db, c: Uuid) {
    exists u :: IsLive(db, c, u)
  }

  ghost predicate HasOtherLive(db: Db, c: Uuid, u: Uuid) {
    exists v :: v != u && IsLive(db, c, v)
  }

  ghost predicate PrivatesAreLive(db: Db) {
    forall c <- db.conversations :: IsPrivate(db, c) ==> HasLive(db, c)
  }

  // ------------------------------------------------------- leaving a private conversation

  // leaveGroup takes a private conversation too. Then the conversation stays, and has
  // a live member if and only if somebody else was live.
  lemma LeftPrivateIsLiveIff(db: Db, u: Uuid, c: Uuid, now: Time)
    requires IsPrivate(db, c) && LeaveGuard(db, u, c).None?
    ensures var r := Leave(db, u, c, now);
            && r.refusal.None? && IsPrivate(r.db, c) && !IsLive(r.db, c, u)
            && (HasLive(r.db, c) <==> HasOtherLive(db, c, u))
  {
    var db' := Leave(db, u, c, now).db;
    forall v ensures IsLive(db', c, v) <==> v != u && IsLive(db, c, v) {
    }
  }

  // Where nobody is live the conversation cannot be deleted by anybody.
  lemma AbandonedCannotBeDeleted(db: Db, c: Uuid, u: Uuid, now: Time)
    requires IsPrivate(db, c) && !HasLive(db, c)
    ensures DeletePrivate(db, u, c, now).refusal.Some? && DeletePrivate(db, u, c, now).db == db
  {
    assert !IsLive(db, c, u);
  }

  // ------------------------------------------------------------------ which steps abandon

  // The steps that leave a private conversation without a live member, told from the
  // rows they find: the last live member leaves it, or is deleted while the other
  // member's row is there, hidden.
  ghost predicate Abandons(db: Db, step: Step) {
    match step
    case Part(DoLeave(u, c)) => IsPrivate(db, c) && LeaveGuard(db, u, c).None? && !HasOtherLive(db, c, u)
    case Maintain(DoDeleteUser(u)) => exists c <- db.conversations :: IsLeftBehind(db, c, u)
    case _ => false
  }

  ghost predicate IsLeftBehind(db: Db, c: Uuid, u: Uuid) {
    IsPrivate(db, c) && !HasOtherLive(db, c, u) && exists v :: v != u && (c, v) in db.members
  }

  // c was there, and whoever was live in it still is.
  ghost predicate Carries(db: Db, db': Db, c: Uuid) {
    IsPrivate(db, c) && forall u :: IsLive(db, c, u) ==> IsLive(db', c, u)
  }

  ghost predicate KeepsLive(db: Db, db': Db) {
    PrivatesAreLive(db) ==> PrivatesAreLive(db')
  }

  lemma CarriedIsLive(db: Db, db': Db)
    requires forall c <- db'.conversations :: IsPrivate(db', c) ==> Carries(db, db', c) || HasLive(db', c)
    ensures KeepsLive(db, db')
  {
    if PrivatesAreLive(db) {
      forall c <- db'.conversations | IsPrivate(db', c) ensures HasLive(db', c) {
        if Carries(db, db', c) {
          var u :| IsLive(db, c, u);
          assert IsLive(db', c, u);
        }
      }
    }
  }

  // -------------------------------------------------------------------- arriving

  lemma CreatedKeepsLive(db: Db, creator: Uuid, other: Uuid, id: Uuid)
    requires MembersRef(db) && KeysUnique(db) && GetOrCreatePrivate(db, creator, [other], id).Created?
    ensures KeepsLive(db, GetOrCreatePrivate(db, creator, [other], id).db)
  {
    var db' := GetOrCreatePrivate(db, creator, [other], id).db;
    NewPrivateMembers(db, creator, other, id);
    assert (id, creator) !in db.members && IsLive(db', id, creator);
    CarriedIsLive(db, db');
  }

  lemma OpenKeepsLive(db: Db, creator: Uuid, other: Uuid, id: Uuid)
    requires MembersRef(db) && KeysUnique(db)
    ensures KeepsLive(db, ApplyJoining(db, 0, DoOpen(creator, other, id)))
  {
    OpenIsCreate(db, creator, other, id);
    if OpenPrivate(db, PairKey(creator, other), NormalizeMembers(creator, [other]), id).Some? {
      CreatedKeepsLive(db, creator, other, id);
    }
  }

  lemma CreateGroupKeepsLive(db: Db, owner: Uuid, id: Uuid)
    ensures KeepsLive(db, CreateGroup(db, owner, id).db)
  {
    CarriedIsLive(db, CreateGroup(db, owner, id).db);
  }

  lemma AcceptKeepsLive(db: Db, c: Uuid, u: Uuid, now: Time, which: nat)
    ensures KeepsLive(db, Accept(db, c, u, now, which).db)
  {
    CarriedIsLive(db, Accept(db, c, u, now, which).db);
  }

  lemma JoiningKeepsLive(db: Db, now: Time, step: Joining)
    requires MembersRef(db) && KeysUnique(db)
    ensures KeepsLive(db, ApplyJoining(db, now, step))
  {
    match step
    case DoCreateGroup(owner, id) => CreateGroupKeepsLive(db, owner, id);
    case DoOpen(creator, other, id) => OpenKeepsLive(db, creator, other, id);
    case DoInvite(actor, c, target) => CarriedIsLive(db, ApplyJoining(db, now, step));
    case DoAccept(c, u, which) => AcceptKeepsLive(db, c, u, now, which);
    case DoReject(c, u, which) => CarriedIsLive(db, ApplyJoining(db, now, step));
  }

  // --------------------------------------------------------------------- sending

  lemma StoreReadKeepsLive(db: Db, r: Reading, uploads: seq<Uuid>, id: Uuid, now: Time)
    ensures KeepsLive(db, StoreRead(db, r, uploads, id, now).db)
  {
    var reply := StoreRead(db, r, uploads, id, now);
    if reply.error.None? {
      RowsAfterMessage(db, r, uploads, id, now);
      SameConversations(db, r, uploads, id, now);
      CarriedIsLive(db, reply.db);
    }
  }

  lemma SameConversations(db: Db, r: Reading, uploads: seq<Uuid>, id: Uuid, now: Time)
    requires StoreRead(db, r, uploads, id, now).error.None?
    ensures var db' := StoreRead(db, r, uploads, id, now).db;
            forall c :: IsPrivate(db', c) <==> IsPrivate(db, c)
  {
    RestoredRows(db, r, now);
    CommitIsAttach(Restored(db, r, now), r.c, r.sender, r.snapshot, uploads, id, now);
  }

  lemma SendPrivateKeepsLive(db: Db, sender: Uuid, receiver: Uuid, uploads: seq<Uuid>, newId: Uuid, id: Uuid, now: Time)
    requires MembersRef(db) && KeysUnique(db)
    ensures KeepsLive(db, SendPrivate(db, sender, receiver, uploads, newId, id, now).db)
  {
    match GetOrCreatePrivate(db, sender, [receiver], newId)
    case Denied(_) =>
    case Found(c) => StoreReadKeepsLive(db, ReadPrivate(db, c, sender, receiver), uploads, id, now);
    case Created(c, db') =>
      CreatedKeepsLive(db, sender, receiver, newId);
      StoreReadKeepsLive(db', ReadPrivate(db', c, sender, receiver), uploads, id, now);
  }

  lemma SendingKeepsLive(db: Db, now: Time, step: Sending)
    requires MembersRef(db) && KeysUnique(db)
    ensures KeepsLive(db, ApplySending(db, now, step).db)
  {
    match step
    case ToGroup(sender, c, uploads, id) => StoreReadKeepsLive(db, ReadGroup(db, sender, c), uploads, id, now);
    case ToUser(sender, receiver, uploads, newId, id) =>
      SendPrivateKeepsLive(db, sender, receiver, uploads, newId, id, now);
    case Store(r, uploads, id) => StoreReadKeepsLive(db, r, uploads, id, now);
  }

  // -------------------------------------------------------------------- departing

  lemma DeletePrivateKeepsLive(db: Db, u: Uuid, c: Uuid, now: Time)
    ensures KeepsLive(db, DeletePrivate(db, u, c, now).db)
  {
    var hidden := SoftDelete(db, c, u, now);
    var db' := DeletePrivate(db, u, c, now).db;
    if DeletePrivate(db, u, c, now).refusal.None? && SomeoneRemains(hidden, c) {
      var k :| k in hidden.members && k.0 == c && hidden.members[k].softDeletedAt.None?;
      assert IsLive(db', c, k.1);
    }
    CarriedIsLive(db, db');
  }

  lemma TransferKeepsLive(db: Db, owner: Uuid, c: Uuid, heir: Uuid)
    ensures KeepsLive(db, Transfer(db, owner, c, heir).db)
  {
    CarriedIsLive(db, Transfer(db, owner, c, heir).db);
  }

  lemma RemoveKeepsLive(db: Db, actor: Uuid, c: Uuid, target: Uuid, now: Time)
    ensures KeepsLive(db, Remove(db, actor, c, target, now).db)
  {
    CarriedIsLive(db, Remove(db, actor, c, target, now).db);
  }

  lemma DropConversationsKeepsLive(db: Db, gone: set<Uuid>)
    ensures KeepsLive(db, DropConversations(db, gone))
  {
    CarriedIsLive(db, DropConversations(db, gone));
  }

  lemma LeaveKeepsLiveIff(db: Db, u: Uuid, c: Uuid, now: Time)
    requires MembersRef(db) && PrivatesAreLive(db)
    ensures PrivatesAreLive(Leave(db, u, c, now).db)
            <==> !(IsPrivate(db, c) && LeaveGuard(db, u, c).None? && !HasOtherLive(db, c, u))
  {
    var db' := Leave(db, u, c, now).db;
    if IsPrivate(db, c) && LeaveGuard(db, u, c).None? {
      LeftPrivateIsLiveIff(db, u, c, now);
    }
    forall d <- db'.conversations | IsPrivate(db', d) && d != c ensures HasLive(db', d) {
      var v :| IsLive(db, d, v);
      assert IsLive(db', d, v);
    }
  }

  lemma PartingKeepsLiveIff(db: Db, now: Time, step: Parting)
    requires MembersRef(db) && PrivatesAreLive(db)
    ensures PrivatesAreLive(ApplyParting(db, now, step)) <==> !Abandons(db, Part(step))
  {
    match step
    case DoLeave(u, c) => LeaveKeepsLiveIff(db, u, c, now);
    case DoTransfer(owner, c, heir) => TransferKeepsLive(db, owner, c, heir);
    case DoRemove(actor, c, target) => RemoveKeepsLive(db, actor, c, target, now);
    case DoDeleteGroup(u, c) => DropConversationsKeepsLive(db, {c});
    case DoDeletePrivate(u, c) => DeletePrivateKeepsLive(db, u, c, now);
  }

  // ------------------------------------------------------------------------ the rest

  lemma ReceiptKeepsLive(db: Db, step: Receipt)
    ensures KeepsLive(db, ApplyReceipt(db, step))
  {
    CarriedIsLive(db, ApplyReceipt(db, step));
  }

  // The rows deleteUser leaves.
  lemma AfterDeleteUser(db: Db, u: Uuid, c: Uuid)
    requires MembersRef(db) && Populated(db)
    ensures var db' := DeleteUser(db, u);
            && (IsPrivate(db', c) <==> IsPrivate(db, c) && exists v :: v != u && (c, v) in db.members)
            && (IsPrivate(db', c) ==> forall v :: IsLive(db', c, v) <==> v != u && IsLive(db, c, v))
  {
    if c in db.conversations {
      var v :| (c, v) in db.members;
      assert c in Orphaned(db, u) <==> forall k <- db.members :: k.0 == c ==> k.1 == u;
      if c !in Orphaned(db, u) {
        if (c, u) in db.members {
          var k :| k in db.members && k.0 == c && k.1 != u;
          assert (c, k.1) in db.members;
        }
      }
    }
  }

  lemma DeleteUserKeepsLiveIff(db: Db, u: Uuid)
    requires MembersRef(db) && Populated(db)
    ensures PrivatesAreLive(DeleteUser(db, u)) <==> !exists c <- db.conversations :: IsLeftBehind(db, c, u)
  {
    var db' := DeleteUser(db, u);
    forall c ensures IsPrivate(db', c) && !HasLive(db', c) <==> IsLeftBehind(db, c, u) {
      AfterDeleteUser(db, u, c);
    }
    if c :| c in db.conversations && IsLeftBehind(db, c, u) {
      assert IsPrivate(db', c) && !HasLive(db', c);
    }
  }

  lemma UpkeepKeepsLiveIff(db: Db, now: Time, step: Upkeep)
    requires MembersRef(db) && Populated(db) && PrivatesAreLive(db)
    ensures PrivatesAreLive(ApplyUpkeep(db, now, step)) <==> !Abandons(db, Maintain(step))
  {
    match step
    case DoDeleteUser(u) => DeleteUserKeepsLiveIff(db, u);
    case _ => CarriedIsLive(db, ApplyUpkeep(db, now, step));
  }

  // Leaving and the deletion of a user, under the condition named, are what abandons
  // a private conversation, and nothing else is.
  lemma StepKeepsLiveIff(db: Db, now: Time, step: Step)
    requires MembersRef(db) && KeysUnique(db) && Populated(db) && PrivatesAreLive(db)
    ensures PrivatesAreLive(Apply(db, now, step)) <==> !Abandons(db, step)
  {
    match step
    case Tick(_) =>
    case Read(_) =>
    case Join(j) => JoiningKeepsLive(db, now, j);
    case Part(p) => PartingKeepsLiveIff(db, now, p);
    case Send(m) => SendingKeepsLive(db, now, m);
    case Receive(r) => ReceiptKeepsLive(db, r);
    case Maintain(u) => UpkeepKeepsLiveIff(db, now, u);
  }

  // ---------------------------------------------------------------------- every run

  ghost predicate NeverAbandons(w: World, steps: seq<Step>)
    requires WorldOk(w)
    decreases |steps|
  {
    steps == [] ||
      (NextKeepsWorldOk(w, steps[0]);
       !Abandons(w.db, steps[0]) && NeverAbandons(Next(w, steps[0]), steps[1..]))
  }

  ghost predicate AlwaysLive(w: World, steps: seq<Step>)
    requires WorldOk(w)
    decreases |steps|
  {
    PrivatesAreLive(w.db) &&
      (steps == [] ||
         (NextKeepsWorldOk(w, steps[0]);
          AlwaysLive(Next(w, steps[0]), steps[1..])))
  }

  // In a run every private conversation has a live member throughout if and only if
  // no step abandons one.
  lemma {:induction false} AlwaysLiveIff(w: World, steps: seq<Step>)
    requires WorldOk(w) && PrivatesAreLive(w.db)
    ensures AlwaysLive(w, steps) <==> NeverAbandons(w, steps)
    decreases |steps|
  {
    if steps != [] {
      NextKeepsWorldOk(w, steps[0]);
      NextKeepsLiveIff(w, steps[0]);
      if !Abandons(w.db, steps[0]) {
        AlwaysLiveIff(Next(w, steps[0]), steps[1..]);
      }
    }
  }

  lemma NextKeepsLiveIff(w: World, step: Step)
    requires WorldOk(w) && PrivatesAreLive(w.db)
    ensures PrivatesAreLive(Next(w, step).db) <==> !Abandons(w.db, step)
  {
    StepKeepsLiveIff(w.db, w.now, step);
  }
}
