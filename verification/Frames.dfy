/**
 * What a step leaves alone: everything that belongs to a conversation the step is
 * not about, and the pending uploads of everybody but the user who acts.
 */
module Frames {
  import opened Prelude
  import opened Tables
  import opened Store
  import opened PrivateKeys
  import opened Groups
  import opened Messaging
  import opened Integrity
  import opened Bookkeeping
  import opened SerialRuns

  function ByConversation(c: Uuid): Event -> bool {
    (e: Event) => e.conversation == c
  }

  function Inviting(c: Uuid): Invitation -> bool {
    (i: Invitation) => i.conversation == c
  }

  function Delivering(messages: set<Uuid>): Delivery -> bool {
    (d: Delivery) => d.message in messages
  }

  function AttachedTo(messages: set<Uuid>): Attachment -> bool {
    (a: Attachment) => a.message in messages
  }

  // Everything the store holds of one conversation.
  datatype Dossier = Dossier(
    row: Option<Conversation>,
    members: map<(Uuid, Uuid), Membership>,
    log: seq<Event>,
    invitations: seq<Invitation>,
    messages: map<Uuid, Message>,
    deliveries: seq<Delivery>,
    attachments: seq<Attachment>)

  function MembersOf(db: Db, c: Uuid): map<(Uuid, Uuid), Membership> {
    map k | k in db.members && k.0 == c :: db.members[k]
  }

  function MessagesOf(db: Db, c: Uuid): map<Uuid, Message> {
    map m | m in db.messages && db.messages[m].conversation == c :: db.messages[m]
  }

  function Of(db: Db, c: Uuid): Dossier {
    Dossier(
      if c in db.conversations then Some(db.conversations[c]) else None,
      MembersOf(db, c), Keep(db.events, ByConversation(c)), Keep(db.invitations, Inviting(c)), MessagesOf(db, c),
      Keep(db.deliveries, Delivering(MessagesOf(db, c).Keys)),
      Keep(db.attachments, AttachedTo(MessagesOf(db, c).Keys)))
  }

  // ------------------------------------------------------------- what a step is about

  predicate IsAbout(db: Db, step: Step, c: Uuid) {
    match step
    case Tick(_) => false
    case Read(_) => false
    case Join(j) => JoiningIsAbout(j, c)
    case Part(p) => PartingIsAbout(p, c)
    case Send(ToGroup(_, d, _, _)) => d == c
    case Send(ToUser(sender, receiver, _, newId, _)) => newId == c || HasKey(db, c, PairKey(sender, receiver))
    case Send(Store(r, _, _)) => r.c == c
    case Receive(r) => ReceiptIsAbout(db, r, c)
    case Maintain(u) => UpkeepIsAbout(db, u, c)
  }

  predicate JoiningIsAbout(step: Joining, c: Uuid) {
    match step
    case DoCreateGroup(_, id) => id == c
    case DoOpen(_, _, id) => id == c
    case DoInvite(_, d, _) => d == c
    case DoAccept(d, _, _) => d == c
    case DoReject(d, _, _) => d == c
  }

  predicate PartingIsAbout(step: Parting, c: Uuid) {
    match step
    case DoLeave(_, d) => d == c
    case DoTransfer(_, d, _) => d == c
    case DoRemove(_, d, _) => d == c
    case DoDeleteGroup(_, d) => d == c
    case DoDeletePrivate(_, d) => d == c
  }

  predicate IsIn(db: Db, message: Uuid, c: Uuid) {
    message in db.messages && db.messages[message].conversation == c
  }

  // A receipt names a conversation and a message, which need not belong together.
  predicate ReceiptIsAbout(db: Db, step: Receipt, c: Uuid) {
    match step
    case DoConfirm(_, d, message, _) => d == c || IsIn(db, message, c)
    case DoResetUnread(d, _) => d == c
    case DoSync(u) => exists m <- PendingFor(db, u) :: IsIn(db, m, c)
    case DoMark(_, ids) => exists m <- ids :: IsIn(db, m, c)
  }

  // A user who is deleted leaves traces where the user is a member, is invited or
  // invites, or has sent a message.
  predicate UpkeepIsAbout(db: Db, step: Upkeep, c: Uuid) {
    match step
    case AddUser(_, _) => false
    case DoPrepare(_, _) => false
    case PutFile(_) => false
    case DoDeleteMessages(d, _) => d == c
    case DoDeleteUser(u) =>
      || (c, u) in db.members
      || (exists i <- db.invitations :: i.conversation == c && (i.actor == u || i.target == u))
      || (exists m <- db.messages :: IsIn(db, m, c) && db.messages[m].sender == Some(u))
  }

  // ------------------------------------------------------------------ one table each

  lemma MembersElsewhere(db: Db, db': Db, c: Uuid)
    requires db' == db.(members := db'.members)
    requires forall u :: ((c, u) in db'.members <==> (c, u) in db.members)
                         && ((c, u) in db.members ==> db'.members[(c, u)] == db.members[(c, u)])
    ensures Of(db', c) == Of(db, c)
  {
    assert MembersOf(db', c) == MembersOf(db, c) by {
      forall k ensures k in MembersOf(db', c) <==> k in MembersOf(db, c) {
        assert k.0 == c ==> k == (c, k.1);
      }
      forall k <- MembersOf(db, c) ensures MembersOf(db', c)[k] == MembersOf(db, c)[k] {
        assert k == (c, k.1);
      }
    }
    assert MessagesOf(db', c) == MessagesOf(db, c);
  }

  lemma ConversationsElsewhere(db: Db, db': Db, c: Uuid)
    requires db' == db.(conversations := db'.conversations)
    requires c in db'.conversations <==> c in db.conversations
    requires c in db.conversations ==> db'.conversations[c] == db.conversations[c]
    ensures Of(db', c) == Of(db, c)
  {
    assert MembersOf(db', c) == MembersOf(db, c);
    assert MessagesOf(db', c) == MessagesOf(db, c);
  }

  lemma LogElsewhere(db: Db, e: Event, c: Uuid)
    requires e.conversation != c
    ensures Of(Log(db, e), c) == Of(db, c)
  {
    KeepSum(db.events, [e], ByConversation(c));
    assert MembersOf(Log(db, e), c) == MembersOf(db, c);
    assert MessagesOf(Log(db, e), c) == MessagesOf(db, c);
  }

  lemma InvitationsElsewhere(db: Db, db': Db, c: Uuid)
    requires db' == db.(invitations := db'.invitations)
    requires Keep(db'.invitations, Inviting(c)) == Keep(db.invitations, Inviting(c))
    ensures Of(db', c) == Of(db, c)
  {
    assert MembersOf(db', c) == MembersOf(db, c);
    assert MessagesOf(db', c) == MessagesOf(db, c);
  }

  lemma AnswerElsewhere(db: Db, d: Uuid, u: Uuid, status: InvitationStatus, c: Uuid)
    requires d != c
    ensures Of(SetInvitations(db, d, u, status), c) == Of(db, c)
  {
    var f := (i: Invitation) => if i.conversation == d && i.target == u then i.(status := status) else i;
    KeepMap(db.invitations, f, Inviting(c));
    assert SetInvitations(db, d, u, status).invitations == Map(db.invitations, f);
    InvitationsElsewhere(db, SetInvitations(db, d, u, status), c);
  }

  lemma DeliveriesElsewhere(db: Db, db': Db, c: Uuid)
    requires db' == db.(deliveries := db'.deliveries)
    requires var p := Delivering(MessagesOf(db, c).Keys); Keep(db'.deliveries, p) == Keep(db.deliveries, p)
    ensures Of(db', c) == Of(db, c)
  {
    assert MembersOf(db', c) == MembersOf(db, c);
    assert MessagesOf(db', c) == MessagesOf(db, c);
  }

  // ------------------------------------------------------------------------ joining

  lemma CreateGroupElsewhere(db: Db, owner: Uuid, id: Uuid, c: Uuid)
    requires id != c
    ensures Of(CreateGroup(db, owner, id).db, c) == Of(db, c)
  {
    var row := Conversation(Group, None, None);
    var one := db.(conversations := db.conversations[id := row]);
    var two := one.(members := one.members[(id, owner) := NewMember(Owner)]);
    ConversationsElsewhere(db, one, c);
    MembersElsewhere(one, two, c);
    LogElsewhere(two, Event(id, GroupCreated, owner, None), c);
  }

  lemma OpenElsewhere(db: Db, key: Digest, unique: seq<Uuid>, id: Uuid, c: Uuid)
    requires id != c && OpenPrivate(db, key, unique, id).Some?
    ensures Of(OpenPrivate(db, key, unique, id).value, c) == Of(db, c)
  {
    var one := db.(conversations := db.conversations[id := Conversation(Private, Some(key), None)]);
    ConversationsElsewhere(db, one, c);
    MembersElsewhere(one, one.(members := one.members + NewRows(id, unique, Member)), c);
  }

  lemma InviteElsewhere(db: Db, actor: Uuid, d: Uuid, target: Uuid, now: Time, c: Uuid)
    requires d != c
    ensures Of(Invite(db, actor, d, target, now).db, c) == Of(db, c)
  {
    var row := Invitation(d, actor, target, Pending, now + INVITATION_LIFETIME);
    KeepSum(db.invitations, [row], Inviting(c));
    InvitationsElsewhere(db, db.(invitations := db.invitations + [row]), c);
  }

  lemma JoinElsewhere(db: Db, d: Uuid, u: Uuid, c: Uuid)
    requires d != c && JoinCommit(db, d, u).Some?
    ensures Of(JoinCommit(db, d, u).value, c) == Of(db, c)
  {
    var one := SetInvitations(db, d, u, InvitationStatus.Accepted);
    var two := Log(one, Event(d, MemberJoined, u, None));
    AnswerElsewhere(db, d, u, InvitationStatus.Accepted, c);
    LogElsewhere(one, Event(d, MemberJoined, u, None), c);
    MembersElsewhere(two, JoinCommit(db, d, u).value, c);
  }

  lemma AcceptElsewhere(db: Db, d: Uuid, u: Uuid, now: Time, which: nat, c: Uuid)
    requires d != c && InvitesToGroups(db)
    ensures Of(Accept(db, d, u, now, which).db, c) == Of(db, c)
  {
    var r := Accept(db, d, u, now, which).db;
    AcceptOutcomes(db, d, u, now, which);
    AnswerElsewhere(db, d, u, InvitationStatus.Accepted, c);
    MembersElsewhere(db, Restore(db, d, u, now), c);
    if JoinCommit(db, d, u).Some? {
      JoinElsewhere(db, d, u, c);
    }
  }

  lemma RejectElsewhere(db: Db, d: Uuid, u: Uuid, now: Time, which: nat, c: Uuid)
    requires d != c
    ensures Of(Reject(db, d, u, now, which).db, c) == Of(db, c)
  {
    RejectOutcomes(db, d, u, now, which);
    AnswerElsewhere(db, d, u, InvitationStatus.Accepted, c);
    AnswerElsewhere(db, d, u, InvitationStatus.Rejected, c);
  }

  lemma JoiningElsewhere(db: Db, now: Time, step: Joining, c: Uuid)
    requires InvitesToGroups(db) && !JoiningIsAbout(step, c)
    ensures Of(ApplyJoining(db, now, step), c) == Of(db, c)
  {
    match step
    case DoCreateGroup(owner, id) => CreateGroupElsewhere(db, owner, id, c);
    case DoOpen(creator, other, id) =>
      if OpenPrivate(db, PairKey(creator, other), NormalizeMembers(creator, [other]), id).Some? {
        OpenElsewhere(db, PairKey(creator, other), NormalizeMembers(creator, [other]), id, c);
      }
    case DoInvite(actor, d, target) => InviteElsewhere(db, actor, d, target, now, c);
    case DoAccept(d, u, which) => AcceptElsewhere(db, d, u, now, which, c);
    case DoReject(d, u, which) => RejectElsewhere(db, d, u, now, which, c);
  }

  // ---------------------------------------------------------------------- departing

  lemma DepartElsewhere(db: Db, d: Uuid, actor: Uuid, target: Uuid, kind: EventKind, now: Time, c: Uuid)
    requires d != c && DepartCommit(db, d, actor, target, kind, now).Some?
    ensures Of(DepartCommit(db, d, actor, target, kind, now).value, c) == Of(db, c)
  {
    MembersElsewhere(db, SoftDelete(db, d, target, now), c);
    LogElsewhere(SoftDelete(db, d, target, now), Event(d, kind, actor, Some(target)), c);
  }

  lemma LeaveElsewhere(db: Db, u: Uuid, d: Uuid, now: Time, c: Uuid)
    requires d != c
    ensures Of(Leave(db, u, d, now).db, c) == Of(db, c)
  {
    if DepartCommit(db, d, u, u, MemberLeft, now).Some? {
      DepartElsewhere(db, d, u, u, MemberLeft, now, c);
    }
  }

  lemma RemoveElsewhere(db: Db, actor: Uuid, d: Uuid, target: Uuid, now: Time, c: Uuid)
    requires d != c
    ensures Of(Remove(db, actor, d, target, now).db, c) == Of(db, c)
  {
    if DepartCommit(db, d, actor, target, MemberRemoved, now).Some? {
      DepartElsewhere(db, d, actor, target, MemberRemoved, now, c);
    }
  }

  lemma TransferElsewhere(db: Db, owner: Uuid, d: Uuid, heir: Uuid, c: Uuid)
    requires d != c
    ensures Of(Transfer(db, owner, d, heir).db, c) == Of(db, c)
  {
    var one := SetRole(db, d, owner, Member);
    var two := SetRole(one, d, heir, Owner);
    MembersElsewhere(db, one, c);
    MembersElsewhere(one, two, c);
    LogElsewhere(two, Event(d, OwnershipTransferred, owner, Some(heir)), c);
  }

  lemma DropMessagesElsewhere(db: Db, gone: set<Uuid>, c: Uuid)
    requires LastMessageOk(db) && forall m <- gone :: !IsIn(db, m, c)
    ensures Of(DropMessages(db, gone), c) == Of(db, c)
  {
    var db' := DropMessages(db, gone);
    assert MembersOf(db', c) == MembersOf(db, c);
    assert MessagesOf(db', c) == MessagesOf(db, c);
    KeepKeep(db.deliveries, (d: Delivery) => d.message !in gone, Delivering(MessagesOf(db, c).Keys));
    KeepKeep(db.attachments, (a: Attachment) => a.message !in gone, AttachedTo(MessagesOf(db, c).Keys));
  }

  lemma DropConversationsElsewhere(db: Db, gone: set<Uuid>, c: Uuid)
    requires LastMessageOk(db) && c !in gone
    ensures Of(DropConversations(db, gone), c) == Of(db, c)
  {
    var one := DropMessages(db, MessagesIn(db, gone));
    var db' := DropConversations(db, gone);
    DropMessagesElsewhere(db, MessagesIn(db, gone), c);
    assert MembersOf(db', c) == MembersOf(db, c);
    assert MessagesOf(db', c) == MessagesOf(one, c);
    KeepKeep(db.events, (e: Event) => e.conversation !in gone, ByConversation(c));
    KeepKeep(db.invitations, (i: Invitation) => i.conversation !in gone, Inviting(c));
  }

  lemma DeletePrivateOutcomes(db: Db, u: Uuid, d: Uuid, now: Time)
    ensures var db', hidden := DeletePrivate(db, u, d, now).db, SoftDelete(db, d, u, now);
            db' == db || db' == hidden || db' == DropConversations(hidden, {d})
  {
  }

  lemma DeletePrivateElsewhere(db: Db, u: Uuid, d: Uuid, now: Time, c: Uuid)
    requires LastMessageOk(db) && d != c
    ensures Of(DeletePrivate(db, u, d, now).db, c) == Of(db, c)
  {
    var hidden := SoftDelete(db, d, u, now);
    DeletePrivateOutcomes(db, u, d, now);
    MembersElsewhere(db, hidden, c);
    DropConversationsElsewhere(hidden, {d}, c);
  }

  lemma PartingElsewhere(db: Db, now: Time, step: Parting, c: Uuid)
    requires LastMessageOk(db) && !PartingIsAbout(step, c)
    ensures Of(ApplyParting(db, now, step), c) == Of(db, c)
  {
    match step
    case DoLeave(u, d) => LeaveElsewhere(db, u, d, now, c);
    case DoTransfer(owner, d, heir) => TransferElsewhere(db, owner, d, heir, c);
    case DoRemove(actor, d, target) => RemoveElsewhere(db, actor, d, target, now, c);
    case DoDeleteGroup(u, d) => DropConversationsElsewhere(db, {d}, c);
    case DoDeletePrivate(u, d) => DeletePrivateElsewhere(db, u, d, now, c);
  }

  // ------------------------------------------------------------------------ sending

  lemma MessageElsewhere(db: Db, id: Uuid, row: Message, c: Uuid)
    requires id !in db.messages && row.conversation != c
    ensures Of(db.(messages := db.messages[id := row]), c) == Of(db, c)
  {
    var db' := db.(messages := db.messages[id := row]);
    assert MembersOf(db', c) == MembersOf(db, c);
    assert MessagesOf(db', c) == MessagesOf(db, c);
  }

  lemma StoreMessageElsewhere(db: Db, d: Uuid, sender: Uuid, recipients: set<Uuid>, id: Uuid, now: Time, c: Uuid)
    requires d in db.conversations && d != c && id !in db.messages
    ensures Of(StoreMessage(db, d, sender, recipients, id, now), c) == Of(db, c)
  {
    var one := db.(messages := db.messages[id := Message(d, Some(sender), now)]);
    var added := Deliveries(id, Enumerate(recipients));
    var two := one.(deliveries := one.deliveries + added);
    var p := Delivering(MessagesOf(one, c).Keys);
    MessageElsewhere(db, id, Message(d, Some(sender), now), c);
    KeepSum(one.deliveries, added, p);
    KeepNone(added, p);
    DeliveriesElsewhere(one, two, c);
    ConversationsElsewhere(two, StoreMessage(db, d, sender, recipients, id, now), c);
  }

  lemma AttachElsewhere(db: Db, rows: seq<Attachment>, uploads: map<Uuid, Upload>, id: Uuid, c: Uuid)
    requires !IsIn(db, id, c) && forall a <- rows :: a.message == id
    ensures Of(db.(attachments := db.attachments + rows, uploads := uploads), c) == Of(db, c)
  {
    var db' := db.(attachments := db.attachments + rows, uploads := uploads);
    var p := AttachedTo(MessagesOf(db, c).Keys);
    assert MembersOf(db', c) == MembersOf(db, c);
    assert MessagesOf(db', c) == MessagesOf(db, c);
    KeepSum(db.attachments, rows, p);
    KeepNone(rows, p);
  }

  lemma CommitElsewhere(db: Db, d: Uuid, sender: Uuid, snapshot: set<Uuid>, uploads: seq<Uuid>, id: Uuid, now: Time,
                        c: Uuid)
    requires d != c && CommitMessage(db, d, sender, snapshot, uploads, id, now).Ok?
    ensures Of(CommitMessage(db, d, sender, snapshot, uploads, id, now).value, c) == Of(db, c)
  {
    CommitIsAttach(db, d, sender, snapshot, uploads, id, now);
    var stored := StoreMessage(db, d, sender, snapshot - {sender}, id, now);
    var counted := Counted(db, d, sender, snapshot, id, now);
    StoreMessageElsewhere(db, d, sender, snapshot - {sender}, id, now, c);
    MembersElsewhere(stored, counted, c);
    var db' := CommitMessage(db, d, sender, snapshot, uploads, id, now).value;
    AttachElsewhere(counted, Attached(counted, uploads, id), db'.uploads, id, c);
  }

  lemma RestoreIfElsewhere(db: Db, gone: bool, d: Uuid, u: Uuid, now: Time, c: Uuid)
    requires d != c
    ensures Of(RestoreIf(db, gone, d, u, now), c) == Of(db, c)
  {
    MembersElsewhere(db, RestoreIf(db, gone, d, u, now), c);
  }

  lemma StoreReadElsewhere(db: Db, r: Reading, uploads: seq<Uuid>, id: Uuid, now: Time, c: Uuid)
    requires r.c != c
    ensures Of(StoreRead(db, r, uploads, id, now).db, c) == Of(db, c)
  {
    if r.PrivateRead? {
      RestoreIfElsewhere(db, r.senderGone, r.c, r.sender, now, c);
      var one := RestoreIf(db, r.senderGone, r.c, r.sender, now);
      RestoreIfElsewhere(one, r.receiverGone, r.c, r.receiver, now, c);
    }
    if StoreRead(db, r, uploads, id, now).error.None? {
      CommitElsewhere(Restored(db, r, now), r.c, r.sender, r.snapshot, uploads, id, now, c);
    }
  }

  lemma SendPrivateElsewhere(db: Db, sender: Uuid, receiver: Uuid, uploads: seq<Uuid>, newId: Uuid, id: Uuid,
                             now: Time, c: Uuid)
    requires KeysUnique(db) && newId != c && !HasKey(db, c, PairKey(sender, receiver))
    ensures Of(SendPrivate(db, sender, receiver, uploads, newId, id, now).db, c) == Of(db, c)
  {
    match GetOrCreatePrivate(db, sender, [receiver], newId)
    case Denied(_) =>
    case Found(d) => StoreReadElsewhere(db, ReadPrivate(db, d, sender, receiver), uploads, id, now, c);
    case Created(d, db') =>
      OpenElsewhere(db, PairKey(sender, receiver), NormalizeMembers(sender, [receiver]), newId, c);
      StoreReadElsewhere(db', ReadPrivate(db', d, sender, receiver), uploads, id, now, c);
  }

  lemma SendingElsewhere(db: Db, now: Time, step: Sending, c: Uuid)
    requires KeysUnique(db) && !IsAbout(db, Send(step), c)
    ensures Of(ApplySending(db, now, step).db, c) == Of(db, c)
  {
    match step
    case ToGroup(sender, d, uploads, id) => StoreReadElsewhere(db, ReadGroup(db, sender, d), uploads, id, now, c);
    case ToUser(sender, receiver, uploads, newId, id) =>
      SendPrivateElsewhere(db, sender, receiver, uploads, newId, id, now, c);
    case Store(r, uploads, id) => StoreReadElsewhere(db, r, uploads, id, now, c);
  }

  // ---------------------------------------------------------------- receipts, upkeep

  lemma MarkElsewhere(db: Db, u: Uuid, ids: set<Uuid>, c: Uuid)
    requires forall m <- ids :: !IsIn(db, m, c)
    ensures Of(MarkDelivered(db, u, ids), c) == Of(db, c)
  {
    var f := (d: Delivery) => if d.user == u && d.message in ids then d.(status := Delivered) else d;
    KeepMap(db.deliveries, f, Delivering(MessagesOf(db, c).Keys));
    assert MarkDelivered(db, u, ids).deliveries == Map(db.deliveries, f);
    DeliveriesElsewhere(db, MarkDelivered(db, u, ids), c);
  }

  lemma RelabelElsewhere(db: Db, i: nat, status: Status, c: Uuid)
    requires i < |db.deliveries| && !IsIn(db, db.deliveries[i].message, c)
    ensures Of(db.(deliveries := db.deliveries[i := db.deliveries[i].(status := status)]), c) == Of(db, c)
  {
    var row := db.deliveries[i].(status := status);
    KeepUpdate(db.deliveries, i, row, Delivering(MessagesOf(db, c).Keys));
    DeliveriesElsewhere(db, db.(deliveries := db.deliveries[i := row]), c);
  }

  lemma ConfirmElsewhere(db: Db, u: Uuid, d: Uuid, message: Uuid, status: Status, c: Uuid)
    requires d != c && !IsIn(db, message, c)
    ensures Of(ConfirmDelivery(db, u, d, message, status), c) == Of(db, c)
  {
    var i := FindDelivery(db.deliveries, message, u);
    if i < |db.deliveries| {
      MembersElsewhere(db, ResetUnread(db, d, u), c);
      RelabelElsewhere(db, i, status, c);
      RelabelElsewhere(ResetUnread(db, d, u), i, status, c);
    }
  }

  lemma ReceiptElsewhere(db: Db, step: Receipt, c: Uuid)
    requires !ReceiptIsAbout(db, step, c)
    ensures Of(ApplyReceipt(db, step), c) == Of(db, c)
  {
    match step
    case DoConfirm(u, d, message, status) => ConfirmElsewhere(db, u, d, message, status, c);
    case DoResetUnread(d, u) => MembersElsewhere(db, ResetUnread(db, d, u), c);
    case DoSync(u) => MarkElsewhere(db, u, PendingFor(db, u), c);
    case DoMark(u, ids) => MarkElsewhere(db, u, ids, c);
  }

  lemma DropUserElsewhere(db: Db, u: Uuid, c: Uuid)
    requires !UpkeepIsAbout(db, DoDeleteUser(u), c)
    ensures Of(DropUser(db, u), c) == Of(db, c)
  {
    var db' := DropUser(db, u);
    assert MembersOf(db', c) == MembersOf(db, c) by {
      forall k <- MembersOf(db, c) ensures k.1 != u {
        assert k == (c, k.1);
      }
    }
    assert MessagesOf(db', c) == MessagesOf(db, c) by {
      forall m <- MessagesOf(db, c) ensures db.messages[m].sender != Some(u) {
        assert IsIn(db, m, c);
      }
    }
    KeepKeep(db.invitations, (i: Invitation) => i.actor != u && i.target != u, Inviting(c));
  }

  lemma SameDossierFiles(db: Db, files: set<StorageKey>, c: Uuid)
    ensures Of(db.(files := files), c) == Of(db, c)
  {
    assert MembersOf(db.(files := files), c) == MembersOf(db, c);
    assert MessagesOf(db.(files := files), c) == MessagesOf(db, c);
  }

  lemma DeleteUserElsewhere(db: Db, u: Uuid, c: Uuid)
    requires LastMessageOk(db) && !UpkeepIsAbout(db, DoDeleteUser(u), c)
    ensures Of(DeleteUser(db, u), c) == Of(db, c)
  {
    var gone := Orphaned(db, u);
    var kept := DropConversations(db, gone);
    var one := kept.(files := db.files - KeysOf(db, MessagesIn(db, gone)));
    DropConversationsElsewhere(db, gone, c);
    SameDossierFiles(kept, one.files, c);
    StillNotAbout(db, kept, u, c);
    assert !UpkeepIsAbout(one, DoDeleteUser(u), c);
    DropUserElsewhere(one, u, c);
  }

  // Where a user has left no trace before, there is none after rows have gone.
  lemma StillNotAbout(db: Db, db': Db, u: Uuid, c: Uuid)
    requires !UpkeepIsAbout(db, DoDeleteUser(u), c) && db'.members.Keys <= db.members.Keys
    requires forall i <- db'.invitations :: i in db.invitations
    requires forall m <- db'.messages :: m in db.messages && db'.messages[m] == db.messages[m]
    ensures !UpkeepIsAbout(db', DoDeleteUser(u), c)
  {
    forall m <- db'.messages | IsIn(db', m, c) ensures db'.messages[m].sender != Some(u) {
      assert IsIn(db, m, c);
    }
  }

  lemma DeleteMessagesElsewhere(db: Db, d: Uuid, ids: set<Uuid>, c: Uuid)
    requires LastMessageOk(db) && d != c
    ensures Of(DeleteMessages(db, d, ids), c) == Of(db, c)
  {
    var gone := set m | m in db.messages && m in ids && db.messages[m].conversation == d;
    DropMessagesElsewhere(db, gone, c);
    SameDossierFiles(DropMessages(db, gone), db.files - KeysOf(db, gone), c);
  }

  lemma NotOfAConversation(db: Db, db': Db, c: Uuid)
    requires db' == db.(users := db'.users, uploads := db'.uploads, files := db'.files)
    ensures Of(db', c) == Of(db, c)
  {
    assert MembersOf(db', c) == MembersOf(db, c);
    assert MessagesOf(db', c) == MessagesOf(db, c);
  }

  lemma UpkeepElsewhere(db: Db, now: Time, step: Upkeep, c: Uuid)
    requires LastMessageOk(db) && !UpkeepIsAbout(db, step, c)
    ensures Of(ApplyUpkeep(db, now, step), c) == Of(db, c)
  {
    match step
    case DoDeleteMessages(d, ids) => DeleteMessagesElsewhere(db, d, ids, c);
    case DoDeleteUser(u) => DeleteUserElsewhere(db, u, c);
    case _ => NotOfAConversation(db, ApplyUpkeep(db, now, step), c);
  }

  // ------------------------------------------------------------------- every step, run

  // A step leaves everything of a conversation it is not about as it is.
  lemma StepElsewhere(db: Db, now: Time, step: Step, c: Uuid)
    requires KeysUnique(db) && LastMessageOk(db) && InvitesToGroups(db) && !IsAbout(db, step, c)
    ensures Of(Apply(db, now, step), c) == Of(db, c)
  {
    match step
    case Tick(_) =>
    case Read(_) =>
    case Join(j) => JoiningElsewhere(db, now, j, c);
    case Part(p) => PartingElsewhere(db, now, p, c);
    case Send(m) => SendingElsewhere(db, now, m, c);
    case Receive(r) => ReceiptElsewhere(db, r, c);
    case Maintain(u) => UpkeepElsewhere(db, now, u, c);
  }

  // No step of the run is about c.
  ghost predicate RunsElsewhere(w: World, steps: seq<Step>, c: Uuid)
    requires WorldOk(w)
    decreases |steps|
  {
    steps == [] ||
      (NextKeepsWorldOk(w, steps[0]);
       !IsAbout(w.db, steps[0], c) && RunsElsewhere(Next(w, steps[0]), steps[1..], c))
  }

  lemma {:induction false} RunLeavesAlone(w: World, steps: seq<Step>, c: Uuid)
    requires WorldOk(w) && RunsElsewhere(w, steps, c)
    ensures Of(Exec(w, steps).db, c) == Of(w.db, c)
    decreases |steps|
  {
    if steps != [] {
      NextKeepsWorldOk(w, steps[0]);
      StepElsewhere(w.db, w.now, steps[0], c);
      RunLeavesAlone(Next(w, steps[0]), steps[1..], c);
    }
  }

  // ------------------------------------------------------------------ what people have

  // The row of a user and the uploads of that user that wait for a message.
  datatype Belongings = Belongings(role: Option<UserRole>, uploads: map<Uuid, Upload>)

  function BelongingsOf(db: Db, v: Uuid): Belongings {
    Belongings(if v in db.users then Some(db.users[v]) else None,
               map u | u in db.uploads && db.uploads[u].user == v :: db.uploads[u])
  }

  predicate ActsFor(step: Step, v: Uuid) {
    match step
    case Send(ToGroup(sender, _, _, _)) => sender == v
    case Send(ToUser(sender, _, _, _, _)) => sender == v
    case Send(Store(r, _, _)) => r.sender == v
    case Maintain(AddUser(user, _)) => user == v
    case Maintain(DoPrepare(user, _)) => user == v
    case Maintain(DoDeleteUser(u)) => u == v
    case _ => false
  }

  lemma SameBelongings(db: Db, db': Db, v: Uuid)
    requires db'.users == db.users && db'.uploads == db.uploads
    ensures BelongingsOf(db', v) == BelongingsOf(db, v)
  {
  }

  lemma StoreReadSpares(db: Db, r: Reading, uploads: seq<Uuid>, id: Uuid, now: Time, v: Uuid)
    requires r.sender != v
    ensures BelongingsOf(StoreRead(db, r, uploads, id, now).db, v) == BelongingsOf(db, v)
  {
    RestoredRows(db, r, now);
    if StoreRead(db, r, uploads, id, now).error.None? {
      CommitIsAttach(Restored(db, r, now), r.c, r.sender, r.snapshot, uploads, id, now);
    }
  }

  lemma SendPrivateSpares(db: Db, sender: Uuid, receiver: Uuid, uploads: seq<Uuid>, newId: Uuid, id: Uuid, now: Time,
                          v: Uuid)
    requires KeysUnique(db) && sender != v
    ensures BelongingsOf(SendPrivate(db, sender, receiver, uploads, newId, id, now).db, v) == BelongingsOf(db, v)
  {
    match GetOrCreatePrivate(db, sender, [receiver], newId)
    case Denied(_) =>
    case Found(d) => StoreReadSpares(db, ReadPrivate(db, d, sender, receiver), uploads, id, now, v);
    case Created(d, db') =>
      SameBelongings(db, db', v);
      StoreReadSpares(db', ReadPrivate(db', d, sender, receiver), uploads, id, now, v);
  }

  lemma SendingSpares(db: Db, now: Time, step: Sending, v: Uuid)
    requires KeysUnique(db) && !ActsFor(Send(step), v)
    ensures BelongingsOf(ApplySending(db, now, step).db, v) == BelongingsOf(db, v)
  {
    match step
    case ToGroup(sender, d, uploads, id) => StoreReadSpares(db, ReadGroup(db, sender, d), uploads, id, now, v);
    case ToUser(sender, receiver, uploads, newId, id) =>
      SendPrivateSpares(db, sender, receiver, uploads, newId, id, now, v);
    case Store(r, uploads, id) => StoreReadSpares(db, r, uploads, id, now, v);
  }

  lemma JoiningLeavesBelongings(db: Db, now: Time, step: Joining)
    ensures var db' := ApplyJoining(db, now, step); db'.users == db.users && db'.uploads == db.uploads
  {
  }

  lemma PartingLeavesBelongings(db: Db, now: Time, step: Parting)
    ensures var db' := ApplyParting(db, now, step); db'.users == db.users && db'.uploads == db.uploads
  {
  }

  lemma JoiningSpares(db: Db, now: Time, step: Joining, v: Uuid)
    ensures BelongingsOf(ApplyJoining(db, now, step), v) == BelongingsOf(db, v)
  {
    JoiningLeavesBelongings(db, now, step);
    SameBelongings(db, ApplyJoining(db, now, step), v);
  }

  lemma PartingSpares(db: Db, now: Time, step: Parting, v: Uuid)
    ensures BelongingsOf(ApplyParting(db, now, step), v) == BelongingsOf(db, v)
  {
    PartingLeavesBelongings(db, now, step);
    SameBelongings(db, ApplyParting(db, now, step), v);
  }

  lemma ReceiptSpares(db: Db, step: Receipt, v: Uuid)
    ensures BelongingsOf(ApplyReceipt(db, step), v) == BelongingsOf(db, v)
  {
    SameBelongings(db, ApplyReceipt(db, step), v);
  }

  lemma UpkeepSpares(db: Db, now: Time, step: Upkeep, v: Uuid)
    requires !ActsFor(Maintain(step), v)
    ensures BelongingsOf(ApplyUpkeep(db, now, step), v) == BelongingsOf(db, v)
  {
  }

  // A step changes the row and the uploads of nobody but the user it acts for, and
  // other people's pending uploads outlive the deletion of a user.
  lemma StepSparesBelongings(db: Db, now: Time, step: Step, v: Uuid)
    requires KeysUnique(db) && !ActsFor(step, v)
    ensures BelongingsOf(Apply(db, now, step), v) == BelongingsOf(db, v)
  {
    match step
    case Tick(_) =>
    case Read(_) =>
    case Join(j) => JoiningSpares(db, now, j, v);
    case Part(p) => PartingSpares(db, now, p, v);
    case Send(m) => SendingSpares(db, now, m, v);
    case Receive(r) => ReceiptSpares(db, r, v);
    case Maintain(u) => UpkeepSpares(db, now, u, v);
  }

  lemma {:induction false} RunSparesBelongings(w: World, steps: seq<Step>, v: Uuid)
    requires WorldOk(w) && forall step <- steps :: !ActsFor(step, v)
    ensures BelongingsOf(Exec(w, steps).db, v) == BelongingsOf(w.db, v)
    decreases |steps|
  {
    if steps != [] {
      NextKeepsWorldOk(w, steps[0]);
      StepSparesBelongings(w.db, w.now, steps[0], v);
      RunSparesBelongings(Next(w, steps[0]), steps[1..], v);
    }
  }

  // ---------------------------------------------------------------------------- files

  // A file leaves the bucket only with the message it is attached to.
  lemma StepRemovesAttachedFiles(db: Db, now: Time, step: Step, key: StorageKey)
    requires KeysUnique(db) && key in db.files && key !in Apply(db, now, step).files
    ensures exists a <- db.attachments ::
              a.storageKey == key && a.message in db.messages && a.message !in Apply(db, now, step).messages
  {
    match step
    case Tick(_) =>
    case Read(_) =>
    case Join(j) => JoiningLeavesBucket(db, now, j);
    case Part(p) => PartingLeavesBucket(db, now, p);
    case Send(m) => SendingLeavesBucket(db, now, m);
    case Receive(r) => ReceiptLeavesBucket(db, r);
    case Maintain(u) => UpkeepRemovesAttachedFiles(db, now, u, key);
  }

  lemma JoiningLeavesBucket(db: Db, now: Time, step: Joining)
    ensures ApplyJoining(db, now, step).files == db.files
  {
    JoiningLeavesFiles(db, now, step);
  }

  lemma ReceiptLeavesBucket(db: Db, step: Receipt)
    ensures ApplyReceipt(db, step).files == db.files
  {
  }

  lemma PartingLeavesBucket(db: Db, now: Time, step: Parting)
    ensures ApplyParting(db, now, step).files == db.files
  {
  }

  lemma StoreReadLeavesBucket(db: Db, r: Reading, uploads: seq<Uuid>, id: Uuid, now: Time)
    ensures StoreRead(db, r, uploads, id, now).db.files == db.files
  {
    RestoredRows(db, r, now);
    if StoreRead(db, r, uploads, id, now).error.None? {
      CommitIsAttach(Restored(db, r, now), r.c, r.sender, r.snapshot, uploads, id, now);
    }
  }

  lemma SendingLeavesBucket(db: Db, now: Time, step: Sending)
    requires KeysUnique(db)
    ensures ApplySending(db, now, step).db.files == db.files
  {
    match step
    case ToGroup(sender, d, uploads, id) => StoreReadLeavesBucket(db, ReadGroup(db, sender, d), uploads, id, now);
    case Store(r, uploads, id) => StoreReadLeavesBucket(db, r, uploads, id, now);
    case ToUser(sender, receiver, uploads, newId, id) =>
      match GetOrCreatePrivate(db, sender, [receiver], newId) {
        case Denied(_) =>
        case Found(c) => StoreReadLeavesBucket(db, ReadPrivate(db, c, sender, receiver), uploads, id, now);
        case Created(c, db') => StoreReadLeavesBucket(db', ReadPrivate(db', c, sender, receiver), uploads, id, now);
      }
  }

  lemma UpkeepRemovesAttachedFiles(db: Db, now: Time, step: Upkeep, key: StorageKey)
    requires key in db.files && key !in ApplyUpkeep(db, now, step).files
    ensures exists a <- db.attachments ::
              a.storageKey == key && a.message in db.messages && a.message !in ApplyUpkeep(db, now, step).messages
  {
  }
}
