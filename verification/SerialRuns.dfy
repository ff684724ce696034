/**
 * Every operation as one step of a run over the store, and the send operations
 * also as a reading and, any number of steps later, their transaction. In every
 * run the store stays sound, groups keep their owner, deliveries stay unique,
 * keys and files agree, unread counters count.
 */
module SerialRuns {
  import opened Prelude
  import opened Tables
  import opened Store
  import opened PrivateKeys
  import opened Groups
  import opened Messaging
  import opened Integrity
  import opened Bookkeeping

  datatype Joining =
    | DoCreateGroup(owner: Uuid, id: Uuid)
    | DoOpen(creator: Uuid, other: Uuid, id: Uuid)   // after a lookup that found nothing, at any earlier time
    | DoInvite(actor: Uuid, c: Uuid, target: Uuid)
    | DoAccept(c: Uuid, u: Uuid, which: nat)
    | DoReject(c: Uuid, u: Uuid, which: nat)

  datatype Parting =
    | DoLeave(u: Uuid, c: Uuid)
    | DoTransfer(owner: Uuid, c: Uuid, heir: Uuid)
    | DoRemove(actor: Uuid, c: Uuid, target: Uuid)
    | DoDeleteGroup(u: Uuid, c: Uuid)
    | DoDeletePrivate(u: Uuid, c: Uuid)

  datatype Sending =
    | ToGroup(sender: Uuid, c: Uuid, uploads: seq<Uuid>, id: Uuid)
    | ToUser(sender: Uuid, receiver: Uuid, uploads: seq<Uuid>, newId: Uuid, id: Uuid)
    | Store(reading: Reading, uploads: seq<Uuid>, id: Uuid)   // the transaction alone

  datatype Receipt =
    | DoConfirm(u: Uuid, c: Uuid, message: Uuid, status: Status)
    | DoResetUnread(c: Uuid, u: Uuid)
    | DoSync(u: Uuid)
    | DoMark(u: Uuid, ids: set<Uuid>)   // the update alone, for messages found pending at any earlier time

  datatype Upkeep =
    | AddUser(user: Uuid, role: UserRole)
    | DoPrepare(user: Uuid, file: NewFile)
    | PutFile(key: StorageKey)
    | DoDeleteMessages(c: Uuid, ids: set<Uuid>)
    | DoDeleteUser(u: Uuid)

  datatype Step =
    | Tick(now: Time)
    | Read(reading: Reading)
    | Join(joining: Joining)
    | Part(parting: Parting)
    | Send(sending: Sending)
    | Receive(receipt: Receipt)
    | Maintain(upkeep: Upkeep)

  // What the history of a counter consists of.
  datatype Note =
    | MessageFor(c: Uuid, recipients: set<Uuid>)
    | Zeroed(c: Uuid, u: Uuid)
    | Born(c: Uuid, u: Uuid)

  // `read` is everything a send operation has read so far; it may be used at any later time.
  datatype World = World(db: Db, now: Time, notes: seq<Note>, read: set<Reading>)

  const START := World(EMPTY, 0, [], {})

  function ApplyJoining(db: Db, now: Time, step: Joining): Db {
    match step
    case DoCreateGroup(owner, id) => CreateGroup(db, owner, id).db
    case DoOpen(creator, other, id) =>
      match OpenPrivate(db, PairKey(creator, other), NormalizeMembers(creator, [other]), id) {
        case None => db
        case Some(db') => db'
      }
    case DoInvite(actor, c, target) => Invite(db, actor, c, target, now).db
    case DoAccept(c, u, which) => Accept(db, c, u, now, which).db
    case DoReject(c, u, which) => Reject(db, c, u, now, which).db
  }

  function ApplyParting(db: Db, now: Time, step: Parting): Db {
    match step
    case DoLeave(u, c) => Leave(db, u, c, now).db
    case DoTransfer(owner, c, heir) => Transfer(db, owner, c, heir).db
    case DoRemove(actor, c, target) => Remove(db, actor, c, target, now).db
    case DoDeleteGroup(u, c) => DeleteGroup(db, u, c).db
    case DoDeletePrivate(u, c) => DeletePrivate(db, u, c, now).db
  }

  function ApplySending(db: Db, now: Time, step: Sending): SendReply
    requires KeysUnique(db)
  {
    match step
    case ToGroup(sender, c, uploads, id) => SendGroup(db, sender, c, uploads, id, now)
    case ToUser(sender, receiver, uploads, newId, id) => SendPrivate(db, sender, receiver, uploads, newId, id, now)
    case Store(r, uploads, id) => StoreRead(db, r, uploads, id, now)
  }

  function ApplyReceipt(db: Db, step: Receipt): Db {
    match step
    case DoConfirm(u, c, message, status) => ConfirmDelivery(db, u, c, message, status)
    case DoResetUnread(c, u) => ResetUnread(db, c, u)
    case DoSync(u) => MarkDelivered(db, u, PendingFor(db, u))
    case DoMark(u, ids) => MarkDelivered(db, u, ids)
  }

  function ApplyUpkeep(db: Db, now: Time, step: Upkeep): Db {
    match step
    case AddUser(user, role) => if user in db.users then db else db.(users := db.users[user := role])
    case DoPrepare(user, f) =>
      if user in db.users && f.upload !in db.uploads && !KeyInUse(db, StorageKey(user, f.file))
      then PrepareUpload(db, user, f, now) else db
    case PutFile(key) => db.(files := db.files + {key})
    case DoDeleteMessages(c, ids) => DeleteMessages(db, c, ids)
    case DoDeleteUser(u) => DeleteUser(db, u)
  }

  function Apply(db: Db, now: Time, step: Step): Db
    requires KeysUnique(db)
  {
    match step
    case Tick(_) => db
    case Read(_) => db
    case Join(j) => ApplyJoining(db, now, j)
    case Part(p) => ApplyParting(db, now, p)
    case Send(m) => ApplySending(db, now, m).db
    case Receive(r) => ApplyReceipt(db, r)
    case Maintain(u) => ApplyUpkeep(db, now, u)
  }

  function Stored(db: Db, r: Reading, uploads: seq<Uuid>, id: Uuid, now: Time): seq<Note> {
    if StoreRead(db, r, uploads, id, now).error.None? then [MessageFor(r.c, r.snapshot - {r.sender})] else []
  }

  // Each operation that the services are tied to is the step of its name, so that what
  // is proved of runs is proved of calls to them.
  lemma GroupCallsAreSteps(db: Db, now: Time, a: Uuid, c: Uuid, b: Uuid, which: nat)
    ensures ApplyJoining(db, now, DoCreateGroup(a, c)) == CreateGroup(db, a, c).db
    ensures ApplyJoining(db, now, DoInvite(a, c, b)) == Invite(db, a, c, b, now).db
    ensures ApplyJoining(db, now, DoAccept(c, a, which)) == Accept(db, c, a, now, which).db
    ensures ApplyJoining(db, now, DoReject(c, a, which)) == Reject(db, c, a, now, which).db
  {
  }

  lemma PartingCallsAreSteps(db: Db, now: Time, a: Uuid, c: Uuid, b: Uuid)
    ensures ApplyParting(db, now, DoLeave(a, c)) == Leave(db, a, c, now).db
    ensures ApplyParting(db, now, DoTransfer(a, c, b)) == Transfer(db, a, c, b).db
    ensures ApplyParting(db, now, DoRemove(a, c, b)) == Remove(db, a, c, b, now).db
    ensures ApplyParting(db, now, DoDeleteGroup(a, c)) == DeleteGroup(db, a, c).db
    ensures ApplyParting(db, now, DoDeletePrivate(a, c)) == DeletePrivate(db, a, c, now).db
  {
  }

  lemma SendingCallsAreSteps(db: Db, now: Time, a: Uuid, c: Uuid, b: Uuid, id: Uuid, uploads: seq<Uuid>)
    requires KeysUnique(db)
    ensures ApplySending(db, now, ToGroup(a, c, uploads, id)) == SendGroup(db, a, c, uploads, id, now)
    ensures ApplySending(db, now, ToUser(a, b, uploads, c, id)) == SendPrivate(db, a, b, uploads, c, id, now)
  {
  }

  lemma ReceiptCallsAreSteps(db: Db, u: Uuid, c: Uuid, message: Uuid, status: Status)
    ensures ApplyReceipt(db, DoSync(u)) == MarkDelivered(db, u, PendingFor(db, u))
    ensures ApplyReceipt(db, DoResetUnread(c, u)) == ResetUnread(db, c, u)
    ensures ApplyReceipt(db, DoConfirm(u, c, message, status)) == ConfirmDelivery(db, u, c, message, status)
  {
  }

  lemma UpkeepCallsAreSteps(db: Db, now: Time, u: Uuid, c: Uuid, ids: set<Uuid>)
    ensures ApplyUpkeep(db, now, DoDeleteMessages(c, ids)) == DeleteMessages(db, c, ids)
    ensures ApplyUpkeep(db, now, DoDeleteUser(u)) == DeleteUser(db, u)
  {
  }

  // What a step adds to the history of the counters.
  function NotedJoining(db: Db, now: Time, step: Joining): seq<Note> {
    match step
    case DoCreateGroup(owner, id) => if CreateGroup(db, owner, id).refusal.None? then [Born(id, owner)] else []
    case DoOpen(creator, other, id) =>
      if OpenPrivate(db, PairKey(creator, other), NormalizeMembers(creator, [other]), id).Some?
      then [Born(id, creator), Born(id, other)] else []
    case DoAccept(c, u, which) =>
      if (c, u) !in db.members && (c, u) in ApplyJoining(db, now, step).members then [Born(c, u)] else []
    case _ => []
  }

  function NotedSending(db: Db, now: Time, step: Sending): seq<Note>
    requires KeysUnique(db)
  {
    match step
    case ToGroup(sender, c, uploads, id) =>
      if SendGroupGuard(db, sender, c).None? then Stored(db, ReadGroup(db, sender, c), uploads, id, now) else []
    case ToUser(sender, receiver, uploads, newId, id) =>
      match GetOrCreatePrivate(db, sender, [receiver], newId) {
        case Denied(_) => []
        case Found(c) => Stored(db, ReadPrivate(db, c, sender, receiver), uploads, id, now)
        case Created(c, db') =>
          [Born(c, sender), Born(c, receiver)] + Stored(db', ReadPrivate(db', c, sender, receiver), uploads, id, now)
      }
    case Store(r, uploads, id) => Stored(db, r, uploads, id, now)
  }

  function NotedReceipt(db: Db, step: Receipt): seq<Note> {
    match step
    case DoConfirm(u, c, message, status) =>
      if status.Read? && FindDelivery(db.deliveries, message, u) < |db.deliveries| then [Zeroed(c, u)] else []
    case DoResetUnread(c, u) => [Zeroed(c, u)]
    case DoSync(_) => []
    case DoMark(_, _) => []
  }

  function Noted(db: Db, now: Time, step: Step): seq<Note>
    requires KeysUnique(db)
  {
    match step
    case Join(j) => NotedJoining(db, now, j)
    case Send(m) => NotedSending(db, now, m)
    case Receive(r) => NotedReceipt(db, r)
    case _ => []
  }

  // A transaction on its own rests on something that was read.
  predicate Rests(w: World, step: Step) {
    step.Send? && step.sending.Store? ==> step.sending.reading in w.read
  }

  function Next(w: World, step: Step): World
    requires KeysUnique(w.db)
  {
    if !Rests(w, step) then w else
    World(Apply(w.db, w.now, step),
          if step.Tick? && w.now <= step.now then step.now else w.now,
          w.notes + Noted(w.db, w.now, step),
          if step.Read? && ReadsNow(w.db, step.reading) then w.read + {step.reading} else w.read)
  }

  // Messages for u in c since the last reset or the birth of the row.
  function Unread(notes: seq<Note>, c: Uuid, u: Uuid): nat {
    if notes == [] then 0
    else
      var earlier := notes[..|notes| - 1];
      match notes[|notes| - 1]
      case MessageFor(d, recipients) =>
        if d == c && u in recipients then Unread(earlier, c, u) + 1 else Unread(earlier, c, u)
      case Zeroed(d, v) => if d == c && v == u then 0 else Unread(earlier, c, u)
      case Born(d, v) => if d == c && v == u then 0 else Unread(earlier, c, u)
  }

  ghost predicate CountersAgree(db: Db, notes: seq<Note>) {
    forall k <- db.members :: db.members[k].unread == Unread(notes, k.0, k.1)
  }

  // --------------------------------------------------------------- sound, owned

  // Where the keys are unique, opening is what getOrCreatePrivateConversation does
  // when it finds nothing.
  lemma OpenIsCreate(db: Db, creator: Uuid, other: Uuid, id: Uuid)
    requires KeysUnique(db)
    ensures var row := OpenPrivate(db, PairKey(creator, other), NormalizeMembers(creator, [other]), id);
            row.Some? ==> GetOrCreatePrivate(db, creator, [other], id) == Created(id, row.value)
  {
  }

  lemma OpenKeepsSound(db: Db, creator: Uuid, other: Uuid, id: Uuid)
    requires Sound(db)
    ensures var db' := ApplyJoining(db, 0, DoOpen(creator, other, id));
            Sound(db') && (GroupsAreOwned(db) ==> GroupsAreOwned(db'))
  {
    OpenIsCreate(db, creator, other, id);
    if GetOrCreatePrivate(db, creator, [other], id).Created? {
      CreatePrivateKeepsSound(db, creator, other, id);
    }
  }

  lemma JoiningKeepsSound(db: Db, now: Time, step: Joining)
    requires Sound(db)
    ensures var db' := ApplyJoining(db, now, step); Sound(db') && (GroupsAreOwned(db) ==> GroupsAreOwned(db'))
  {
    match step
    case DoCreateGroup(owner, id) => CreateGroupKeepsSound(db, owner, id);
    case DoOpen(creator, other, id) => OpenKeepsSound(db, creator, other, id);
    case DoInvite(actor, c, target) => InviteKeepsSound(db, actor, c, target, now);
    case DoAccept(c, u, which) => AcceptKeepsSound(db, c, u, now, which);
    case DoReject(c, u, which) => RejectKeepsSound(db, c, u, now, which);
  }

  lemma PartingKeepsSound(db: Db, now: Time, step: Parting)
    requires Sound(db)
    ensures var db' := ApplyParting(db, now, step); Sound(db') && (GroupsAreOwned(db) ==> GroupsAreOwned(db'))
  {
    match step
    case DoLeave(u, c) => LeaveKeepsSound(db, u, c, now);
    case DoTransfer(owner, c, heir) => TransferKeepsSound(db, owner, c, heir);
    case DoRemove(actor, c, target) => RemoveKeepsSound(db, actor, c, target, now);
    case DoDeleteGroup(u, c) => DeleteGroupKeepsSound(db, u, c);
    case DoDeletePrivate(u, c) => DeletePrivateKeepsSound(db, u, c, now);
  }

  lemma SendingKeepsSound(db: Db, now: Time, step: Sending)
    requires Sound(db)
    ensures var db' := ApplySending(db, now, step).db; Sound(db') && (GroupsAreOwned(db) ==> GroupsAreOwned(db'))
  {
    match step
    case ToGroup(sender, c, uploads, id) => SendGroupKeepsSound(db, sender, c, uploads, id, now);
    case ToUser(sender, receiver, uploads, newId, id) =>
      SendPrivateKeepsSound(db, sender, receiver, uploads, newId, id, now);
    case Store(r, uploads, id) => StoreReadKeepsSound(db, r, uploads, id, now);
  }

  lemma ReceiptTouches(db: Db, step: Receipt)
    requires References(db)
    ensures Touches(db, ApplyReceipt(db, step))
  {
    match step
    case DoConfirm(u, c, message, status) => ConfirmTouches(db, u, c, message, status);
    case DoResetUnread(c, u) => ResetTouches(db, c, u);
    case DoSync(u) => MarkDeliveredTouches(db, u, PendingFor(db, u));
    case DoMark(u, ids) => MarkDeliveredTouches(db, u, ids);
  }

  lemma UpkeepKeepsSound(db: Db, now: Time, step: Upkeep)
    requires Sound(db)
    ensures var db' := ApplyUpkeep(db, now, step);
            Sound(db') && (!step.DoDeleteUser? && GroupsAreOwned(db) ==> GroupsAreOwned(db'))
  {
    match step
    case AddUser(user, role) => AddUserKeepsSound(db, user, role);
    case DoPrepare(user, f) =>
      if user in db.users {
        PrepareKeepsSound(db, user, f, now);
      }
    case PutFile(key) => FilesDoNotMatter(db, db.files + {key});
    case DoDeleteMessages(c, ids) => DeleteMessagesKeepsSound(db, c, ids);
    case DoDeleteUser(u) => DeleteUserKeepsSound(db, u);
  }

  predicate DeletesUser(step: Step) {
    step.Maintain? && step.upkeep.DoDeleteUser?
  }

  lemma StepKeepsSound(db: Db, now: Time, step: Step)
    requires Sound(db)
    ensures var db' := Apply(db, now, step);
            Sound(db') && (!DeletesUser(step) && GroupsAreOwned(db) ==> GroupsAreOwned(db'))
  {
    match step
    case Tick(_) =>
    case Read(_) =>
    case Join(j) => JoiningKeepsSound(db, now, j);
    case Part(p) => PartingKeepsSound(db, now, p);
    case Send(m) => SendingKeepsSound(db, now, m);
    case Receive(r) =>
      ReceiptTouches(db, r);
      TouchesKeepsSound(db, ApplyReceipt(db, r));
    case Maintain(u) => UpkeepKeepsSound(db, now, u);
  }

  lemma ResetTouches(db: Db, c: Uuid, u: Uuid)
    requires References(db)
    ensures Touches(db, ResetUnread(db, c, u))
  {
  }

  lemma AddUserKeepsSound(db: Db, user: Uuid, role: UserRole)
    requires Sound(db)
    ensures var db' := if user in db.users then db else db.(users := db.users[user := role]);
            Sound(db') && (GroupsAreOwned(db) ==> GroupsAreOwned(db'))
  {
  }

  lemma PrepareKeepsSound(db: Db, user: Uuid, f: NewFile, now: Time)
    requires Sound(db) && user in db.users
    ensures var db' := PrepareUpload(db, user, f, now); Sound(db') && (GroupsAreOwned(db) ==> GroupsAreOwned(db'))
  {
    var db' := PrepareUpload(db, user, f, now);
    PrepareKeepsReferences(db, user, f, now);
    AttachKeepsTheRest(db, [], db'.uploads);
    assert db' == db.(attachments := db.attachments + [], uploads := db'.uploads);
  }

  lemma PrepareKeepsReferences(db: Db, user: Uuid, f: NewFile, now: Time)
    requires References(db) && user in db.users
    ensures References(PrepareUpload(db, user, f, now))
  {
  }

  // ---------------------------------------------------------------- the counters

  lemma CountersUntouched(db: Db, db': Db, notes: seq<Note>)
    requires CountersAgree(db, notes)
    requires forall k <- db'.members :: k in db.members && db'.members[k].unread == db.members[k].unread
    ensures CountersAgree(db', notes)
  {
  }

  lemma BornCounters(db: Db, db': Db, notes: seq<Note>, c: Uuid, u: Uuid)
    requires CountersAgree(db, notes)
    requires forall k <- db'.members ::
               k == (c, u) || (k in db.members && db'.members[k].unread == db.members[k].unread)
    requires (c, u) in db'.members ==> db'.members[(c, u)].unread == 0
    ensures CountersAgree(db', notes + [Born(c, u)])
  {
  }

  lemma ZeroedCounters(db: Db, notes: seq<Note>, c: Uuid, u: Uuid)
    requires CountersAgree(db, notes)
    ensures CountersAgree(ResetUnread(db, c, u), notes + [Zeroed(c, u)])
  {
  }

  lemma CommitCounters(db: Db, notes: seq<Note>, c: Uuid, sender: Uuid, snapshot: set<Uuid>, uploads: seq<Uuid>,
                       id: Uuid, now: Time)
    requires CountersAgree(db, notes) && CommitMessage(db, c, sender, snapshot, uploads, id, now).Ok?
    ensures CountersAgree(CommitMessage(db, c, sender, snapshot, uploads, id, now).value,
                          notes + [MessageFor(c, snapshot - {sender})])
  {
  }

  lemma FinishedCounters(db: Db, db': Db, notes: seq<Note>, r: Reading, uploads: seq<Uuid>, id: Uuid, now: Time)
    requires CountersAgree(db, notes) && CountersAgree(db', notes)
    ensures var result := CommitMessage(db', r.c, r.sender, r.snapshot, uploads, id, now);
            CountersAgree(Finished(db, result).db,
                          notes + (if result.Ok? then [MessageFor(r.c, r.snapshot - {r.sender})] else []))
  {
    assert notes + [] == notes;
    if CommitMessage(db', r.c, r.sender, r.snapshot, uploads, id, now).Ok? {
      CommitCounters(db', notes, r.c, r.sender, r.snapshot, uploads, id, now);
    }
  }

  lemma StoreReadCounters(db: Db, notes: seq<Note>, r: Reading, uploads: seq<Uuid>, id: Uuid, now: Time)
    requires CountersAgree(db, notes)
    ensures CountersAgree(StoreRead(db, r, uploads, id, now).db, notes + Stored(db, r, uploads, id, now))
  {
    RestoredRows(db, r, now);
    CountersUntouched(db, Restored(db, r, now), notes);
    FinishedCounters(db, Restored(db, r, now), notes, r, uploads, id, now);
  }

  lemma OpenedCounters(db: Db, notes: seq<Note>, creator: Uuid, other: Uuid, id: Uuid)
    requires MembersRef(db) && KeysUnique(db) && CountersAgree(db, notes)
    requires GetOrCreatePrivate(db, creator, [other], id).Created?
    ensures CountersAgree(GetOrCreatePrivate(db, creator, [other], id).db,
                          notes + [Born(id, creator)] + [Born(id, other)])
  {
    var db' := GetOrCreatePrivate(db, creator, [other], id).db;
    NewPrivateMembers(db, creator, other, id);
    var mid := db'.(members := db'.members - {(id, other)});
    forall k <- mid.members
      ensures k == (id, creator) || (k in db.members && mid.members[k].unread == db.members[k].unread)
    {
      assert k in db'.members;
    }
    BornCounters(db, mid, notes, id, creator);
    BornCounters(mid, db', notes + [Born(id, creator)], id, other);
  }

  lemma AppendTwo(notes: seq<Note>, a: Note, b: Note, rest: seq<Note>)
    ensures notes + [a] + [b] + rest == notes + ([a, b] + rest)
  {
  }

  lemma OpenedThenSentCounters(db: Db, notes: seq<Note>, sender: Uuid, receiver: Uuid, uploads: seq<Uuid>, newId: Uuid,
                               id: Uuid, now: Time)
    requires MembersRef(db) && KeysUnique(db) && CountersAgree(db, notes)
    requires GetOrCreatePrivate(db, sender, [receiver], newId).Created?
    ensures var db' := GetOrCreatePrivate(db, sender, [receiver], newId).db;
            var r := ReadPrivate(db', newId, sender, receiver);
            CountersAgree(StoreRead(db', r, uploads, id, now).db,
                          notes + ([Born(newId, sender), Born(newId, receiver)] + Stored(db', r, uploads, id, now)))
  {
    var db' := GetOrCreatePrivate(db, sender, [receiver], newId).db;
    var r := ReadPrivate(db', newId, sender, receiver);
    OpenedCounters(db, notes, sender, receiver, newId);
    StoreReadCounters(db', notes + [Born(newId, sender)] + [Born(newId, receiver)], r, uploads, id, now);
    AppendTwo(notes, Born(newId, sender), Born(newId, receiver), Stored(db', r, uploads, id, now));
  }

  lemma ToUserCounters(db: Db, notes: seq<Note>, now: Time, step: Sending)
    requires MembersRef(db) && KeysUnique(db) && CountersAgree(db, notes) && step.ToUser?
    ensures CountersAgree(ApplySending(db, now, step).db, notes + NotedSending(db, now, step))
  {
    var ToUser(sender, receiver, uploads, newId, id) := step;
    match GetOrCreatePrivate(db, sender, [receiver], newId)
    case Denied(_) =>
      assert notes + [] == notes;
    case Found(c) => StoreReadCounters(db, notes, ReadPrivate(db, c, sender, receiver), uploads, id, now);
    case Created(_, _) => OpenedThenSentCounters(db, notes, sender, receiver, uploads, newId, id, now);
  }

  lemma SendingCounters(db: Db, notes: seq<Note>, now: Time, step: Sending)
    requires MembersRef(db) && KeysUnique(db) && CountersAgree(db, notes)
    ensures CountersAgree(ApplySending(db, now, step).db, notes + NotedSending(db, now, step))
  {
    match step
    case ToGroup(sender, c, uploads, id) =>
      StoreReadCounters(db, notes, ReadGroup(db, sender, c), uploads, id, now);
      assert notes + [] == notes;
    case ToUser(_, _, _, _, _) => ToUserCounters(db, notes, now, step);
    case Store(r, uploads, id) => StoreReadCounters(db, notes, r, uploads, id, now);
  }

  lemma OpenCounters(db: Db, notes: seq<Note>, creator: Uuid, other: Uuid, id: Uuid)
    requires MembersRef(db) && KeysUnique(db) && CountersAgree(db, notes)
    ensures var step := DoOpen(creator, other, id);
            CountersAgree(ApplyJoining(db, 0, step), notes + NotedJoining(db, 0, step))
  {
    OpenIsCreate(db, creator, other, id);
    if OpenPrivate(db, PairKey(creator, other), NormalizeMembers(creator, [other]), id).Some? {
      OpenedCounters(db, notes, creator, other, id);
      assert notes + [Born(id, creator)] + [Born(id, other)] == notes + [Born(id, creator), Born(id, other)];
    } else {
      assert notes + [] == notes;
    }
  }

  lemma AcceptCounters(db: Db, notes: seq<Note>, now: Time, c: Uuid, u: Uuid, which: nat)
    requires InvitesToGroups(db) && CountersAgree(db, notes)
    ensures var db' := Accept(db, c, u, now, which).db;
            CountersAgree(db', notes + (if (c, u) !in db.members && (c, u) in db'.members then [Born(c, u)] else []))
  {
    var db' := Accept(db, c, u, now, which).db;
    AcceptOutcomes(db, c, u, now, which);
    assert notes + [] == notes;
    if (c, u) !in db.members && (c, u) in db'.members {
      BornCounters(db, db', notes, c, u);
    } else {
      CountersUntouched(db, db', notes);
    }
  }

  lemma CreateGroupCounters(db: Db, notes: seq<Note>, owner: Uuid, id: Uuid)
    requires CountersAgree(db, notes)
    ensures CountersAgree(CreateGroup(db, owner, id).db, notes + NotedJoining(db, 0, DoCreateGroup(owner, id)))
  {
    assert notes + [] == notes;
    if CreateGroup(db, owner, id).refusal.None? {
      BornCounters(db, CreateGroup(db, owner, id).db, notes, id, owner);
    }
  }

  lemma JoiningCounters(db: Db, notes: seq<Note>, now: Time, step: Joining)
    requires MembersRef(db) && KeysUnique(db) && InvitesToGroups(db) && CountersAgree(db, notes)
    ensures CountersAgree(ApplyJoining(db, now, step), notes + NotedJoining(db, now, step))
  {
    match step
    case DoOpen(creator, other, id) => OpenCounters(db, notes, creator, other, id);
    case DoCreateGroup(owner, id) => CreateGroupCounters(db, notes, owner, id);
    case DoAccept(c, u, which) => AcceptCounters(db, notes, now, c, u, which);
    case _ =>
      assert notes + [] == notes;
      CountersUntouched(db, ApplyJoining(db, now, step), notes);
  }

  lemma ReceiptCounters(db: Db, notes: seq<Note>, step: Receipt)
    requires CountersAgree(db, notes)
    ensures CountersAgree(ApplyReceipt(db, step), notes + NotedReceipt(db, step))
  {
    assert notes + [] == notes;
    match step
    case DoResetUnread(c, u) => ZeroedCounters(db, notes, c, u);
    case DoConfirm(u, c, message, status) => ZeroedCounters(db, notes, c, u);
    case DoSync(_) =>
    case DoMark(_, _) =>
  }

  lemma DeletePrivateCounters(db: Db, notes: seq<Note>, u: Uuid, c: Uuid, now: Time)
    requires CountersAgree(db, notes)
    ensures CountersAgree(DeletePrivate(db, u, c, now).db, notes)
  {
  }

  lemma DepartureCounters(db: Db, notes: seq<Note>, now: Time, step: Parting)
    requires CountersAgree(db, notes) && !step.DoDeletePrivate? && !step.DoDeleteGroup?
    ensures CountersAgree(ApplyParting(db, now, step), notes)
  {
    CountersUntouched(db, ApplyParting(db, now, step), notes);
  }

  lemma DeleteGroupCounters(db: Db, notes: seq<Note>, u: Uuid, c: Uuid)
    requires CountersAgree(db, notes)
    ensures CountersAgree(DeleteGroup(db, u, c).db, notes)
  {
    CountersUntouched(db, DropConversations(db, {c}), notes);
  }

  lemma PartingCounters(db: Db, notes: seq<Note>, now: Time, step: Parting)
    requires CountersAgree(db, notes)
    ensures CountersAgree(ApplyParting(db, now, step), notes)
  {
    match step
    case DoDeletePrivate(u, c) => DeletePrivateCounters(db, notes, u, c, now);
    case DoDeleteGroup(u, c) => DeleteGroupCounters(db, notes, u, c);
    case _ => DepartureCounters(db, notes, now, step);
  }

  lemma UpkeepCounters(db: Db, notes: seq<Note>, now: Time, step: Upkeep)
    requires CountersAgree(db, notes)
    ensures CountersAgree(ApplyUpkeep(db, now, step), notes)
  {
  }

  lemma StepKeepsCounters(db: Db, notes: seq<Note>, now: Time, step: Step)
    requires MembersRef(db) && KeysUnique(db) && InvitesToGroups(db) && CountersAgree(db, notes)
    ensures CountersAgree(Apply(db, now, step), notes + Noted(db, now, step))
  {
    assert notes + [] == notes;
    match step
    case Tick(_) =>
    case Read(_) =>
    case Join(j) => JoiningCounters(db, notes, now, j);
    case Part(p) => PartingCounters(db, notes, now, p);
    case Send(m) => SendingCounters(db, notes, now, m);
    case Receive(r) => ReceiptCounters(db, notes, r);
    case Maintain(u) => UpkeepCounters(db, notes, now, u);
  }

  // -------------------------------------------------------- deliveries and files

  lemma FinishedKeepsDeliveries(db: Db, db': Db, r: Reading, uploads: seq<Uuid>, id: Uuid, now: Time)
    requires DeliveriesOk(db) && DeliveriesOk(db')
    ensures OneDeliveryEach(Finished(db, CommitMessage(db', r.c, r.sender, r.snapshot, uploads, id, now)).db)
  {
    if CommitMessage(db', r.c, r.sender, r.snapshot, uploads, id, now).Ok? {
      CommitDeliversToSnapshot(db', r.c, r.sender, r.snapshot, uploads, id, now);
    }
  }

  lemma StoreReadKeepsDeliveries(db: Db, r: Reading, uploads: seq<Uuid>, id: Uuid, now: Time)
    requires DeliveriesOk(db)
    ensures OneDeliveryEach(StoreRead(db, r, uploads, id, now).db)
  {
    RestoredRows(db, r, now);
    FinishedKeepsDeliveries(db, Restored(db, r, now), r, uploads, id, now);
  }

  ghost predicate DeliveriesOk(db: Db) {
    OneDeliveryEach(db) && forall d <- db.deliveries :: d.message in db.messages
  }

  lemma SendPrivateKeepsDeliveries(db: Db, sender: Uuid, receiver: Uuid, uploads: seq<Uuid>, newId: Uuid, id: Uuid,
                                   now: Time)
    requires KeysUnique(db) && DeliveriesOk(db)
    ensures OneDeliveryEach(SendPrivate(db, sender, receiver, uploads, newId, id, now).db)
  {
    match GetOrCreatePrivate(db, sender, [receiver], newId)
    case Denied(_) =>
    case Found(c) => StoreReadKeepsDeliveries(db, ReadPrivate(db, c, sender, receiver), uploads, id, now);
    case Created(c, db') => StoreReadKeepsDeliveries(db', ReadPrivate(db', c, sender, receiver), uploads, id, now);
  }

  lemma SendingKeepsDeliveries(db: Db, now: Time, step: Sending)
    requires KeysUnique(db) && DeliveriesOk(db)
    ensures OneDeliveryEach(ApplySending(db, now, step).db)
  {
    match step
    case ToGroup(sender, c, uploads, id) => StoreReadKeepsDeliveries(db, ReadGroup(db, sender, c), uploads, id, now);
    case Store(r, uploads, id) => StoreReadKeepsDeliveries(db, r, uploads, id, now);
    case ToUser(sender, receiver, uploads, newId, id) =>
      SendPrivateKeepsDeliveries(db, sender, receiver, uploads, newId, id, now);
  }

  lemma PartingKeepsDeliveries(db: Db, now: Time, step: Parting)
    requires OneDeliveryEach(db)
    ensures OneDeliveryEach(ApplyParting(db, now, step))
  {
    match step
    case DoDeleteGroup(u, c) => DropKeepsDeliveries(db, MessagesIn(db, {c}));
    case DoDeletePrivate(u, c) => DropKeepsDeliveries(SoftDelete(db, c, u, now), MessagesIn(db, {c}));
    case _ =>
  }

  lemma UpkeepKeepsDeliveries(db: Db, now: Time, step: Upkeep)
    requires OneDeliveryEach(db)
    ensures OneDeliveryEach(ApplyUpkeep(db, now, step))
  {
    match step
    case DoDeleteMessages(c, ids) =>
      DropKeepsDeliveries(db, set m | m in db.messages && m in ids && db.messages[m].conversation == c);
    case DoDeleteUser(u) => DropKeepsDeliveries(db, MessagesIn(db, Orphaned(db, u)));
    case _ =>
  }

  lemma ReceiptKeepsDeliveries(db: Db, step: Receipt)
    requires OneDeliveryEach(db)
    ensures OneDeliveryEach(ApplyReceipt(db, step))
  {
  }

  lemma StepKeepsDeliveries(db: Db, now: Time, step: Step)
    requires KeysUnique(db) && DeliveriesOk(db)
    ensures OneDeliveryEach(Apply(db, now, step))
  {
    match step
    case Tick(_) =>
    case Read(_) =>
    case Join(j) => JoiningLeavesFiles(db, now, j);
    case Part(p) => PartingKeepsDeliveries(db, now, p);
    case Send(m) => SendingKeepsDeliveries(db, now, m);
    case Receive(r) => ReceiptKeepsDeliveries(db, r);
    case Maintain(u) => UpkeepKeepsDeliveries(db, now, u);
  }

  // The message names no upload twice.
  predicate NamesOnce(step: Step) {
    step.Send? ==> Distinct(step.sending.uploads, (u: Uuid) => u)
  }

  lemma FinishedKeepsFilesOk(db: Db, db': Db, r: Reading, uploads: seq<Uuid>, id: Uuid, now: Time,
                             lost: set<StorageKey>)
    requires FilesOk(db, lost) && FilesOk(db', lost) && Distinct(uploads, (u: Uuid) => u)
    ensures FilesOk(Finished(db, CommitMessage(db', r.c, r.sender, r.snapshot, uploads, id, now)).db, lost)
  {
    if CommitMessage(db', r.c, r.sender, r.snapshot, uploads, id, now).Ok? {
      CommitKeepsFilesOkIff(db', r.c, r.sender, r.snapshot, uploads, id, now, lost);
    }
  }

  lemma StoreReadKeepsFilesOk(db: Db, r: Reading, uploads: seq<Uuid>, id: Uuid, now: Time, lost: set<StorageKey>)
    requires FilesOk(db, lost) && Distinct(uploads, (u: Uuid) => u)
    ensures FilesOk(StoreRead(db, r, uploads, id, now).db, lost)
  {
    RestoredRows(db, r, now);
    SameFilesOk(db, Restored(db, r, now), lost);
    FinishedKeepsFilesOk(db, Restored(db, r, now), r, uploads, id, now, lost);
  }

  lemma SendPrivateKeepsFilesOk(db: Db, sender: Uuid, receiver: Uuid, uploads: seq<Uuid>, newId: Uuid, id: Uuid,
                                now: Time, lost: set<StorageKey>)
    requires KeysUnique(db) && FilesOk(db, lost) && Distinct(uploads, (u: Uuid) => u)
    ensures FilesOk(SendPrivate(db, sender, receiver, uploads, newId, id, now).db, lost)
  {
    match GetOrCreatePrivate(db, sender, [receiver], newId)
    case Denied(_) =>
    case Found(c) => StoreReadKeepsFilesOk(db, ReadPrivate(db, c, sender, receiver), uploads, id, now, lost);
    case Created(c, db') =>
      SameFilesOk(db, db', lost);
      StoreReadKeepsFilesOk(db', ReadPrivate(db', c, sender, receiver), uploads, id, now, lost);
  }

  lemma SendingKeepsFilesOk(db: Db, now: Time, step: Sending, lost: set<StorageKey>)
    requires KeysUnique(db) && FilesOk(db, lost) && Distinct(step.uploads, (u: Uuid) => u)
    ensures FilesOk(ApplySending(db, now, step).db, lost)
  {
    match step
    case ToGroup(sender, c, uploads, id) => StoreReadKeepsFilesOk(db, ReadGroup(db, sender, c), uploads, id, now, lost);
    case ToUser(sender, receiver, uploads, newId, id) =>
      SendPrivateKeepsFilesOk(db, sender, receiver, uploads, newId, id, now, lost);
    case Store(r, uploads, id) => StoreReadKeepsFilesOk(db, r, uploads, id, now, lost);
  }

  lemma PartingLeavesFiles(db: Db, now: Time, step: Parting)
    requires !step.DoDeleteGroup? && !step.DoDeletePrivate?
    ensures var db' := ApplyParting(db, now, step);
            db'.attachments == db.attachments && db'.uploads == db.uploads && db'.files == db.files
            && db'.deliveries == db.deliveries
  {
  }

  lemma DeletePrivateKeepsFilesOk(db: Db, u: Uuid, c: Uuid, now: Time, lost: set<StorageKey>)
    requires FilesOk(db, lost)
    ensures FilesOk(DeletePrivate(db, u, c, now).db, lost)
  {
    SameFilesOk(db, SoftDelete(db, c, u, now), lost);
    DropKeepsFilesOk(SoftDelete(db, c, u, now), MessagesIn(SoftDelete(db, c, u, now), {c}), lost);
  }

  lemma PartingKeepsFilesOk(db: Db, now: Time, step: Parting, lost: set<StorageKey>)
    requires FilesOk(db, lost)
    ensures FilesOk(ApplyParting(db, now, step), lost)
  {
    match step
    case DoDeleteGroup(u, c) => DropKeepsFilesOk(db, MessagesIn(db, {c}), lost);
    case DoDeletePrivate(u, c) => DeletePrivateKeepsFilesOk(db, u, c, now, lost);
    case _ =>
      PartingLeavesFiles(db, now, step);
      SameFilesOk(db, ApplyParting(db, now, step), lost);
  }

  lemma SameFilesOk(db: Db, db': Db, lost: set<StorageKey>)
    requires FilesOk(db, lost) && db'.attachments == db.attachments && db'.uploads == db.uploads
    requires db.files <= db'.files
    ensures FilesOk(db', lost)
  {
  }

  lemma UpkeepKeepsFilesOk(db: Db, now: Time, step: Upkeep, lost: set<StorageKey>)
    requires FilesOk(db, lost)
    ensures FilesOk(ApplyUpkeep(db, now, step), lost)
  {
    match step
    case AddUser(_, _) => SameFilesOk(db, ApplyUpkeep(db, now, step), lost);
    case PutFile(_) => SameFilesOk(db, ApplyUpkeep(db, now, step), lost);
    case DoPrepare(user, f) =>
      if f.upload !in db.uploads && !KeyInUse(db, StorageKey(user, f.file)) {
        PrepareKeepsFilesOk(db, user, f, now, lost);
      }
    case DoDeleteMessages(c, ids) =>
      DropKeepsFilesOk(db, (set m | m in db.messages && m in ids && db.messages[m].conversation == c), lost);
    case DoDeleteUser(u) => DeleteUserKeepsFilesOk(db, u, lost);
  }

  lemma JoiningLeavesFiles(db: Db, now: Time, step: Joining)
    ensures var db' := ApplyJoining(db, now, step);
            db'.attachments == db.attachments && db'.uploads == db.uploads && db'.files == db.files
            && db'.deliveries == db.deliveries
  {
  }

  lemma JoiningKeepsFilesOk(db: Db, now: Time, step: Joining, lost: set<StorageKey>)
    requires FilesOk(db, lost)
    ensures FilesOk(ApplyJoining(db, now, step), lost)
  {
  }

  lemma ReceiptKeepsFilesOk(db: Db, step: Receipt, lost: set<StorageKey>)
    requires FilesOk(db, lost)
    ensures FilesOk(ApplyReceipt(db, step), lost)
  {
  }

  lemma StepKeepsFilesOk(db: Db, now: Time, step: Step, lost: set<StorageKey>)
    requires KeysUnique(db) && FilesOk(db, lost) && NamesOnce(step)
    ensures FilesOk(Apply(db, now, step), lost)
  {
    match step
    case Tick(_) =>
    case Read(_) =>
    case Join(j) => JoiningKeepsFilesOk(db, now, j, lost);
    case Part(p) => PartingKeepsFilesOk(db, now, p, lost);
    case Send(m) => SendingKeepsFilesOk(db, now, m, lost);
    case Receive(r) => ReceiptKeepsFilesOk(db, r, lost);
    case Maintain(u) => UpkeepKeepsFilesOk(db, now, u, lost);
  }

  // ------------------------------------------------------------------- every run

  ghost predicate WorldOk(w: World) {
    Sound(w.db) && OneDeliveryEach(w.db) && CountersAgree(w.db, w.notes)
  }

  lemma NextKeepsWorldOk(w: World, step: Step)
    requires WorldOk(w)
    ensures WorldOk(Next(w, step))
  {
    StepKeepsSound(w.db, w.now, step);
    StepKeepsDeliveries(w.db, w.now, step);
    StepKeepsCounters(w.db, w.notes, w.now, step);
  }

  ghost function Exec(w: World, steps: seq<Step>): World
    requires WorldOk(w)
    decreases |steps|
  {
    if steps == [] then w else
    NextKeepsWorldOk(w, steps[0]);
    Exec(Next(w, steps[0]), steps[1..])
  }

  lemma ExecFirst(w: World, first: Step, rest: seq<Step>)
    requires WorldOk(w)
    ensures WorldOk(Next(w, first)) && Exec(w, [first] + rest) == Exec(Next(w, first), rest)
  {
    NextKeepsWorldOk(w, first);
    assert ([first] + rest)[1..] == rest;
  }

  lemma ReadHappens(w: World, r: Reading, rest: seq<Step>)
    requires WorldOk(w) && ReadsNow(w.db, r)
    ensures var w' := w.(read := w.read + {r});
            WorldOk(w') && Exec(w, [Step.Read(r)] + rest) == Exec(w', rest)
  {
    ExecFirst(w, Step.Read(r), rest);
    assert w.notes + [] == w.notes;
  }

  lemma PartHappens(w: World, p: Parting, rest: seq<Step>)
    requires WorldOk(w)
    ensures var w' := w.(db := ApplyParting(w.db, w.now, p));
            WorldOk(w') && Exec(w, [Part(p)] + rest) == Exec(w', rest)
  {
    ExecFirst(w, Part(p), rest);
    assert w.notes + [] == w.notes;
  }

  lemma StoreHappens(w: World, r: Reading, uploads: seq<Uuid>, id: Uuid)
    requires WorldOk(w) && r in w.read
    ensures Exec(w, [Send(Store(r, uploads, id))]).db == StoreRead(w.db, r, uploads, id, w.now).db
  {
    var step := Send(Store(r, uploads, id));
    ExecFirst(w, step, []);
    assert [step] + [] == [step];
  }

  // A reading, then somebody's departure, then the transaction that rests on the reading.
  function Overtaken(r: Reading, p: Parting, uploads: seq<Uuid>, id: Uuid): seq<Step> {
    [Step.Read(r)] + ([Part(p)] + [Send(Store(r, uploads, id))])
  }

  lemma OvertakenRun(w: World, r: Reading, p: Parting, uploads: seq<Uuid>, id: Uuid)
    requires WorldOk(w) && ReadsNow(w.db, r)
    ensures Exec(w, Overtaken(r, p, uploads, id)).db ==
              StoreRead(ApplyParting(w.db, w.now, p), r, uploads, id, w.now).db
  {
    var store := [Send(Store(r, uploads, id))];
    ReadHappens(w, r, [Part(p)] + store);
    var read := w.(read := w.read + {r});
    PartHappens(read, p, store);
    StoreHappens(read.(db := ApplyParting(read.db, read.now, p)), r, uploads, id);
  }

  // In every run, user deletions included: foreign keys hold after cascades, the
  // last message is one of its conversation, no conversation is empty, every OWNER
  // row is the one the log names, private conversations are pairs under unique
  // keys, (message, user) is unique, and unread counters count.
  lemma {:induction false} RunKeepsWorldOk(w: World, steps: seq<Step>)
    requires WorldOk(w)
    ensures WorldOk(Exec(w, steps))
    decreases |steps|
  {
    if steps != [] {
      NextKeepsWorldOk(w, steps[0]);
      RunKeepsWorldOk(Next(w, steps[0]), steps[1..]);
    }
  }

  lemma {:induction false} RunKeepsOwned(w: World, steps: seq<Step>)
    requires WorldOk(w) && GroupsAreOwned(w.db) && forall step <- steps :: !DeletesUser(step)
    ensures GroupsAreOwned(Exec(w, steps).db)
    decreases |steps|
  {
    if steps != [] {
      NextKeepsWorldOk(w, steps[0]);
      StepKeepsSound(w.db, w.now, steps[0]);
      RunKeepsOwned(Next(w, steps[0]), steps[1..]);
    }
  }

  // Exactly one OWNER row, live, of the user the log names.
  ghost predicate HasOneOwner(db: Db, c: Uuid) {
    exists owner :: OwnerOf(db.events, c) == Some(owner)
      && (forall u :: OwnedBy(db, c, u) <==> u == owner)
      && (c, owner) in db.members && db.members[(c, owner)].softDeletedAt.None?
  }

  lemma OwnedHasOneOwner(db: Db, c: Uuid)
    requires OwnersAreLogged(db) && IsOwned(db, c)
    ensures HasOneOwner(db, c)
  {
    var owner := OwnerOf(db.events, c).value;
    assert forall u :: OwnedBy(db, c, u) <==> u == owner;
  }

  // Without user deletion every group has exactly one OWNER row, that row is live
  // and belongs to the user the event log names.
  lemma {:induction false} GroupsHaveOneOwner(w: World, steps: seq<Step>, c: Uuid)
    requires WorldOk(w) && GroupsAreOwned(w.db) && forall step <- steps :: !DeletesUser(step)
    requires c in Exec(w, steps).db.conversations && Exec(w, steps).db.conversations[c].kind.Group?
    ensures HasOneOwner(Exec(w, steps).db, c)
  {
    RunKeepsWorldOk(w, steps);
    RunKeepsOwned(w, steps);
    OwnedHasOneOwner(Exec(w, steps).db, c);
  }

  // With user deletion a group has at most one, and then still the logged one.
  lemma {:induction false} GroupsHaveAtMostOneOwner(w: World, steps: seq<Step>, c: Uuid, u: Uuid, v: Uuid)
    requires WorldOk(w)
    requires OwnedBy(Exec(w, steps).db, c, u) && OwnedBy(Exec(w, steps).db, c, v)
    ensures u == v && OwnerOf(Exec(w, steps).db.events, c) == Some(u)
  {
    RunKeepsWorldOk(w, steps);
  }

  // A private conversation has at most two members and none of them is an owner.
  lemma {:induction false} PrivateConversationsHoldTwo(w: World, steps: seq<Step>, c: Uuid)
    requires WorldOk(w)
    requires c in Exec(w, steps).db.conversations && Exec(w, steps).db.conversations[c].kind.Private?
    ensures exists a, b :: IsPair(Exec(w, steps).db, c, a, b)
    ensures |AllMembers(Exec(w, steps).db, c)| <= 2
    ensures forall u :: !OwnedBy(Exec(w, steps).db, c, u)
  {
    RunKeepsWorldOk(w, steps);
    var db := Exec(w, steps).db;
    var a, b :| IsPair(db, c, a, b);
    forall u | u in AllMembers(db, c) ensures u in {a, b} {
      assert (c, u) in db.members;
    }
    AtMostTwo(AllMembers(db, c), a, b);
  }

  lemma AtMostTwo(ids: set<Uuid>, a: Uuid, b: Uuid)
    requires ids <= {a, b}
    ensures |ids| <= 2
  {
    assert ids == {} || ids == {a} || ids == {b} || ids == {a, b};
  }

  // Two private conversations never stand for the same two people, whoever started them.
  lemma {:induction false} PrivateConversationsAreUnique(w: World, steps: seq<Step>, c: Uuid, d: Uuid, a: Uuid, b: Uuid)
    requires WorldOk(w)
    requires IsPair(Exec(w, steps).db, c, a, b) && IsPair(Exec(w, steps).db, d, b, a)
    ensures c == d
  {
    RunKeepsWorldOk(w, steps);
    PairKeyIsThePair(a, b, b, a);
  }

  // If no message names an upload twice, then in every run a storage key is in one
  // row at most and every attached file is in the bucket, except those that were
  // missing before.
  lemma {:induction false} FilesAgree(w: World, steps: seq<Step>, lost: set<StorageKey>)
    requires WorldOk(w) && FilesOk(w.db, lost)
    requires forall step <- steps :: NamesOnce(step)
    ensures FilesOk(Exec(w, steps).db, lost)
    decreases |steps|
  {
    if steps != [] {
      NextKeepsWorldOk(w, steps[0]);
      StepKeepsFilesOk(w.db, w.now, steps[0], lost);
      FilesAgree(Next(w, steps[0]), steps[1..], lost);
    }
  }

  lemma StartIsOk()
    ensures WorldOk(START) && GroupsAreOwned(START.db) && FilesOk(START.db, {})
  {
  }

  // Whoever of the two starts second finds the conversation the first one opened.
  lemma FoundWhicheverSideStarts(db: Db, a: Uuid, b: Uuid, id: Uuid, other: Uuid)
    requires Sound(db)
    requires var r := GetOrCreatePrivate(db, a, [b], id); r.Created?
    ensures var db' := GetOrCreatePrivate(db, a, [b], id).db;
            KeysUnique(db') && GetOrCreatePrivate(db', b, [a], other) == Found(id)
  {
    var db' := GetOrCreatePrivate(db, a, [b], id).db;
    CreatePrivateKeepsSound(db, a, b, id);
    NewPrivateMembers(db, a, b, id);
    PairKeyIsThePair(a, b, b, a);
    assert HasKey(db', id, PairKey(b, a));
    var found := FindByPrivateKey(db', PairKey(b, a));
    assert |NormalizeMembers(b, [a])| <= 2;
  }

  // As long as their conversation exists, both find it, whatever has happened since.
  lemma FoundAsLongAsItExists(w: World, steps: seq<Step>, c: Uuid, a: Uuid, b: Uuid, id: Uuid)
    requires WorldOk(w) && IsPair(Exec(w, steps).db, c, a, b)
    ensures var db := Exec(w, steps).db;
            && KeysUnique(db)
            && GetOrCreatePrivate(db, a, [b], id) == Found(c) && GetOrCreatePrivate(db, b, [a], id) == Found(c)
  {
    RunKeepsWorldOk(w, steps);
    FoundInState(Exec(w, steps).db, c, a, b, id);
    PairKeyIsThePair(a, b, b, a);
    FoundInState(Exec(w, steps).db, c, b, a, id);
  }

  lemma FoundInState(db: Db, c: Uuid, a: Uuid, b: Uuid, id: Uuid)
    requires KeysUnique(db) && HasKey(db, c, PairKey(a, b))
    ensures GetOrCreatePrivate(db, a, [b], id) == Found(c)
  {
    var found := FindByPrivateKey(db, PairKey(a, b));
    assert |NormalizeMembers(a, [b])| <= 2;
  }
}
