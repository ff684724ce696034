/**
 * Who may do what and what comes of it, in terms of rows: whom a message reaches,
 * who may delete or hand over a group, what an answer or a departure leaves, and
 * what the deletion of a user takes from others.
 */
module Outcomes {
  import opened Prelude
  import opened Tables
  import opened Store
  import opened PrivateKeys
  import opened Groups
  import opened Messaging
  import opened Integrity
  import opened Bookkeeping
  import opened Memberships
  import opened SerialRuns
  import opened Frames

  // ------------------------------------------------------------- whom a message reaches

  predicate IsGroup(db: Db, c: Uuid) {
    c in db.conversations && db.conversations[c].kind.Group?
  }

  // Sending to a group succeeds exactly for a live member who exists, with an id that
  // is new and uploads that can be attached.
  lemma SendGroupIff(db: Db, sender: Uuid, c: Uuid, uploads: seq<Uuid>, id: Uuid, now: Time)
    ensures SendGroup(db, sender, c, uploads, id, now).error.None? <==>
              && IsGroup(db, c) && IsLive(db, c, sender) && sender in db.users && id !in db.messages
              && forall u <- uploads :: Usable(db, sender, u, now)
  {
    CommitsIff(db, c, sender, ActiveMembers(db, c), uploads, id, now);
  }

  lemma ActiveIsLive(db: Db, c: Uuid, u: Uuid)
    ensures u in ActiveMembers(db, c) <==> IsLive(db, c, u)
    ensures u in AllMembers(db, c) <==> (c, u) in db.members
  {
    assert (c, u) in db.members ==> (c, u).0 == c;
  }

  // The message row, and the pointer to it.
  ghost predicate Records(db: Db, db': Db, c: Uuid, sender: Uuid, id: Uuid, now: Time) {
    && db'.messages == db.messages[id := Message(c, Some(sender), now)]
    && c in db'.conversations && db'.conversations[c].lastMessage == Some(id)
  }

  // New deliveries are those of the message, one SENT row for each recipient.
  ghost predicate Delivers(db: Db, db': Db, id: Uuid, recipients: iset<Uuid>) {
    && db.deliveries <= db'.deliveries
    && (forall u: Uuid :: Delivery(id, u, Sent) in db'.deliveries <==> u in recipients)
    && (forall d <- db'.deliveries :: d.message == id ==> d.status.Sent?)
  }

  // Counters of recipients go up by one, and no other counter changes.
  ghost predicate Counts(db: Db, db': Db, c: Uuid, recipients: iset<Uuid>) {
    forall k <- db.members :: k in db'.members && db'.members[k].unread ==
      if k.0 == c && k.1 in recipients then db.members[k].unread + 1 else db.members[k].unread
  }

  ghost predicate Reaches(db: Db, db': Db, c: Uuid, sender: Uuid, id: Uuid, now: Time, recipients: iset<Uuid>) {
    Records(db, db', c, sender, id, now) && Delivers(db, db', id, recipients) && Counts(db, db', c, recipients)
  }

  ghost function Recipients(r: Reading): iset<Uuid> {
    iset u | u in r.snapshot && u != r.sender
  }

  lemma StoredRecords(db: Db, r: Reading, uploads: seq<Uuid>, id: Uuid, now: Time)
    requires StoreRead(db, r, uploads, id, now).error.None?
    ensures Records(db, StoreRead(db, r, uploads, id, now).db, r.c, r.sender, id, now)
  {
    RestoredRows(db, r, now);
    CommitIsAttach(Restored(db, r, now), r.c, r.sender, r.snapshot, uploads, id, now);
  }

  lemma StoredDelivers(db: Db, r: Reading, uploads: seq<Uuid>, id: Uuid, now: Time)
    requires DeliveriesOk(db) && StoreRead(db, r, uploads, id, now).error.None?
    ensures Delivers(db, StoreRead(db, r, uploads, id, now).db, id, Recipients(r))
  {
    RestoredRows(db, r, now);
    CommitDeliversToSnapshot(Restored(db, r, now), r.c, r.sender, r.snapshot, uploads, id, now);
  }

  lemma UnreadAfter(db: Db, r: Reading, k: (Uuid, Uuid), now: Time)
    requires k in db.members
    ensures RowAfter(db, r, k, now).unread ==
              if k.0 == r.c && k.1 in Recipients(r) then db.members[k].unread + 1 else db.members[k].unread
  {
  }

  lemma StoredCounts(db: Db, r: Reading, uploads: seq<Uuid>, id: Uuid, now: Time)
    requires StoreRead(db, r, uploads, id, now).error.None?
    ensures Counts(db, StoreRead(db, r, uploads, id, now).db, r.c, Recipients(r))
  {
    var db' := StoreRead(db, r, uploads, id, now).db;
    RowsAfterMessage(db, r, uploads, id, now);
    CountsFromRows(db, db', r, now);
  }

  lemma CountsFromRows(db: Db, db': Db, r: Reading, now: Time)
    requires db'.members.Keys == db.members.Keys && forall k <- db.members :: db'.members[k] == RowAfter(db, r, k, now)
    ensures Counts(db, db', r.c, Recipients(r))
  {
    forall k <- db.members { UnreadAfter(db, r, k, now); }
  }

  // A send transaction over any reading reaches the recipients as read.
  lemma StoredReaches(db: Db, r: Reading, uploads: seq<Uuid>, id: Uuid, now: Time, recipients: iset<Uuid>)
    requires DeliveriesOk(db) && StoreRead(db, r, uploads, id, now).error.None? && recipients == Recipients(r)
    ensures Reaches(db, StoreRead(db, r, uploads, id, now).db, r.c, r.sender, id, now, recipients)
  {
    StoredRecords(db, r, uploads, id, now);
    StoredDelivers(db, r, uploads, id, now);
    StoredCounts(db, r, uploads, id, now);
  }

  lemma ReadingReaches(db: Db, r: Reading, c: Uuid, sender: Uuid, uploads: seq<Uuid>, id: Uuid, now: Time,
                       recipients: iset<Uuid>)
    requires DeliveriesOk(db) && StoreRead(db, r, uploads, id, now).error.None?
    requires r.c == c && r.sender == sender && recipients == Recipients(r)
    ensures Reaches(db, StoreRead(db, r, uploads, id, now).db, c, sender, id, now, recipients)
  {
    StoredReaches(db, r, uploads, id, now, recipients);
  }

  lemma GroupRecipients(db: Db, sender: Uuid, c: Uuid)
    ensures Recipients(ReadGroup(db, sender, c)) == iset u | IsLive(db, c, u) && u != sender
  {
    forall u: Uuid { ActiveIsLive(db, c, u); }
  }

  lemma PrivateRecipients(db: Db, c: Uuid, sender: Uuid, receiver: Uuid)
    ensures Recipients(ReadPrivate(db, c, sender, receiver)) == iset u | (c, u) in db.members && u != sender
  {
    forall u: Uuid { ActiveIsLive(db, c, u); }
  }

  // A group message reaches the live members and nobody else: not its sender, not who
  // has left or been removed.
  lemma GroupMessageReaches(db: Db, sender: Uuid, c: Uuid, uploads: seq<Uuid>, id: Uuid, now: Time)
    requires DeliveriesOk(db) && SendGroup(db, sender, c, uploads, id, now).error.None?
    ensures Reaches(db, SendGroup(db, sender, c, uploads, id, now).db, c, sender, id, now,
                    iset u | IsLive(db, c, u) && u != sender)
  {
    GroupRecipients(db, sender, c);
    StoredReaches(db, ReadGroup(db, sender, c), uploads, id, now, iset u | IsLive(db, c, u) && u != sender);
  }

  // A message into a private conversation reaches whoever has a row in it, hidden or not.
  lemma MessageIntoReaches(db: Db, c: Uuid, sender: Uuid, receiver: Uuid, uploads: seq<Uuid>, id: Uuid, now: Time)
    requires DeliveriesOk(db) && SendInto(db, c, sender, receiver, uploads, id, now).error.None?
    ensures Reaches(db, SendInto(db, c, sender, receiver, uploads, id, now).db, c, sender, id, now,
                    iset u | (c, u) in db.members && u != sender)
  {
    PrivateRecipients(db, c, sender, receiver);
    ReadingReaches(db, ReadPrivate(db, c, sender, receiver), c, sender, uploads, id, now,
                   iset u | (c, u) in db.members && u != sender);
  }

  predicate CanStore(db: Db, c: Uuid, sender: Uuid, uploads: seq<Uuid>, id: Uuid, now: Time) {
    c in db.conversations && sender in db.users && id !in db.messages
    && forall u <- uploads :: Usable(db, sender, u, now)
  }

  lemma StoreReadIff(db: Db, r: Reading, uploads: seq<Uuid>, id: Uuid, now: Time)
    ensures StoreRead(db, r, uploads, id, now).error.None? <==> CanStore(db, r.c, r.sender, uploads, id, now)
  {
    var two := Restored(db, r, now);
    RestoredRows(db, r, now);
    CommitsIff(two, r.c, r.sender, r.snapshot, uploads, id, now);
    assert forall u <- uploads :: Usable(two, r.sender, u, now) <==> Usable(db, r.sender, u, now);
  }

  ghost predicate IsTaken(db: Db, key: Digest) {
    exists c :: HasKey(db, c, key)
  }

  lemma FindOrOpenIff(db: Db, key: Digest, unique: seq<Uuid>, id: Uuid)
    requires KeysUnique(db)
    ensures var r := FindOrOpen(db, key, unique, id);
            && (r.Found? <==> IsTaken(db, key))
            && (r.Found? ==> HasKey(db, r.c, key))
            && (r.Created? <==> !IsTaken(db, key) && id !in db.conversations && forall u <- unique :: u in db.users)
            && (r.Created? ==> r.c == id && r.db == db.(conversations := r.db.conversations, members := r.db.members)
                               && id in r.db.conversations)
  {
  }

  lemma OneOrTwo(a: Uuid, b: Uuid)
    ensures |NormalizeMembers(a, [b])| <= 2
    ensures forall u :: u in NormalizeMembers(a, [b]) <==> u == a || u == b
  {
  }

  lemma OpensIff(db: Db, sender: Uuid, receiver: Uuid, newId: Uuid)
    requires KeysUnique(db)
    ensures var r, key := GetOrCreatePrivate(db, sender, [receiver], newId), PairKey(sender, receiver);
            && (r.Found? <==> IsTaken(db, key))
            && (r.Found? ==> HasKey(db, r.c, key))
            && (r.Created? <==>
                  !IsTaken(db, key) && newId !in db.conversations && sender in db.users && receiver in db.users)
            && (r.Created? ==> r.c == newId && r.db == db.(conversations := r.db.conversations, members := r.db.members)
                               && newId in r.db.conversations)
  {
    OneOrTwo(sender, receiver);
    var unique := NormalizeMembers(sender, [receiver]);
    FindOrOpenIff(db, PairKey(sender, receiver), unique, newId);
    assert GetOrCreatePrivate(db, sender, [receiver], newId)
           == FindOrOpen(db, PairKey(sender, receiver), unique, newId);
    assert (forall u <- unique :: u in db.users) <==> sender in db.users && receiver in db.users;
  }

  // Sending to a user succeeds exactly when the two have a conversation or one can be
  // opened, and the message can be stored.
  lemma SendPrivateIff(db: Db, sender: Uuid, receiver: Uuid, uploads: seq<Uuid>, newId: Uuid, id: Uuid, now: Time)
    requires KeysUnique(db)
    ensures SendPrivate(db, sender, receiver, uploads, newId, id, now).error.None? <==>
              && (IsTaken(db, PairKey(sender, receiver)) || (newId !in db.conversations && receiver in db.users))
              && sender in db.users && id !in db.messages && forall u <- uploads :: Usable(db, sender, u, now)
  {
    OpensIff(db, sender, receiver, newId);
    match GetOrCreatePrivate(db, sender, [receiver], newId)
    case Denied(_) =>
    case Found(c) => StoreReadIff(db, ReadPrivate(db, c, sender, receiver), uploads, id, now);
    case Created(c, db') =>
      StoreReadIff(db', ReadPrivate(db', c, sender, receiver), uploads, id, now);
      assert forall u <- uploads :: Usable(db', sender, u, now) <==> Usable(db, sender, u, now);
  }

  // Only private conversations have a key.
  ghost predicate KeysArePrivate(db: Db) {
    forall c <- db.conversations :: db.conversations[c].privateKey.Some? ==> db.conversations[c].kind.Private?
  }

  ghost predicate KeepsKinds(db: Db, db': Db) {
    KeysArePrivate(db) ==> KeysArePrivate(db')
  }

  lemma JoiningKeepsKinds(db: Db, now: Time, step: Joining)
    ensures KeepsKinds(db, ApplyJoining(db, now, step))
  {
  }

  lemma PartingKeepsKinds(db: Db, now: Time, step: Parting)
    ensures KeepsKinds(db, ApplyParting(db, now, step))
  {
  }

  lemma StoreReadKeepsKinds(db: Db, r: Reading, uploads: seq<Uuid>, id: Uuid, now: Time)
    ensures KeepsKinds(db, StoreRead(db, r, uploads, id, now).db)
  {
    RestoredRows(db, r, now);
    if StoreRead(db, r, uploads, id, now).error.None? {
      CommitIsAttach(Restored(db, r, now), r.c, r.sender, r.snapshot, uploads, id, now);
    }
  }

  lemma SendingKeepsKinds(db: Db, now: Time, step: Sending)
    requires KeysUnique(db)
    ensures KeepsKinds(db, ApplySending(db, now, step).db)
  {
    match step
    case ToGroup(sender, c, uploads, id) => StoreReadKeepsKinds(db, ReadGroup(db, sender, c), uploads, id, now);
    case Store(r, uploads, id) => StoreReadKeepsKinds(db, r, uploads, id, now);
    case ToUser(sender, receiver, uploads, newId, id) =>
      SendPrivateKeepsKinds(db, sender, receiver, uploads, newId, id, now);
  }

  lemma SendPrivateKeepsKinds(db: Db, sender: Uuid, receiver: Uuid, uploads: seq<Uuid>, newId: Uuid, id: Uuid,
                              now: Time)
    requires KeysUnique(db)
    ensures KeepsKinds(db, SendPrivate(db, sender, receiver, uploads, newId, id, now).db)
  {
    match GetOrCreatePrivate(db, sender, [receiver], newId)
    case Denied(_) =>
    case Found(c) => StoreReadKeepsKinds(db, ReadPrivate(db, c, sender, receiver), uploads, id, now);
    case Created(c, db') =>
      OpenedKeepsKinds(db, sender, receiver, newId);
      StoreReadKeepsKinds(db', ReadPrivate(db', c, sender, receiver), uploads, id, now);
  }

  lemma OpenedKeepsKinds(db: Db, sender: Uuid, receiver: Uuid, newId: Uuid)
    requires KeysUnique(db) && GetOrCreatePrivate(db, sender, [receiver], newId).Created?
    ensures KeepsKinds(db, GetOrCreatePrivate(db, sender, [receiver], newId).db)
  {
  }

  lemma ReceiptKeepsKinds(db: Db, step: Receipt)
    ensures KeepsKinds(db, ApplyReceipt(db, step))
  {
  }

  lemma UpkeepKeepsKinds(db: Db, now: Time, step: Upkeep)
    ensures KeepsKinds(db, ApplyUpkeep(db, now, step))
  {
  }

  lemma StepKeepsKinds(db: Db, now: Time, step: Step)
    requires KeysUnique(db)
    ensures KeepsKinds(db, Apply(db, now, step))
  {
    match step
    case Tick(_) =>
    case Read(_) =>
    case Join(j) => JoiningKeepsKinds(db, now, j);
    case Part(p) => PartingKeepsKinds(db, now, p);
    case Send(m) => SendingKeepsKinds(db, now, m);
    case Receive(r) => ReceiptKeepsKinds(db, r);
    case Maintain(u) => UpkeepKeepsKinds(db, now, u);
  }

  lemma {:induction false} RunKeepsKinds(w: World, steps: seq<Step>)
    requires WorldOk(w) && KeysArePrivate(w.db)
    ensures KeysArePrivate(Exec(w, steps).db)
    decreases |steps|
  {
    if steps != [] {
      NextKeepsWorldOk(w, steps[0]);
      StepKeepsKinds(w.db, w.now, steps[0]);
      RunKeepsKinds(Next(w, steps[0]), steps[1..]);
    }
  }

  // A message sent to a user is delivered to that user, if the user still has a row in
  // the conversation of the two, and to nobody else whatever; a message to oneself to
  // nobody.
  ghost predicate ReachesOnly(db: Db, db': Db, c: Uuid, sender: Uuid, receiver: Uuid, id: Uuid, now: Time) {
    && HasKey(db', c, PairKey(sender, receiver)) && Records(db, db', c, sender, id, now)
    && forall u: Uuid ::
         Delivery(id, u, Sent) in db'.deliveries <==> u == receiver && u != sender && (c, u) in db'.members
  }

  lemma OnlyTheReceiver(db: Db, c: Uuid, sender: Uuid, receiver: Uuid, uploads: seq<Uuid>, id: Uuid, now: Time)
    requires PrivatesArePairs(db) && KeysArePrivate(db) && DeliveriesOk(db)
    requires HasKey(db, c, PairKey(sender, receiver)) && SendInto(db, c, sender, receiver, uploads, id, now).error.None?
    ensures ReachesOnly(db, SendInto(db, c, sender, receiver, uploads, id, now).db, c, sender, receiver, id, now)
  {
    var r := ReadPrivate(db, c, sender, receiver);
    MessageIntoReaches(db, c, sender, receiver, uploads, id, now);
    RowsAfterMessage(db, r, uploads, id, now);
    MembersArePair(db, c, sender, receiver);
    KeyStays(db, r, uploads, id, now);
  }

  lemma MembersArePair(db: Db, c: Uuid, a: Uuid, b: Uuid)
    requires PrivatesArePairs(db) && KeysArePrivate(db) && HasKey(db, c, PairKey(a, b))
    ensures forall u :: (c, u) in db.members ==> u == a || u == b
  {
    var x, y :| IsPair(db, c, x, y);
    PairKeyIsThePair(a, b, x, y);
  }

  lemma KeyStays(db: Db, r: Reading, uploads: seq<Uuid>, id: Uuid, now: Time)
    requires StoreRead(db, r, uploads, id, now).error.None? && r.c in db.conversations
    ensures var db' := StoreRead(db, r, uploads, id, now).db;
            r.c in db'.conversations && db'.conversations[r.c].privateKey == db.conversations[r.c].privateKey
  {
    RestoredRows(db, r, now);
    CommitIsAttach(Restored(db, r, now), r.c, r.sender, r.snapshot, uploads, id, now);
  }

  lemma SendPrivateReaches(db: Db, sender: Uuid, receiver: Uuid, uploads: seq<Uuid>, newId: Uuid, id: Uuid, now: Time)
    requires Sound(db) && KeysArePrivate(db) && DeliveriesOk(db)
    requires SendPrivate(db, sender, receiver, uploads, newId, id, now).error.None?
    ensures var db' := SendPrivate(db, sender, receiver, uploads, newId, id, now).db;
            exists c :: ReachesOnly(db, db', c, sender, receiver, id, now)
  {
    OpensIff(db, sender, receiver, newId);
    match GetOrCreatePrivate(db, sender, [receiver], newId)
    case Denied(_) =>
    case Found(c) => OnlyTheReceiver(db, c, sender, receiver, uploads, id, now);
    case Created(_, _) => ReachesInTheNew(db, sender, receiver, uploads, newId, id, now);
  }

  lemma OpenedIsFit(db: Db, sender: Uuid, receiver: Uuid, newId: Uuid)
    requires Sound(db) && KeysArePrivate(db) && DeliveriesOk(db)
    requires GetOrCreatePrivate(db, sender, [receiver], newId).Created?
    ensures var db' := GetOrCreatePrivate(db, sender, [receiver], newId).db;
            PrivatesArePairs(db') && KeysArePrivate(db') && DeliveriesOk(db')
            && HasKey(db', newId, PairKey(sender, receiver)) && db'.messages == db.messages
  {
    CreatePrivateKeepsSound(db, sender, receiver, newId);
    OpenedKeepsKinds(db, sender, receiver, newId);
    NewPrivateMembers(db, sender, receiver, newId);
    SameDeliveriesOk(db, GetOrCreatePrivate(db, sender, [receiver], newId).db);
  }

  lemma SameDeliveriesOk(db: Db, db': Db)
    requires DeliveriesOk(db) && db'.deliveries == db.deliveries && db'.messages == db.messages
    ensures DeliveriesOk(db')
  {
  }

  lemma ReachesInTheNew(db: Db, sender: Uuid, receiver: Uuid, uploads: seq<Uuid>, newId: Uuid, id: Uuid, now: Time)
    requires Sound(db) && KeysArePrivate(db) && DeliveriesOk(db)
    requires var r := GetOrCreatePrivate(db, sender, [receiver], newId);
             r.Created? && r.c == newId && SendInto(r.db, newId, sender, receiver, uploads, id, now).error.None?
    ensures var db' := GetOrCreatePrivate(db, sender, [receiver], newId).db;
            var after := SendInto(db', newId, sender, receiver, uploads, id, now).db;
            ReachesOnly(db, after, newId, sender, receiver, id, now)
  {
    OpenedIsFit(db, sender, receiver, newId);
    var db' := GetOrCreatePrivate(db, sender, [receiver], newId).db;
    OnlyTheReceiver(db', newId, sender, receiver, uploads, id, now);
  }

  // In every run.
  lemma PrivateMessagesReachOnlyTheReceiver(w: World, steps: seq<Step>, sender: Uuid, receiver: Uuid,
                                            uploads: seq<Uuid>, newId: Uuid, id: Uuid, now: Time)
    requires WorldOk(w) && KeysArePrivate(w.db) && KeysUnique(Exec(w, steps).db)
    requires SendPrivate(Exec(w, steps).db, sender, receiver, uploads, newId, id, now).error.None?
    ensures var db := Exec(w, steps).db;
            var db' := SendPrivate(db, sender, receiver, uploads, newId, id, now).db;
            exists c :: ReachesOnly(db, db', c, sender, receiver, id, now)
  {
    RunKeepsWorldOk(w, steps);
    RunKeepsKinds(w, steps);
    SendPrivateReaches(Exec(w, steps).db, sender, receiver, uploads, newId, id, now);
  }

  // --------------------------------------------------------------- deleting a group

  const NOTHING := Dossier(None, map[], [], [], map[], [], [])

  lemma NothingOf(db: Db, c: Uuid)
    requires c !in db.conversations && (forall k <- db.members :: k.0 != c)
    requires (forall e <- db.events :: e.conversation != c) && (forall i <- db.invitations :: i.conversation != c)
    requires forall m <- db.messages :: db.messages[m].conversation != c
    ensures Of(db, c) == NOTHING
  {
    KeepNone(db.events, ByConversation(c));
    KeepNone(db.invitations, Inviting(c));
    assert MembersOf(db, c) == map[] && MessagesOf(db, c) == map[];
    KeepNone(db.deliveries, Delivering(MessagesOf(db, c).Keys));
    KeepNone(db.attachments, AttachedTo(MessagesOf(db, c).Keys));
  }

  lemma DroppedLeavesNothing(db: Db, gone: set<Uuid>, c: Uuid)
    requires c in gone
    ensures Of(DropConversations(db, gone), c) == NOTHING
  {
    NothingOf(DropConversations(db, gone), c);
  }

  // Only the owner deletes a group; then nothing is left of it, and a refusal changes nothing.
  lemma DeleteGroupIff(db: Db, u: Uuid, c: Uuid)
    ensures var r := DeleteGroup(db, u, c);
            && (r.refusal.None? <==> IsGroup(db, c) && OwnedBy(db, c, u))
            && (r.refusal.Some? ==> r.db == db)
            && (r.refusal.None? ==> Of(r.db, c) == NOTHING)
  {
    DroppedLeavesNothing(db, {c}, c);
  }

  // In every run, deletions of users included, whoever deletes a group, hands it over,
  // removes a member or invites is the user the log names as its owner.
  lemma OnlyTheLoggedOwner(w: World, steps: seq<Step>, u: Uuid, c: Uuid, other: Uuid, now: Time)
    requires WorldOk(w)
    ensures var db := Exec(w, steps).db;
            DeleteGroup(db, u, c).refusal.None? || Transfer(db, u, c, other).refusal.None?
            || Remove(db, u, c, other, now).refusal.None? || Invite(db, u, c, other, now).refusal.None?
            ==> OwnerOf(db.events, c) == Some(u)
  {
    RunKeepsWorldOk(w, steps);
    OwnersDecide(Exec(w, steps).db, u, c, other, now);
  }

  lemma OwnersDecide(db: Db, u: Uuid, c: Uuid, other: Uuid, now: Time)
    requires OwnersAreLogged(db)
    ensures DeleteGroup(db, u, c).refusal.None? || Transfer(db, u, c, other).refusal.None?
            || Remove(db, u, c, other, now).refusal.None? || Invite(db, u, c, other, now).refusal.None?
            ==> OwnerOf(db.events, c) == Some(u)
  {
  }

  // Without user deletion the logged owner can delete the group, and nobody else.
  lemma LoggedOwnerDeletes(w: World, steps: seq<Step>, u: Uuid, c: Uuid)
    requires WorldOk(w) && GroupsAreOwned(w.db) && forall step <- steps :: !DeletesUser(step)
    requires IsGroup(Exec(w, steps).db, c)
    ensures DeleteGroup(Exec(w, steps).db, u, c).refusal.None? <==> OwnerOf(Exec(w, steps).db.events, c) == Some(u)
  {
    var db := Exec(w, steps).db;
    GroupsHaveOneOwner(w, steps, c);
    DeleteGroupIff(db, u, c);
  }

  // --------------------------------------------------------- leaving, removing, handing over

  function Hidden(d: Dossier, c: Uuid, u: Uuid, now: Time): Dossier
    requires (c, u) in d.members
  {
    d.(members := d.members[(c, u) := d.members[(c, u)].(softDeletedAt := Some(now))])
  }

  lemma HiddenOf(db: Db, c: Uuid, u: Uuid, now: Time)
    requires (c, u) in db.members
    ensures Of(SoftDelete(db, c, u, now), c) == Hidden(Of(db, c), c, u, now)
  {
    var db' := SoftDelete(db, c, u, now);
    assert MembersOf(db', c) == MembersOf(db, c)[(c, u) := db'.members[(c, u)]];
    assert MessagesOf(db', c) == MessagesOf(db, c);
  }

  lemma LoggedOf(db: Db, e: Event)
    ensures Of(Log(db, e), e.conversation) == Of(db, e.conversation).(log := Of(db, e.conversation).log + [e])
  {
    var c := e.conversation;
    KeepSum(db.events, [e], ByConversation(c));
    assert MembersOf(Log(db, e), c) == MembersOf(db, c);
    assert MessagesOf(Log(db, e), c) == MessagesOf(db, c);
  }

  function Departed(d: Dossier, c: Uuid, actor: Uuid, target: Uuid, kind: EventKind, now: Time): Dossier
    requires (c, target) in d.members
  {
    Hidden(d, c, target, now).(log := d.log + [Event(c, kind, actor, Some(target))])
  }

  lemma DepartedOf(db: Db, c: Uuid, actor: Uuid, target: Uuid, kind: EventKind, now: Time)
    requires c in db.conversations && (c, target) in db.members
    ensures DepartCommit(db, c, actor, target, kind, now).Some?
    ensures Of(DepartCommit(db, c, actor, target, kind, now).value, c) ==
              Departed(Of(db, c), c, actor, target, kind, now)
  {
    HiddenOf(db, c, target, now);
    LoggedOf(SoftDelete(db, c, target, now), Event(c, kind, actor, Some(target)));
  }

  // Whoever has a row and is not the owner can leave, even twice; the row is hidden and
  // the departure logged, and that is all.
  lemma LeaveIff(db: Db, u: Uuid, c: Uuid, now: Time)
    requires MembersRef(db)
    ensures var r := Leave(db, u, c, now);
            && (r.refusal.None? <==> (c, u) in db.members && !OwnedBy(db, c, u))
            && (r.refusal.Some? ==> r.db == db)
            && (r.refusal.None? ==> Of(r.db, c) == Departed(Of(db, c), c, u, u, MemberLeft, now))
  {
    if (c, u) in db.members {
      DepartedOf(db, c, u, u, MemberLeft, now);
    }
  }

  // An owner removes anybody but an owner, also who has left already.
  lemma RemoveIff(db: Db, actor: Uuid, c: Uuid, target: Uuid, now: Time)
    ensures var r := Remove(db, actor, c, target, now);
            && (r.refusal.None? <==>
                  IsGroup(db, c) && OwnedBy(db, c, actor) && (c, target) in db.members && !OwnedBy(db, c, target))
            && (r.refusal.Some? ==> r.db == db)
            && (r.refusal.None? ==> Of(r.db, c) == Departed(Of(db, c), c, actor, target, MemberRemoved, now))
  {
    if c in db.conversations && (c, target) in db.members {
      DepartedOf(db, c, actor, target, MemberRemoved, now);
    }
  }

  function HandedTo(d: Dossier, c: Uuid, owner: Uuid, heir: Uuid): Dossier
    requires (c, owner) in d.members && (c, heir) in d.members
  {
    d.(members := d.members[(c, owner) := d.members[(c, owner)].(role := Member)]
                           [(c, heir) := d.members[(c, heir)].(role := Owner)],
       log := d.log + [Event(c, OwnershipTransferred, owner, Some(heir))])
  }

  lemma HandedToOf(db: Db, owner: Uuid, c: Uuid, heir: Uuid)
    requires c in db.conversations && (c, owner) in db.members && (c, heir) in db.members && owner != heir
    ensures TransferCommit(db, owner, c, heir).Some?
    ensures Of(TransferCommit(db, owner, c, heir).value, c) == HandedTo(Of(db, c), c, owner, heir)
  {
    var two := SetRole(SetRole(db, c, owner, Member), c, heir, Owner);
    LoggedOf(two, Event(c, OwnershipTransferred, owner, Some(heir)));
    assert MembersOf(two, c) == HandedTo(Of(db, c), c, owner, heir).members;
    assert MessagesOf(two, c) == MessagesOf(db, c);
  }

  // A live owner hands over to another live member.
  lemma TransferIff(db: Db, owner: Uuid, c: Uuid, heir: Uuid)
    requires MembersRef(db)
    ensures var r := Transfer(db, owner, c, heir);
            && (r.refusal.None? <==>
                  owner != heir && OwnedBy(db, c, owner) && IsLive(db, c, owner) && IsLive(db, c, heir))
            && (r.refusal.Some? ==> r.db == db)
            && (r.refusal.None? ==> Of(r.db, c) == HandedTo(Of(db, c), c, owner, heir))
  {
    if owner != heir && (c, owner) in db.members && (c, heir) in db.members {
      HandedToOf(db, owner, c, heir);
    }
  }

  // A live member of a private conversation hides it; with nobody else live it is deleted.
  lemma DeletePrivateIff(db: Db, u: Uuid, c: Uuid, now: Time)
    ensures var r := DeletePrivate(db, u, c, now);
            && (r.refusal.None? <==> c in db.conversations && db.conversations[c].kind.Private? && IsLive(db, c, u))
            && (r.refusal.Some? ==> r.db == db)
            && (r.refusal.None? ==>
                  Of(r.db, c) ==
                    if exists v :: v != u && IsLive(db, c, v) then Hidden(Of(db, c), c, u, now) else NOTHING)
  {
    var r, hidden := DeletePrivate(db, u, c, now), SoftDelete(db, c, u, now);
    if r.refusal.None? {
      HiddenOf(db, c, u, now);
      DroppedLeavesNothing(hidden, {c}, c);
      BothDeletedIsGone(db, c, u, now);
    }
  }

  // ------------------------------------------------------------------------ creating

  // Nothing refers to an id that is not in use.
  lemma NothingYet(db: Db, id: Uuid)
    requires References(db) && id !in db.conversations
    ensures Of(db, id) == NOTHING
  {
    NothingOf(db, id);
  }

  lemma StartsWith(db: Db, db': Db, id: Uuid, row: Conversation)
    requires Of(db, id) == NOTHING
    requires db' == db.(conversations := db.conversations[id := row], members := db'.members)
    ensures Of(db', id) == NOTHING.(row := Some(row), members := MembersOf(db', id))
  {
    assert MessagesOf(db', id) == MessagesOf(db, id);
  }

  // A new group holds its owner, one log entry and nothing else.
  lemma CreateGroupIff(db: Db, owner: Uuid, id: Uuid)
    requires References(db)
    ensures var r := CreateGroup(db, owner, id);
            && (r.refusal.None? <==> owner in db.users && id !in db.conversations)
            && (r.refusal.Some? ==> r.db == db)
            && (r.refusal.None? ==>
                  Of(r.db, id) == NOTHING.(row := Some(Conversation(Group, None, None)),
                                           members := map[(id, owner) := Membership(Owner, None, None, 0)],
                                           log := [Event(id, GroupCreated, owner, None)]))
  {
    if CreateGroup(db, owner, id).refusal.None? {
      var row := Conversation(Group, None, None);
      var two := db.(conversations := db.conversations[id := row],
                     members := db.members[(id, owner) := Membership(Owner, None, None, 0)]);
      NothingYet(db, id);
      StartsWith(db, two, id, row);
      LoggedOf(two, Event(id, GroupCreated, owner, None));
      OnlyMember(db, two, id, owner);
    }
  }

  lemma OnlyMember(db: Db, db': Db, id: Uuid, u: Uuid)
    requires MembersRef(db) && id !in db.conversations
    requires db'.members == db.members[(id, u) := Membership(Owner, None, None, 0)]
    ensures MembersOf(db', id) == map[(id, u) := Membership(Owner, None, None, 0)]
  {
  }

  // A new private conversation holds its two people as plain live members.
  lemma OpenedHolds(db: Db, a: Uuid, b: Uuid, id: Uuid)
    requires References(db) && KeysUnique(db) && GetOrCreatePrivate(db, a, [b], id).Created?
    ensures Of(GetOrCreatePrivate(db, a, [b], id).db, id) ==
              NOTHING.(row := Some(Conversation(Private, Some(PairKey(a, b)), None)),
                       members := map[(id, a) := Membership(Member, None, None, 0),
                                      (id, b) := Membership(Member, None, None, 0)])
  {
    var db' := GetOrCreatePrivate(db, a, [b], id).db;
    NewPrivateMembers(db, a, b, id);
    NothingYet(db, id);
    StartsWith(db, db', id, Conversation(Private, Some(PairKey(a, b)), None));
    forall k <- db'.members | k.0 == id ensures db'.members[k] == Membership(Member, None, None, 0) {
      assert k !in db.members;
    }
    BothMembers(db', a, b, id);
  }

  lemma BothMembers(db': Db, a: Uuid, b: Uuid, id: Uuid)
    requires forall u: Uuid :: (id, u) in db'.members <==> u == a || u == b
    requires forall k <- db'.members :: k.0 == id ==> db'.members[k] == Membership(Member, None, None, 0)
    ensures MembersOf(db', id) ==
              map[(id, a) := Membership(Member, None, None, 0), (id, b) := Membership(Member, None, None, 0)]
  {
    var members := MembersOf(db', id);
    forall k ensures k in members <==> k == (id, a) || k == (id, b) {
      assert k.0 == id ==> k == (id, k.1);
    }
    assert members.Keys == {(id, a), (id, b)};
  }

  // --------------------------------------------------------------------- invitations

  // An owner of a group invites anybody who exists and is not a live member; the
  // invitation is from the owner, to the other, pending, and good for a day.
  lemma InviteIff(db: Db, actor: Uuid, c: Uuid, target: Uuid, now: Time)
    ensures var r := Invite(db, actor, c, target, now);
            && (r.refusal.None? <==>
                  && IsGroup(db, c) && OwnedBy(db, c, actor) && actor != target && !IsLive(db, c, target)
                  && actor in db.users && target in db.users)
            && (r.refusal.Some? ==> r.db == db)
            && (r.refusal.None? ==>
                  Of(r.db, c) == Of(db, c).(invitations :=
                    Of(db, c).invitations + [Invitation(c, actor, target, Pending, now + 86_400_000)]))
  {
    var row := Invitation(c, actor, target, Pending, now + 86_400_000);
    var db' := db.(invitations := db.invitations + [row]);
    KeepSum(db.invitations, [row], Inviting(c));
    assert MembersOf(db', c) == MembersOf(db, c) && MessagesOf(db', c) == MessagesOf(db, c);
  }

  // Answering an invitation just made: the invited user, and for a day.
  lemma InviteThenAccept(db: Db, actor: Uuid, c: Uuid, target: Uuid, now: Time, u: Uuid, later: Time)
    requires Invite(db, actor, c, target, now).refusal.None? && now <= later
    ensures var db', which := Invite(db, actor, c, target, now).db, |db.invitations|;
            && (Accept(db', c, target, later, which).refusal.None? <==> later <= now + 86_400_000)
            && (u != target && (forall i: nat :: !Invited(db, c, u, i)) ==>
                  Accept(db', c, u, later, which).refusal == Some(InvitationNotFound)
                  && Accept(db', c, u, later, which).db == db')
  {
    var db', which := Invite(db, actor, c, target, now).db, |db.invitations|;
    assert Invited(db', c, target, which);
    AcceptIff(db', c, target, later, which);
    if u != target && forall i: nat :: !Invited(db, c, u, i) {
      forall i: nat ensures !Invited(db', c, u, i) {
        assert i < |db.invitations| ==> !Invited(db, c, u, i);
      }
    }
  }

  // Every invitation of u to c gets the status, whichever was answered.
  function Answered(d: Dossier, u: Uuid, status: InvitationStatus): Dossier {
    d.(invitations := Map(d.invitations, (i: Invitation) => if i.target == u then i.(status := status) else i))
  }

  lemma {:induction false} AnsweredRows(rows: seq<Invitation>, c: Uuid, u: Uuid, status: InvitationStatus)
    ensures Keep(Map(rows, (i: Invitation) =>
                   if i.conversation == c && i.target == u then i.(status := status) else i), Inviting(c))
            == Map(Keep(rows, Inviting(c)), (i: Invitation) => if i.target == u then i.(status := status) else i)
  {
    if rows != [] {
      var front := rows[..|rows| - 1];
      AnsweredRows(front, c, u, status);
      var f := (i: Invitation) => if i.conversation == c && i.target == u then i.(status := status) else i;
      assert Map(rows, f)[..|rows| - 1] == Map(front, f);
    }
  }

  lemma AnsweredOf(db: Db, c: Uuid, u: Uuid, status: InvitationStatus)
    ensures Of(SetInvitations(db, c, u, status), c) == Answered(Of(db, c), u, status)
  {
    var db' := SetInvitations(db, c, u, status);
    AnsweredRows(db.invitations, c, u, status);
    assert MembersOf(db', c) == MembersOf(db, c) && MessagesOf(db', c) == MessagesOf(db, c);
  }

  // Accepting for the first time makes a plain live member, logs it and marks every
  // invitation of the user to this group as accepted.
  lemma JoinedHolds(db: Db, c: Uuid, u: Uuid, now: Time, which: nat)
    requires Accept(db, c, u, now, which).refusal.None? && (c, u) !in db.members
    ensures Of(Accept(db, c, u, now, which).db, c) ==
              Answered(Of(db, c), u, InvitationStatus.Accepted).(
                members := Of(db, c).members[(c, u) := Membership(Member, None, None, 0)],
                log := Of(db, c).log + [Event(c, MemberJoined, u, None)])
  {
    AcceptJoins(db, c, u, now, which);
    JoinHolds(db, c, u);
  }

  lemma AcceptJoins(db: Db, c: Uuid, u: Uuid, now: Time, which: nat)
    requires Accept(db, c, u, now, which).refusal.None? && (c, u) !in db.members
    ensures JoinCommit(db, c, u) == Some(Accept(db, c, u, now, which).db)
  {
  }

  lemma JoinHolds(db: Db, c: Uuid, u: Uuid)
    requires JoinCommit(db, c, u).Some?
    ensures Of(JoinCommit(db, c, u).value, c) ==
              Answered(Of(db, c), u, InvitationStatus.Accepted).(
                members := Of(db, c).members[(c, u) := Membership(Member, None, None, 0)],
                log := Of(db, c).log + [Event(c, MemberJoined, u, None)])
  {
    var one := SetInvitations(db, c, u, InvitationStatus.Accepted);
    var two := Log(one, Event(c, MemberJoined, u, None));
    AnsweredOf(db, c, u, InvitationStatus.Accepted);
    LoggedOf(one, Event(c, MemberJoined, u, None));
    AddedOf(two, c, u);
  }

  lemma AddedOf(db: Db, c: Uuid, u: Uuid)
    ensures var row := Membership(Member, None, None, 0);
            Of(db.(members := db.members[(c, u) := row]), c) ==
              Of(db, c).(members := Of(db, c).members[(c, u) := row])
  {
    var db' := db.(members := db.members[(c, u) := Membership(Member, None, None, 0)]);
    assert MembersOf(db', c) == MembersOf(db, c)[(c, u) := Membership(Member, None, None, 0)];
    assert MessagesOf(db', c) == MessagesOf(db, c);
  }

  // Rejecting succeeds exactly for an invitation that is found and has not run out, and
  // marks every invitation of the user to this group as rejected, and that is all.
  lemma RejectIff(db: Db, c: Uuid, u: Uuid, now: Time, which: nat)
    requires Invited(db, c, u, which)
    ensures var r := Reject(db, c, u, now, which);
            && (r.refusal.None? <==> now <= db.invitations[which].expiresAt)
            && (r.refusal.None? ==> Of(r.db, c) == Answered(Of(db, c), u, InvitationStatus.Rejected))
            && (r.refusal.Some? ==> Of(r.db, c) == Answered(Of(db, c), u, InvitationStatus.Accepted))
  {
    AnsweredOf(db, c, u, InvitationStatus.Rejected);
    AnsweredOf(db, c, u, InvitationStatus.Accepted);
  }

  // Without an invitation neither answer does anything.
  lemma UninvitedIsRefused(db: Db, c: Uuid, u: Uuid, now: Time, which: nat)
    requires forall i: nat :: !Invited(db, c, u, i)
    ensures Accept(db, c, u, now, which).refusal.Some? && Accept(db, c, u, now, which).db == db
    ensures Reject(db, c, u, now, which) == Reply(db, Some(InvitationNotFound))
  {
  }

  // ----------------------------------------------------------- why something is refused

  // Each refusal has exactly one cause; with two causes the one first in these lists
  // is reported.
  lemma WhyNotDeleted(db: Db, u: Uuid, c: Uuid, now: Time)
    ensures var why, isMember := DeleteGroup(db, u, c).refusal, (c, u) in db.members;
            && (why == Some(ConversationNotFound) <==> c !in db.conversations)
            && (why == Some(InvalidType) <==> c in db.conversations && !IsGroup(db, c))
            && (why == Some(NotMember) <==> IsGroup(db, c) && !isMember)
            && (why == Some(OnlyOwner) <==> IsGroup(db, c) && isMember && !OwnedBy(db, c, u))
    ensures var why, isMember := DeletePrivate(db, u, c, now).refusal, (c, u) in db.members;
            && (why == Some(ConversationNotFound) <==> c !in db.conversations)
            && (why == Some(InvalidType) <==> IsGroup(db, c))
            && (why == Some(NotMember) <==> c in db.conversations && !IsGroup(db, c) && !isMember)
            && (why == Some(AlreadyDeleted) <==>
                  c in db.conversations && !IsGroup(db, c) && isMember && !IsLive(db, c, u))
  {
  }

  lemma WhyNotAllowed(db: Db, u: Uuid, c: Uuid, other: Uuid)
    ensures var why, owns := InviteGuard(db, u, c, other), IsGroup(db, c) && OwnedBy(db, c, u);
            && (why == Some(ConversationNotFound) <==> c !in db.conversations)
            && (why == Some(InvalidType) <==> c in db.conversations && !IsGroup(db, c))
            && (why == Some(NotMember) <==> IsGroup(db, c) && (c, u) !in db.members)
            && (why == Some(OnlyOwner) <==> IsGroup(db, c) && (c, u) in db.members && !OwnedBy(db, c, u))
            && (why == Some(CannotInviteYourself) <==> owns && u == other)
            && (why == Some(AlreadyMember) <==> owns && u != other && IsLive(db, c, other))
    ensures var why, owns := RemoveGuard(db, u, c, other), IsGroup(db, c) && OwnedBy(db, c, u);
            && (why == Some(ConversationNotFound) <==> c !in db.conversations)
            && (why == Some(InvalidType) <==> c in db.conversations && !IsGroup(db, c))
            && (why == Some(NotMember) <==> IsGroup(db, c) && (c, u) !in db.members)
            && (why == Some(OnlyOwner) <==> IsGroup(db, c) && (c, u) in db.members && !OwnedBy(db, c, u))
            && (why == Some(TargetNotMember) <==> owns && (c, other) !in db.members)
            && (why == Some(CannotRemoveOwner) <==> owns && OwnedBy(db, c, other))
            && why != Some(UseLeaveGroup)   // who gets that far is an owner
  {
  }

  lemma WhyNotHandedOver(db: Db, u: Uuid, c: Uuid, other: Uuid)
    ensures var why, isMember := LeaveGuard(db, u, c), (c, u) in db.members;
            && (why == Some(NotMember) <==> !isMember)
            && (why == Some(TransferOwnershipFirst) <==> OwnedBy(db, c, u))
    ensures var why, owns := TransferGuard(db, u, c, other), OwnedBy(db, c, u) && u != other;
            && (why == Some(InvalidOwner) <==> u == other)
            && (why == Some(NotMember) <==> u != other && (c, u) !in db.members)
            && (why == Some(OnlyOwner) <==> u != other && (c, u) in db.members && !OwnedBy(db, c, u))
            && (why == Some(OwnerRemoved) <==> owns && !IsLive(db, c, u))
            && (why == Some(TargetNotMember) <==> owns && IsLive(db, c, u) && (c, other) !in db.members)
            && (why == Some(TargetRemoved) <==>
                  owns && IsLive(db, c, u) && (c, other) in db.members && !IsLive(db, c, other))
  {
  }

  lemma WhyNotAnswered(db: Db, c: Uuid, u: Uuid, now: Time, which: nat)
    requires Invited(db, c, u, which)
    ensures var why, expired := Accept(db, c, u, now, which).refusal, db.invitations[which].expiresAt < now;
            && (why == Some(ConversationNotFound) <==> c !in db.conversations)
            && (why == Some(InvitationExpired) <==> c in db.conversations && expired)
            && why != Some(InvitationNotFound)
    ensures Reject(db, c, u, now, which).refusal ==
              if db.invitations[which].expiresAt < now then Some(InvitationExpired) else None
  {
  }

  lemma WhyNotSent(db: Db, u: Uuid, c: Uuid)
    ensures var why, isMember := SendGroupGuard(db, u, c), (c, u) in db.members;
            && (why == Some(ConversationNotFound) <==> c !in db.conversations)
            && (why == Some(InvalidType) <==> c in db.conversations && !IsGroup(db, c))
            && (why == Some(NotMember) <==> IsGroup(db, c) && !isMember)
            && (why == Some(LeftGroup) <==> IsGroup(db, c) && isMember && !IsLive(db, c, u))
  {
  }
}
