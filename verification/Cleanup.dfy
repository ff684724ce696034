/**
 * The nightly removal of old messages: it reads what is old, removes the files
 * batch by batch and then deletes what is old by then, while everything else goes
 * on between these steps.
 */
module Cleanup {
  import opened Prelude
  import opened Tables
  import opened Store
  import opened Groups
  import opened Messaging
  import opened Integrity
  import opened Bookkeeping
  import opened SerialRuns
  import opened FileStore

  const MAX_AGE := 2 * 24 * 3600 * 1000

  function Cutoff(now: Time): Time {
    if now < MAX_AGE then 0 else now - MAX_AGE
  }

  predicate IsOld(db: Db, m: Uuid, cutoff: Time) {
    m in db.messages && db.messages[m].createdAt < cutoff
  }

  function Old(db: Db, cutoff: Time): set<Uuid> {
    set m | m in db.messages && IsOld(db, m, cutoff)
  }

  function KeysAttached(db: Db, messages: set<Uuid>): seq<StorageKey> {
    Map(Keep(db.attachments, (a: Attachment) => a.message in messages), AttachmentKey)
  }

  // -------------------------------------------------------- what live traffic does

  // Messages keep their stamp and new ones are stamped now; attachments are added
  // to new messages only, from pending uploads; new uploads take `prepared` keys.
  ghost predicate Moves(db: Db, db': Db, now: Time, prepared: set<StorageKey>) {
    && (forall m <- db'.messages ::
          db'.messages[m].createdAt == if m in db.messages then db.messages[m].createdAt else now)
    && (forall a <- db'.attachments :: a in db.attachments ||
          (a.message in db'.messages && a.message !in db.messages && IsPending(db, a.storageKey)))
    && (forall u <- db'.uploads ::
          IsPending(db, db'.uploads[u].storageKey) || db'.uploads[u].storageKey in prepared)
  }

  ghost predicate IsPending(db: Db, key: StorageKey) {
    exists u <- db.uploads :: db.uploads[u].storageKey == key
  }

  ghost predicate SameRows(db: Db, db': Db) {
    db'.messages == db.messages && db'.attachments == db.attachments && db'.uploads == db.uploads
  }

  lemma SameRowsMove(db: Db, db': Db, now: Time)
    requires SameRows(db, db')
    ensures Moves(db, db', now, {})
  {
  }

  lemma MovesFrom(db: Db, mid: Db, db': Db, now: Time)
    requires SameRows(db, mid) && Moves(mid, db', now, {})
    ensures Moves(db, db', now, {})
  {
  }

  lemma DropMoves(db: Db, db': Db, gone: set<Uuid>, now: Time)
    requires db'.messages == DropMessages(db, gone).messages && db'.attachments == DropMessages(db, gone).attachments
    requires db'.uploads == db.uploads
    ensures Moves(db, db', now, {})
  {
  }

  lemma CommitMoves(db: Db, c: Uuid, sender: Uuid, snapshot: set<Uuid>, uploads: seq<Uuid>, id: Uuid, now: Time)
    requires CommitMessage(db, c, sender, snapshot, uploads, id, now).Ok?
    ensures Moves(db, CommitMessage(db, c, sender, snapshot, uploads, id, now).value, now, {})
  {
    CommitIsAttach(db, c, sender, snapshot, uploads, id, now);
    CommitMovesUploads(db, c, sender, snapshot, uploads, id, now);
    var db' := CommitMessage(db, c, sender, snapshot, uploads, id, now).value;
    forall a <- db'.attachments | a !in db.attachments ensures a.message == id && IsPending(db, a.storageKey) {
      var i :| 0 <= i < |uploads| && a == Attached(db, uploads, id)[i];
      assert uploads[i] in db.uploads;
    }
  }

  lemma FinishedMoves(db: Db, db': Db, r: Reading, uploads: seq<Uuid>, id: Uuid, now: Time)
    requires SameRows(db, db')
    ensures Moves(db, Finished(db, CommitMessage(db', r.c, r.sender, r.snapshot, uploads, id, now)).db, now, {})
  {
    if CommitMessage(db', r.c, r.sender, r.snapshot, uploads, id, now).Ok? {
      CommitMoves(db', r.c, r.sender, r.snapshot, uploads, id, now);
      MovesFrom(db, db', CommitMessage(db', r.c, r.sender, r.snapshot, uploads, id, now).value, now);
    } else {
      SameRowsMove(db, db, now);
    }
  }

  lemma StoreReadMoves(db: Db, r: Reading, uploads: seq<Uuid>, id: Uuid, now: Time)
    ensures Moves(db, StoreRead(db, r, uploads, id, now).db, now, {})
  {
    RestoredRows(db, r, now);
    FinishedMoves(db, Restored(db, r, now), r, uploads, id, now);
  }

  lemma ToGroupMoves(db: Db, sender: Uuid, c: Uuid, uploads: seq<Uuid>, id: Uuid, now: Time)
    ensures Moves(db, SendGroup(db, sender, c, uploads, id, now).db, now, {})
  {
    StoreReadMoves(db, ReadGroup(db, sender, c), uploads, id, now);
    SameRowsMove(db, db, now);
  }

  lemma ToUserMoves(db: Db, sender: Uuid, receiver: Uuid, uploads: seq<Uuid>, newId: Uuid, id: Uuid, now: Time)
    requires KeysUnique(db)
    ensures Moves(db, SendPrivate(db, sender, receiver, uploads, newId, id, now).db, now, {})
  {
    match GetOrCreatePrivate(db, sender, [receiver], newId)
    case Denied(_) => SameRowsMove(db, db, now);
    case Found(c) => StoreReadMoves(db, ReadPrivate(db, c, sender, receiver), uploads, id, now);
    case Created(c, db') =>
      StoreReadMoves(db', ReadPrivate(db', c, sender, receiver), uploads, id, now);
      MovesFrom(db, db', SendInto(db', c, sender, receiver, uploads, id, now).db, now);
  }

  lemma SendingMoves(db: Db, now: Time, step: Sending)
    requires KeysUnique(db)
    ensures Moves(db, ApplySending(db, now, step).db, now, {})
  {
    match step
    case ToGroup(sender, c, uploads, id) => ToGroupMoves(db, sender, c, uploads, id, now);
    case ToUser(sender, receiver, uploads, newId, id) => ToUserMoves(db, sender, receiver, uploads, newId, id, now);
    case Store(r, uploads, id) => StoreReadMoves(db, r, uploads, id, now);
  }

  lemma JoiningLeavesRows(db: Db, now: Time, step: Joining)
    ensures SameRows(db, ApplyJoining(db, now, step))
  {
  }

  lemma JoiningMoves(db: Db, now: Time, step: Joining)
    ensures Moves(db, ApplyJoining(db, now, step), now, {})
  {
    JoiningLeavesRows(db, now, step);
    SameRowsMove(db, ApplyJoining(db, now, step), now);
  }

  lemma ReceiptMoves(db: Db, now: Time, step: Receipt)
    ensures Moves(db, ApplyReceipt(db, step), now, {})
  {
    SameRowsMove(db, ApplyReceipt(db, step), now);
  }

  lemma DropConversationsMoves(db: Db, gone: set<Uuid>, now: Time)
    ensures Moves(db, DropConversations(db, gone), now, {})
  {
  }

  lemma DeletePrivateMoves(db: Db, u: Uuid, c: Uuid, now: Time)
    ensures Moves(db, DeletePrivate(db, u, c, now).db, now, {})
  {
    var hidden := SoftDelete(db, c, u, now);
    SameRowsMove(db, db, now);
    SameRowsMove(db, hidden, now);
    DropConversationsMoves(hidden, {c}, now);
    MovesFrom(db, hidden, DropConversations(hidden, {c}), now);
  }

  lemma DeleteGroupMoves(db: Db, u: Uuid, c: Uuid, now: Time)
    ensures Moves(db, DeleteGroup(db, u, c).db, now, {})
  {
  }

  lemma OtherPartings(db: Db, now: Time, step: Parting)
    requires !step.DoDeleteGroup? && !step.DoDeletePrivate?
    ensures SameRows(db, ApplyParting(db, now, step))
  {
  }

  lemma PartingMoves(db: Db, now: Time, step: Parting)
    ensures Moves(db, ApplyParting(db, now, step), now, {})
  {
    match step
    case DoDeleteGroup(u, c) => DeleteGroupMoves(db, u, c, now);
    case DoDeletePrivate(u, c) => DeletePrivateMoves(db, u, c, now);
    case _ =>
      OtherPartings(db, now, step);
      SameRowsMove(db, ApplyParting(db, now, step), now);
  }

  function PreparedKeys(step: Upkeep): set<StorageKey> {
    if step.DoPrepare? then {StorageKey(step.user, step.file.file)} else {}
  }

  lemma UpkeepMoves(db: Db, now: Time, step: Upkeep)
    ensures Moves(db, ApplyUpkeep(db, now, step), now, PreparedKeys(step))
  {
    match step
    case DoDeleteMessages(c, ids) =>
      var gone := set m | m in db.messages && m in ids && db.messages[m].conversation == c;
      DropMoves(db, DeleteMessages(db, c, ids), gone, now);
    case DoDeleteUser(u) => DropMoves(db, DropConversations(db, Orphaned(db, u)), MessagesIn(db, Orphaned(db, u)), now);
    case _ =>
  }

  lemma StepMoves(db: Db, now: Time, step: SerialRuns.Step)
    requires KeysUnique(db)
    ensures Moves(db, SerialRuns.Apply(db, now, step), now, if step.Maintain? then PreparedKeys(step.upkeep) else {})
  {
    match step
    case Tick(_) => SameRowsMove(db, db, now);
    case Read(_) => SameRowsMove(db, db, now);
    case Join(j) => JoiningMoves(db, now, j);
    case Part(p) => PartingMoves(db, now, p);
    case Send(m) => SendingMoves(db, now, m);
    case Receive(r) => ReceiptMoves(db, now, r);
    case Maintain(u) => UpkeepMoves(db, now, u);
  }

  // --------------------------------------------------------- the job among the traffic

  datatype Job = Idle | Clearing(cutoff: Time, ids: set<Uuid>, keys: seq<StorageKey>, done: nat)

  // `purged` is the latest cutoff a job has read, `lost` every key a job has removed.
  datatype World = World(live: SerialRuns.World, job: Job, purged: Time, lost: set<StorageKey>)

  datatype Step = Live(step: SerialRuns.Step) | Reads | ClearsBatch | Fails | DeletesRows

  // File names are random, so a new upload never takes a key that has been in use.
  predicate NeverUsed(w: World, key: StorageKey) {
    key !in w.lost && (w.job.Clearing? ==> key !in w.job.keys)
  }

  predicate Admissible(w: World, step: Step) {
    step.Live? ==>
      && NamesOnce(step.step)
      && (step.step.Maintain? ==> forall k <- PreparedKeys(step.step.upkeep) :: NeverUsed(w, k))
  }

  function Read(w: World): World {
    var db, cutoff := w.live.db, Cutoff(w.live.now);
    var ids := Old(db, cutoff);
    if !w.job.Idle? || ids == {} then w else
    w.(job := Clearing(cutoff, ids, KeysAttached(db, ids), 0), purged := cutoff)
  }

  function ClearBatch(w: World): World
    requires w.job.Clearing? ==> w.job.done <= |w.job.keys|
  {
    if !w.job.Clearing? then w else
    var to := BatchEnd(|w.job.keys|, w.job.done);
    var batch := SetOf(w.job.keys[w.job.done..to]);
    var db := w.live.db;
    w.(live := w.live.(db := db.(files := db.files - batch)), lost := w.lost + batch, job := w.job.(done := to))
  }

  function DeleteRows(w: World): World {
    if !w.job.Clearing? || w.job.done != |w.job.keys| then w else
    var db := w.live.db;
    w.(live := w.live.(db := DropMessages(db, Old(db, w.job.cutoff))), job := Idle)
  }

  function Next(w: World, step: Step): World
    requires KeysUnique(w.live.db) && (w.job.Clearing? ==> w.job.done <= |w.job.keys|)
  {
    if !Admissible(w, step) then w else
    match step
    case Live(s) => w.(live := SerialRuns.Next(w.live, s))
    case Reads => Read(w)
    case ClearsBatch => ClearBatch(w)
    case Fails => w.(job := Idle)
    case DeletesRows => DeleteRows(w)
  }

  // A removed file belongs to a message older than some cutoff, or to none.
  ghost predicate LostAreOld(db: Db, lost: set<StorageKey>, purged: Time) {
    && (forall a <- db.attachments :: a.storageKey in lost ==> IsOld(db, a.message, purged))
    && (forall k <- lost :: !IsPending(db, k))
  }

  // The keys of the job are those of the messages that are old now, and then some
  // that no row names any more.
  ghost predicate JobOk(db: Db, job: Job) {
    job.Clearing? ==>
      && job.done <= |job.keys| && Old(db, job.cutoff) <= job.ids
      && (forall a <- db.attachments :: a.storageKey in job.keys <==> IsOld(db, a.message, job.cutoff))
      && (forall k <- job.keys :: !IsPending(db, k))
  }

  ghost predicate ProgressOk(w: World) {
    w.job.Clearing? ==>
      && w.job.cutoff == w.purged && w.job.done <= |w.job.keys|
      && forall k <- w.job.keys[..w.job.done] :: k in w.lost
  }

  ghost predicate Inv(w: World) {
    && WorldOk(w.live) && FilesOk(w.live.db, w.lost) && w.purged <= Cutoff(w.live.now)
    && LostAreOld(w.live.db, w.lost, w.purged) && JobOk(w.live.db, w.job) && ProgressOk(w)
  }

  lemma MovesKeepLostOld(db: Db, db': Db, now: Time, prepared: set<StorageKey>, lost: set<StorageKey>, purged: Time)
    requires Moves(db, db', now, prepared) && LostAreOld(db, lost, purged) && prepared !! lost
    requires forall a <- db'.attachments :: a.message in db'.messages
    ensures LostAreOld(db', lost, purged)
  {
  }

  lemma MovesKeepJob(db: Db, db': Db, now: Time, prepared: set<StorageKey>, job: Job)
    requires Moves(db, db', now, prepared) && JobOk(db, job)
    requires job.Clearing? ==> job.cutoff <= now && forall k <- prepared :: k !in job.keys
    requires forall a <- db.attachments :: a.message in db.messages
    requires forall a <- db'.attachments :: a.message in db'.messages
    ensures JobOk(db', job)
  {
  }

  lemma LiveKeepsFilesOk(w: World, step: SerialRuns.Step)
    requires Inv(w) && Admissible(w, Live(step))
    ensures FilesOk(SerialRuns.Apply(w.live.db, w.live.now, step), w.lost)
  {
    StepKeepsFilesOk(w.live.db, w.live.now, step, w.lost);
  }

  lemma LiveKeepsJob(w: World, step: SerialRuns.Step)
    requires Inv(w) && Admissible(w, Live(step))
    requires forall a <- SerialRuns.Apply(w.live.db, w.live.now, step).attachments ::
               a.message in SerialRuns.Apply(w.live.db, w.live.now, step).messages
    ensures var db' := SerialRuns.Apply(w.live.db, w.live.now, step);
            LostAreOld(db', w.lost, w.purged) && JobOk(db', w.job)
  {
    StepMoves(w.live.db, w.live.now, step);
    var prepared := if step.Maintain? then PreparedKeys(step.upkeep) else {};
    var db' := SerialRuns.Apply(w.live.db, w.live.now, step);
    MovesKeepLostOld(w.live.db, db', w.live.now, prepared, w.lost, w.purged);
    MovesKeepJob(w.live.db, db', w.live.now, prepared, w.job);
  }

  lemma LiveKeepsInv(w: World, step: SerialRuns.Step)
    requires Inv(w) && Admissible(w, Live(step))
    ensures Inv(Next(w, Live(step)))
  {
    NextKeepsWorldOk(w.live, step);
    if Rests(w.live, step) {
      LiveKeepsFilesOk(w, step);
      LiveKeepsJob(w, step);
    }
  }

  lemma KeysRead(db: Db, ids: set<Uuid>, k: StorageKey)
    ensures k in KeysAttached(db, ids) <==> k in KeysOf(db, ids)
  {
    var p := (a: Attachment) => a.message in ids;
    var rows := Keep(db.attachments, p);
    if k in KeysOf(db, ids) {
      var a :| a in db.attachments && a.message in ids && a.storageKey == k;
      assert a in rows;
      var i :| 0 <= i < |rows| && rows[i] == a;
      assert KeysAttached(db, ids)[i] == k;
    }
    if k in KeysAttached(db, ids) {
      var i :| 0 <= i < |rows| && KeysAttached(db, ids)[i] == k;
      assert rows[i] in rows;
    }
  }

  lemma ReadKeepsInv(w: World)
    requires Inv(w)
    ensures Inv(Read(w))
  {
    var db, cutoff := w.live.db, Cutoff(w.live.now);
    var ids := Old(db, cutoff);
    if w.job.Idle? && ids != {} {
      ReadIsOk(db, cutoff);
    }
  }

  lemma ReadIsOk(db: Db, cutoff: Time)
    requires KeysApart(db) && forall a <- db.attachments :: a.message in db.messages
    ensures JobOk(db, Clearing(cutoff, Old(db, cutoff), KeysAttached(db, Old(db, cutoff)), 0))
  {
    var ids := Old(db, cutoff);
    forall k { KeysRead(db, ids, k); }
    forall a <- db.attachments ensures a.storageKey in KeysAttached(db, ids) <==> IsOld(db, a.message, cutoff) {
      forall b <- db.attachments | b.storageKey == a.storageKey ensures b == a {
        SameKeySameRow(db.attachments, AttachmentKey, a, b);
      }
    }
  }

  lemma ClearedWorldOk(live: SerialRuns.World, files: set<StorageKey>)
    requires WorldOk(live)
    ensures WorldOk(live.(db := live.db.(files := files)))
  {
    FilesDoNotMatter(live.db, files);
    CountersUntouched(live.db, live.db.(files := files), live.notes);
  }

  lemma ClearedIsLost(db: Db, db': Db, job: Job, lost: set<StorageKey>, purged: Time, batch: set<StorageKey>)
    requires job.Clearing? && job.cutoff == purged && JobOk(db, job)
    requires LostAreOld(db, lost, purged) && FilesOk(db, lost)
    requires db' == db.(files := db.files - batch) && forall k <- batch :: k in job.keys
    ensures LostAreOld(db', lost + batch, purged) && FilesOk(db', lost + batch) && JobOk(db', job)
  {
  }

  lemma ClearKeepsInv(w: World)
    requires Inv(w)
    ensures Inv(ClearBatch(w))
  {
    if w.job.Clearing? {
      var to := BatchEnd(|w.job.keys|, w.job.done);
      var batch := SetOf(w.job.keys[w.job.done..to]);
      var db := w.live.db;
      ClearedWorldOk(w.live, db.files - batch);
      ClearedIsLost(db, db.(files := db.files - batch), w.job, w.lost, w.purged, batch);
      assert w.job.keys[..to] == w.job.keys[..w.job.done] + w.job.keys[w.job.done..to];
    }
  }

  lemma DeleteKeepsInv(w: World)
    requires Inv(w)
    ensures Inv(DeleteRows(w))
  {
    if w.job.Clearing? && w.job.done == |w.job.keys| {
      var db, gone := w.live.db, Old(w.live.db, w.job.cutoff);
      DropMessagesKeepsSound(db, gone);
      DropKeepsDeliveries(db, gone);
      CountersUntouched(db, DropMessages(db, gone), w.live.notes);
      DropKeepsFilesOk(db, gone, w.lost);
      DropMoves(db, DropMessages(db, gone), gone, w.live.now);
      MovesKeepLostOld(db, DropMessages(db, gone), w.live.now, {}, w.lost, w.purged);
    }
  }

  lemma NextKeepsInv(w: World, step: Step)
    requires Inv(w)
    ensures Inv(Next(w, step))
  {
    if Admissible(w, step) {
      match step
      case Live(s) => LiveKeepsInv(w, s);
      case Reads => ReadKeepsInv(w);
      case ClearsBatch => ClearKeepsInv(w);
      case Fails =>
      case DeletesRows => DeleteKeepsInv(w);
    }
  }

  ghost function Exec(w: World, steps: seq<Step>): World
    requires Inv(w)
    decreases |steps|
  {
    if steps == [] then w else
    NextKeepsInv(w, steps[0]);
    Exec(Next(w, steps[0]), steps[1..])
  }

  lemma {:induction false} RunKeepsInv(w: World, steps: seq<Step>)
    requires Inv(w)
    ensures Inv(Exec(w, steps))
    decreases |steps|
  {
    if steps != [] {
      NextKeepsInv(w, steps[0]);
      RunKeepsInv(Next(w, steps[0]), steps[1..]);
    }
  }

  // In every run, what the last step deletes was read by the first: the messages are
  // among those read, and every attachment row that goes had its file removed.
  lemma {:induction false} DeletedWasRead(w: World, steps: seq<Step>)
    requires Inv(w)
    ensures var w' := Exec(w, steps);
            w'.job.Clearing? && w'.job.done == |w'.job.keys| ==>
              && w'.live.db.messages.Keys - DeleteRows(w').live.db.messages.Keys <= w'.job.ids
              && (forall a <- w'.live.db.attachments :: a !in DeleteRows(w').live.db.attachments ==>
                    a.storageKey in w'.job.keys && a.storageKey in w'.lost)
  {
    RunKeepsInv(w, steps);
    var w' := Exec(w, steps);
    if w'.job.Clearing? && w'.job.done == |w'.job.keys| {
      assert w'.job.keys[..w'.job.done] == w'.job.keys;
    }
  }

  // A file that is missing belongs to a message older than a cutoff some job has
  // read; no younger message, and no pending upload, ever loses its file to the job.
  lemma {:induction false} YoungMessagesKeepTheirFiles(w: World, steps: seq<Step>, a: Attachment)
    requires Inv(w)
    ensures var w' := Exec(w, steps);
            a in w'.live.db.attachments && a.storageKey !in w'.live.db.files ==>
              a.storageKey in w'.lost && IsOld(w'.live.db, a.message, w'.purged)
    ensures var w' := Exec(w, steps);
            forall u <- w'.live.db.uploads :: w'.live.db.uploads[u].storageKey !in w'.lost
  {
    RunKeepsInv(w, steps);
  }

  // Once a job has come to its end every attached file is in the bucket, whatever
  // earlier jobs failed to finish.
  lemma {:induction false} NothingMissingAfterTheJob(w: World, steps: seq<Step>)
    requires Inv(w)
    ensures var w' := Exec(w, steps);
            w'.job.Clearing? && w'.job.done == |w'.job.keys| ==> FilesOk(DeleteRows(w').live.db, {})
  {
    RunKeepsInv(w, steps);
    DeleteKeepsInv(Exec(w, steps));
  }

  lemma StartIsOk()
    ensures Inv(World.World(SerialRuns.START, Idle, 0, {}))
  {
  }
}
