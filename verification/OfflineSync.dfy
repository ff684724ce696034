/**
 * What a user who connects is sent: every pending message on every connection,
 * and then one update that marks them delivered.
 */
module OfflineSync {
  import opened Prelude
  import opened Tables
  import opened Store
  import opened Groups
  import opened Messaging
  import opened Bookkeeping
  import opened Persistence
  import Connections
  import SerialRuns

  // The pending deliveries of a user, newest first.
  function PendingMessages(db: Db, u: Uuid): seq<Uuid> {
    Newest(Keep(db.deliveries, (d: Delivery) => d.user == u && d.status.Sent?))
  }

  function Newest(rows: seq<Delivery>): (r: seq<Uuid>)
    ensures |r| == |rows| && forall i :: 0 <= i < |rows| ==> r[i] == rows[|rows| - 1 - i].message
  {
    seq(|rows|, i requires 0 <= i < |rows| => rows[|rows| - 1 - i].message)
  }

  datatype Push = Push(connection: Uuid, message: Uuid)

  function OnEach(connections: seq<Uuid>, message: Uuid): seq<Push> {
    Map(connections, (c: Uuid) => Push(c, message))
  }

  // A delivery whose message is gone is passed over.
  function Transcript(db: Db, pending: seq<Uuid>, connections: seq<Uuid>): seq<Push> {
    if pending == [] then [] else
    var last := pending[|pending| - 1];
    Transcript(db, pending[..|pending| - 1], connections)
    + (if last in db.messages then OnEach(connections, last) else [])
  }

  class OfflineSyncService {
    const database: Database
    const manager: Connections.ConnectionManager
    var sent: seq<Push>

    constructor (database: Database, manager: Connections.ConnectionManager)
      ensures this.database == database && this.manager == manager && sent == []
    {
      this.database, this.manager, sent := database, manager, [];
    }

    method SyncPendingMessages(u: Uuid)
      requires manager.Valid()
      modifies this`sent, database
      ensures var db := old(database.View());
              var connections := Connections.UserConnections(old(manager.View()), u);
              if PendingMessages(db, u) == [] || connections == [] then database.View() == db && sent == old(sent)
              else
                && database.View() == MarkDelivered(db, u, PendingFor(db, u))
                && sent == old(sent) + Transcript(db, PendingMessages(db, u), connections)
    {
      var db := database.View();
      var pending := PendingMessages(db, u);
      if |pending| == 0 {
        return;
      }
      var connections := manager.GetUserConnections(u);
      if |connections| == 0 {
        return;
      }
      SendAll(connections, Connections.UserConnections(manager.View(), u), pending);
      PendingIds(db, u);
      database.UpdateDeliveries(u, SetOf(pending));
    }

    method SendAll(connections: seq<Connections.Connection>, ghost ids: seq<Uuid>, pending: seq<Uuid>)
      requires |ids| == |connections| && forall i :: 0 <= i < |ids| ==> connections[i].id == ids[i]
      modifies this`sent
      ensures sent == old(sent) + Transcript(database.View(), pending, ids)
    {
      var i := 0;
      while i < |pending|
        invariant 0 <= i <= |pending|
        invariant sent == old(sent) + Transcript(database.View(), pending[..i], ids)
      {
        assert pending[..i + 1][..i] == pending[..i];
        if pending[i] in database.messages {
          SendOnEach(connections, ids, pending[i]);
        }
        i := i + 1;
      }
      assert pending[..i] == pending;
    }

    method SendOnEach(connections: seq<Connections.Connection>, ghost ids: seq<Uuid>, message: Uuid)
      requires |ids| == |connections| && forall i :: 0 <= i < |ids| ==> connections[i].id == ids[i]
      modifies this`sent
      ensures sent == old(sent) + OnEach(ids, message)
    {
      var j := 0;
      while j < |connections|
        invariant 0 <= j <= |connections|
        invariant sent == old(sent) + OnEach(ids, message)[..j]
      {
        assert OnEach(ids, message)[..j + 1] == OnEach(ids, message)[..j] + [Push(ids[j], message)];
        sent := sent + [Push(connections[j].id, message)];
        j := j + 1;
      }
      assert OnEach(ids, message)[..j] == OnEach(ids, message);
    }
  }

  lemma PendingIds(db: Db, u: Uuid)
    ensures SetOf(PendingMessages(db, u)) == PendingFor(db, u)
  {
    var p := (d: Delivery) => d.user == u && d.status.Sent?;
    var rows := Keep(db.deliveries, p);
    forall m ensures m in SetOf(PendingMessages(db, u)) <==> m in PendingFor(db, u) {
      if m in PendingFor(db, u) {
        var d :| d in db.deliveries && p(d) && d.message == m;
        var i :| 0 <= i < |rows| && rows[i] == d;
        assert PendingMessages(db, u)[|rows| - 1 - i] == m;
      }
      if m in PendingMessages(db, u) {
        var i :| 0 <= i < |rows| && PendingMessages(db, u)[i] == m;
        assert rows[|rows| - 1 - i] in rows;
      }
    }
  }

  // --------------------------------------------------------------- what is changed

  // The user's SENT rows become DELIVERED and no other row changes.
  ghost predicate OnlyPendingMarked(db: Db, db': Db, u: Uuid) {
    && |db'.deliveries| == |db.deliveries|
    && (forall i :: 0 <= i < |db.deliveries| ==>
          var d := db.deliveries[i];
          db'.deliveries[i] == if d.user == u && d.status.Sent? then d.(status := Delivered) else d)
    && db' == db.(deliveries := db'.deliveries)
  }

  ghost predicate NoneReadBesideSent(db: Db, u: Uuid) {
    forall d <- db.deliveries, e <- db.deliveries | d.user == u && e.user == u && d.message == e.message ::
      d.status.Sent? ==> !e.status.Read?
  }

  // The update names messages, not rows: it is exact unless the user has a READ row
  // beside a SENT one for the same message.
  lemma {:induction false} MarkedExactlyIff(db: Db, u: Uuid)
    ensures OnlyPendingMarked(db, MarkDelivered(db, u, PendingFor(db, u)), u)
            <==> NoneReadBesideSent(db, u)
  {
    var db' := MarkDelivered(db, u, PendingFor(db, u));
    if OnlyPendingMarked(db, db', u) {
      forall d <- db.deliveries, e <- db.deliveries
        | d.user == u && e.user == u && d.message == e.message && d.status.Sent?
        ensures !e.status.Read?
      {
        var j :| 0 <= j < |db.deliveries| && db.deliveries[j] == e;
        assert db'.deliveries[j] == e.(status := Delivered);
      }
    }
  }

  // The statuses only (message, user) uniqueness rules out.
  lemma UniqueThenExact(db: Db, u: Uuid)
    requires OneDeliveryEach(db)
    ensures OnlyPendingMarked(db, MarkDelivered(db, u, PendingFor(db, u)), u)
  {
  }

  lemma {:induction false} EachSentOnEach(db: Db, pending: seq<Uuid>, connections: seq<Uuid>, m: Uuid, c: Uuid)
    ensures Push(c, m) in Transcript(db, pending, connections) <==> m in pending && m in db.messages && c in connections
  {
    if pending != [] {
      var front, last := pending[..|pending| - 1], pending[|pending| - 1];
      EachSentOnEach(db, front, connections, m, c);
      assert pending == front + [last];
      if c in connections {
        var i :| 0 <= i < |connections| && connections[i] == c;
        assert OnEach(connections, last)[i] == Push(c, last);
      }
    }
  }

  function Known(db: Db): Uuid -> bool {
    (m: Uuid) => m in db.messages
  }

  // The transcript row by row: the messages that exist in the order of the pending
  // rows, each once on every connection in the order of the connections.
  lemma {:induction false} SentInOrder(db: Db, pending: seq<Uuid>, connections: seq<Uuid>, i: nat, j: nat)
    requires i < |Keep(pending, Known(db))| && j < |connections|
    ensures var sent := Transcript(db, pending, connections);
            && |sent| == |Keep(pending, Known(db))| * |connections|
            && i * |connections| + j < |sent|
            && sent[i * |connections| + j] == Push(connections[j], Keep(pending, Known(db))[i])
  {
    TranscriptLength(db, pending, connections);
    var front, last := pending[..|pending| - 1], pending[|pending| - 1];
    var k := |Keep(front, Known(db))|;
    TranscriptLength(db, front, connections);
    RowBefore(i, |Keep(pending, Known(db))|, |connections|, j);
    if i < k {
      RowBefore(i, k, |connections|, j);
      SentInOrder(db, front, connections, i, j);
    }
  }

  lemma RowBefore(i: nat, k: nat, n: nat, j: nat)
    requires i < k && j < n
    ensures i * n + j < k * n
  {
    assert (i + 1) * n <= k * n;
  }

  lemma OneRowMore(k: nat, n: nat)
    ensures (k + 1) * n == k * n + n
  {
  }

  lemma {:induction false} TranscriptLength(db: Db, pending: seq<Uuid>, connections: seq<Uuid>)
    ensures |Transcript(db, pending, connections)| == |Keep(pending, Known(db))| * |connections|
  {
    if pending != [] {
      var front := pending[..|pending| - 1];
      TranscriptLength(db, front, connections);
      OneRowMore(|Keep(front, Known(db))|, |connections|);
    }
  }

  // Newer messages come first: an earlier place in the list is a later row of the table.
  lemma PendingNewestFirst(db: Db, u: Uuid, i: nat, j: nat)
    requires i < j < |PendingMessages(db, u)|
    ensures exists a, b ::
              && 0 <= b < a < |db.deliveries|
              && db.deliveries[a] == Delivery(PendingMessages(db, u)[i], u, Sent)
              && db.deliveries[b] == Delivery(PendingMessages(db, u)[j], u, Sent)
  {
    var p := (d: Delivery) => d.user == u && d.status.Sent?;
    var rows := Keep(db.deliveries, p);
    KeepInOrder(db.deliveries, p, |rows| - 1 - j, |rows| - 1 - i);
    assert rows[|rows| - 1 - i] in rows && rows[|rows| - 1 - j] in rows;
  }

  // In every run: a user with a connection gets exactly the SENT rows marked, and
  // each message so marked has been sent on every one of the user's connections.
  lemma {:induction false} SyncIsExact(w: SerialRuns.World, steps: seq<SerialRuns.Step>, u: Uuid,
                                       connections: seq<Uuid>)
    requires SerialRuns.WorldOk(w)
    ensures var db := SerialRuns.Exec(w, steps).db;
            var db' := MarkDelivered(db, u, PendingFor(db, u));
            && OnlyPendingMarked(db, db', u)
            && (forall d <- db.deliveries, c <- connections :: d.user == u && d.status.Sent? ==>
                  Push(c, d.message) in Transcript(db, PendingMessages(db, u), connections))
  {
    SerialRuns.RunKeepsWorldOk(w, steps);
    var db := SerialRuns.Exec(w, steps).db;
    UniqueThenExact(db, u);
    PendingIds(db, u);
    forall d <- db.deliveries, c <- connections | d.user == u && d.status.Sent?
      ensures Push(c, d.message) in Transcript(db, PendingMessages(db, u), connections)
    {
      assert d.message in SetOf(PendingMessages(db, u));
      EachSentOnEach(db, PendingMessages(db, u), connections, d.message, c);
    }
  }

  // ----------------------------------------------------- the update long after the query

  // Of the messages found pending, those still SENT become DELIVERED and nothing else
  // changes.
  ghost predicate OnlyStillPendingMarked(db: Db, db': Db, u: Uuid, pending: set<Uuid>) {
    && |db'.deliveries| == |db.deliveries|
    && (forall i :: 0 <= i < |db.deliveries| ==>
          var d := db.deliveries[i];
          db'.deliveries[i] ==
            if d.user == u && d.message in pending && d.status.Sent? then d.(status := Delivered) else d)
    && db' == db.(deliveries := db'.deliveries)
  }

  ghost predicate NoneRead(db: Db, u: Uuid, pending: set<Uuid>) {
    forall d <- db.deliveries | d.user == u && d.message in pending :: !d.status.Read?
  }

  // The update does not look at the status: it is right if and only if none of the
  // messages has been read by the time it is made.
  lemma {:induction false} MarkedLateIff(db: Db, u: Uuid, pending: set<Uuid>)
    ensures OnlyStillPendingMarked(db, MarkDelivered(db, u, pending), u, pending) <==> NoneRead(db, u, pending)
  {
    var db' := MarkDelivered(db, u, pending);
    if OnlyStillPendingMarked(db, db', u, pending) {
      forall d <- db.deliveries | d.user == u && d.message in pending ensures !d.status.Read? {
        var i :| 0 <= i < |db.deliveries| && db.deliveries[i] == d;
        assert db'.deliveries[i] == d.(status := Delivered);
      }
    }
  }

  // A receipt that arrives between the query and the update is undone: the deliveries
  // are afterwards what they would have been without it.
  lemma ReceiptIsUndone(db: Db, u: Uuid, c: Uuid, message: Uuid, status: Status)
    requires message in PendingFor(db, u)
    ensures var pending := PendingFor(db, u);
            var late := MarkDelivered(ConfirmDelivery(db, u, c, message, status), u, pending);
            && late.deliveries == MarkDelivered(db, u, pending).deliveries
            && (forall d <- late.deliveries :: d.user == u && d.message == message ==> d.status.Delivered?)
            && late.members == ConfirmDelivery(db, u, c, message, status).members
  {
  }

  // A step by which u reads one of the messages.
  predicate ReadsOneOf(step: SerialRuns.Step, u: Uuid, ids: set<Uuid>) {
    step.Receive? && step.receipt.DoConfirm? && step.receipt.u == u && step.receipt.message in ids
    && step.receipt.status.Read?
  }

  // Rows that appear are not READ.
  ghost predicate GainsNoneRead(db: Db, db': Db) {
    forall d <- db'.deliveries :: d in db.deliveries || !d.status.Read?
  }

  lemma StoreReadGainsNoneRead(db: Db, r: Reading, uploads: seq<Uuid>, id: Uuid, now: Time)
    ensures GainsNoneRead(db, StoreRead(db, r, uploads, id, now).db)
  {
    RestoredRows(db, r, now);
    if StoreRead(db, r, uploads, id, now).error.None? {
      CommitIsAttach(Restored(db, r, now), r.c, r.sender, r.snapshot, uploads, id, now);
    }
  }

  lemma SendingGainsNoneRead(db: Db, now: Time, step: SerialRuns.Sending)
    requires KeysUnique(db)
    ensures GainsNoneRead(db, SerialRuns.ApplySending(db, now, step).db)
  {
    match step
    case ToGroup(sender, c, uploads, id) => StoreReadGainsNoneRead(db, ReadGroup(db, sender, c), uploads, id, now);
    case Store(r, uploads, id) => StoreReadGainsNoneRead(db, r, uploads, id, now);
    case ToUser(sender, receiver, uploads, newId, id) =>
      match GetOrCreatePrivate(db, sender, [receiver], newId) {
        case Denied(_) =>
        case Found(c) => StoreReadGainsNoneRead(db, ReadPrivate(db, c, sender, receiver), uploads, id, now);
        case Created(c, db') => StoreReadGainsNoneRead(db', ReadPrivate(db', c, sender, receiver), uploads, id, now);
      }
  }

  lemma ReceiptKeepsNoneRead(db: Db, step: SerialRuns.Receipt, u: Uuid, ids: set<Uuid>)
    requires NoneRead(db, u, ids) && !ReadsOneOf(SerialRuns.Receive(step), u, ids)
    ensures NoneRead(SerialRuns.ApplyReceipt(db, step), u, ids)
  {
  }

  lemma PartingGainsNoneRead(db: Db, now: Time, step: SerialRuns.Parting)
    ensures GainsNoneRead(db, SerialRuns.ApplyParting(db, now, step))
  {
  }

  lemma StepKeepsNoneRead(db: Db, now: Time, step: SerialRuns.Step, u: Uuid, ids: set<Uuid>)
    requires KeysUnique(db) && NoneRead(db, u, ids) && !ReadsOneOf(step, u, ids)
    ensures NoneRead(SerialRuns.Apply(db, now, step), u, ids)
  {
    match step
    case Tick(_) =>
    case Read(_) =>
    case Join(j) => SerialRuns.JoiningLeavesFiles(db, now, j);
    case Part(p) => PartingGainsNoneRead(db, now, p);
    case Send(m) => SendingGainsNoneRead(db, now, m);
    case Receive(r) => ReceiptKeepsNoneRead(db, r, u, ids);
    case Maintain(_) =>
  }

  lemma {:induction false} RunKeepsNoneRead(w: SerialRuns.World, steps: seq<SerialRuns.Step>, u: Uuid, ids: set<Uuid>)
    requires SerialRuns.WorldOk(w) && NoneRead(w.db, u, ids) && forall step <- steps :: !ReadsOneOf(step, u, ids)
    ensures NoneRead(SerialRuns.Exec(w, steps).db, u, ids)
    decreases |steps|
  {
    if steps != [] {
      SerialRuns.NextKeepsWorldOk(w, steps[0]);
      StepKeepsNoneRead(w.db, w.now, steps[0], u, ids);
      RunKeepsNoneRead(SerialRuns.Next(w, steps[0]), steps[1..], u, ids);
    }
  }

  // Whatever happens between the query and the update, another sync of the same user
  // included: the update is right unless the user reads one of these messages meanwhile.
  lemma LateSyncIsExact(w: SerialRuns.World, steps: seq<SerialRuns.Step>, u: Uuid)
    requires SerialRuns.WorldOk(w) && forall step <- steps :: !ReadsOneOf(step, u, PendingFor(w.db, u))
    ensures var db, pending := SerialRuns.Exec(w, steps).db, PendingFor(w.db, u);
            OnlyStillPendingMarked(db, MarkDelivered(db, u, pending), u, pending)
  {
    var pending := PendingFor(w.db, u);
    NothingPendingIsRead(w.db, u);
    RunKeepsNoneRead(w, steps, u, pending);
    MarkedLateIff(SerialRuns.Exec(w, steps).db, u, pending);
  }

  lemma NothingPendingIsRead(db: Db, u: Uuid)
    requires OneDeliveryEach(db)
    ensures NoneRead(db, u, PendingFor(db, u))
  {
    forall d <- db.deliveries | d.user == u && d.message in PendingFor(db, u) ensures !d.status.Read? {
      var e :| e in db.deliveries && e.user == u && e.status.Sent? && e.message == d.message;
      SameKeySameRow(db.deliveries, DeliveryKey, d, e);
    }
  }
}
