/**
 * Which messages a member sees: the history is asked for with the member's
 * softDeletedAt, and with nothing else of the row.
 */
module Visibility {
  import opened Prelude
  import opened Tables
  import opened Store
  import opened Groups
  import opened Messaging
  import opened Bookkeeping
  import opened Memberships
  import History
  import SerialRuns

  // member?.softDeletedAt
  function Since(db: Db, c: Uuid, u: Uuid): Option<Time> {
    if (c, u) in db.members then db.members[(c, u)].softDeletedAt else None
  }

  function Sees(db: Db, c: Uuid, u: Uuid, rows: History.Rows): seq<History.Entry> {
    History.Visible(rows, Since(db, c, u))
  }

  // Stamped before the instant at which a row was written.
  predicate IsBefore(m: History.Entry, t: Time) {
    Earlier(m.at, Stamp(t, 0))
  }

  // A member whose row is hidden sees what was sent after that, and nothing else.
  lemma HiddenSeesWhatFollows(db: Db, c: Uuid, u: Uuid, at: Time, rows: History.Rows, m: History.Entry)
    requires (c, u) in db.members
    ensures m in Sees(SoftDelete(db, c, u, at), c, u, rows) <==> m in rows.messages && Earlier(Stamp(at, 0), m.at)
  {
  }

  // Everybody else sees all messages, in whatever way the row came to be live again.
  lemma {:induction false} LiveSeesEverything(db: Db, c: Uuid, u: Uuid, rows: History.Rows)
    requires !IsHidden(db, c, u)
    ensures Sees(db, c, u, rows) == rows.messages
  {
    KeepAll(rows.messages, (m: History.Entry) => History.InRange(m, None, None));
  }

  // So a restored member sees everything, and what was sent before the restoration
  // stays hidden exactly when there is no such message.
  lemma RestoredHidesIff(db: Db, c: Uuid, u: Uuid, now: Time, rows: History.Rows)
    requires (c, u) in db.members
    ensures Sees(Restore(db, c, u, now), c, u, rows) == rows.messages
    ensures (forall m <- rows.messages | IsBefore(m, now) :: m !in Sees(Restore(db, c, u, now), c, u, rows))
            <==> forall m <- rows.messages :: !IsBefore(m, now)
  {
    LiveSeesEverything(Restore(db, c, u, now), c, u, rows);
  }

  // A send transaction in a private conversation takes a row out of hiding if and only
  // if the row was read as hidden, however long before.
  lemma MessageRevealsIff(db: Db, r: Reading, uploads: seq<Uuid>, id: Uuid, now: Time, u: Uuid)
    requires r.PrivateRead? && StoreRead(db, r, uploads, id, now).error.None?
    ensures var db' := StoreRead(db, r, uploads, id, now).db;
            IsHidden(db', r.c, u) <==>
              IsHidden(db, r.c, u) && !((u == r.sender && r.senderGone) || (u == r.receiver && r.receiverGone))
  {
    RowsAfterMessage(db, r, uploads, id, now);
  }

  // So when the rows are read at the commit, as in a call that nothing interrupts,
  // both people see every message afterwards.
  lemma SendingReveals(db: Db, c: Uuid, sender: Uuid, receiver: Uuid, uploads: seq<Uuid>, id: Uuid, now: Time,
                       rows: History.Rows)
    requires SendInto(db, c, sender, receiver, uploads, id, now).error.None?
    ensures var db' := SendInto(db, c, sender, receiver, uploads, id, now).db;
            Sees(db', c, sender, rows) == rows.messages && Sees(db', c, receiver, rows) == rows.messages
  {
    var db' := SendInto(db, c, sender, receiver, uploads, id, now).db;
    var r := ReadPrivate(db, c, sender, receiver);
    MessageRevealsIff(db, r, uploads, id, now, sender);
    MessageRevealsIff(db, r, uploads, id, now, receiver);
    LiveSeesEverything(db', c, sender, rows);
    LiveSeesEverything(db', c, receiver, rows);
  }

  // A message is stored and counted for a member whose row says it was hidden at `at`.
  predicate CountedYetHidden(db: Db, db': Db, c: Uuid, u: Uuid, id: Uuid, at: Time)
    requires (c, u) in db.members
  {
    var row := db.members[(c, u)];
    id in db'.messages && (c, u) in db'.members
    && db'.members[(c, u)] == row.(softDeletedAt := Some(at), unread := row.unread + 1)
  }

  // The run in which it does not: the receiver deletes the conversation between what
  // the send operation reads and its transaction. The message is committed and
  // counted, and the conversation stays hidden from the receiver.
  lemma DeletionOutrunsMessage(w: SerialRuns.World, c: Uuid, sender: Uuid, receiver: Uuid, uploads: seq<Uuid>, id: Uuid)
    requires SerialRuns.WorldOk(w) && c in w.db.conversations && w.db.conversations[c].kind.Private?
    requires sender != receiver && IsLive(w.db, c, sender) && IsLive(w.db, c, receiver)
    requires id !in w.db.messages && forall u <- uploads :: Usable(w.db, sender, u, w.now)
    ensures var r, part := ReadPrivate(w.db, c, sender, receiver), SerialRuns.DoDeletePrivate(receiver, c);
            var db' := SerialRuns.Exec(w, SerialRuns.Overtaken(r, part, uploads, id)).db;
            CountedYetHidden(w.db, db', c, receiver, id, w.now)
  {
    var r := ReadPrivate(w.db, c, sender, receiver);
    SerialRuns.OvertakenRun(w, r, SerialRuns.DoDeletePrivate(receiver, c), uploads, id);
    DeletionHides(w.db, c, sender, receiver, w.now);
    HiddenThenStored(w.db, c, sender, receiver, uploads, id, w.now);
  }

  // While the other member is live a deletion only hides the row.
  lemma DeletionHides(db: Db, c: Uuid, other: Uuid, u: Uuid, now: Time)
    requires c in db.conversations && db.conversations[c].kind.Private?
    requires other != u && IsLive(db, c, other) && IsLive(db, c, u)
    ensures SerialRuns.ApplyParting(db, now, SerialRuns.DoDeletePrivate(u, c)) == SoftDelete(db, c, u, now)
  {
    var hidden := SoftDelete(db, c, u, now);
    assert (c, other) in hidden.members && hidden.members[(c, other)].softDeletedAt.None?;
  }

  lemma HiddenThenStored(db: Db, c: Uuid, sender: Uuid, receiver: Uuid, uploads: seq<Uuid>, id: Uuid, now: Time)
    requires c in db.conversations && sender in db.users
    requires sender != receiver && IsLive(db, c, sender) && IsLive(db, c, receiver)
    requires id !in db.messages && forall u <- uploads :: Usable(db, sender, u, now)
    ensures var r, hidden := ReadPrivate(db, c, sender, receiver), SoftDelete(db, c, receiver, now);
            CountedYetHidden(db, StoreRead(hidden, r, uploads, id, now).db, c, receiver, id, now)
  {
    var r := ReadPrivate(db, c, sender, receiver);
    var hidden := SoftDelete(db, c, receiver, now);
    CommitsIff(hidden, c, sender, r.snapshot, uploads, id, now);
    RowsAfterMessage(hidden, r, uploads, id, now);
    CommitIsAttach(hidden, c, sender, r.snapshot, uploads, id, now);
    assert (c, receiver) in db.members && receiver in r.snapshot;
  }
}
