/**
 * Keyset pagination of the conversation list. The cursor is the id of the last
 * row of the previous page; the query looks that row up again and returns what
 * comes after it in "updatedAt DESC NULLS LAST, id DESC".
 */
module ConversationList {
  import opened Prelude
  import opened Tables

  datatype Row = Row(id: Uuid, updatedAt: Option<Stamp>)

  // All conversations as one query finds them, and those the user is an active member of.
  datatype Snapshot = Snapshot(rows: seq<Row>, mine: set<Uuid>)

  // ------------------------------------------------------------------- the order

  // `a` comes strictly before `b` in updatedAt DESC NULLS LAST, id DESC.
  predicate Before(a: Row, b: Row) {
    match (a.updatedAt, b.updatedAt)
    case (Some(x), Some(y)) => Earlier(y, x) || (x == y && a.id > b.id)
    case (Some(_), None) => true
    case (None, Some(_)) => false
    case (None, None) => a.id > b.id
  }

  // The WHERE clause, branch by branch. The cursor's stamp has been through a Date.
  predicate AfterCursor(row: Row, cursor: Row) {
    if cursor.updatedAt.None? then
      row.updatedAt.None? && row.id < cursor.id
    else
      var date := AsDate(cursor.updatedAt.value);
      || (row.updatedAt.Some? && Earlier(row.updatedAt.value, date))
      || (row.updatedAt == Some(date) && row.id < cursor.id)
      || row.updatedAt.None?
  }

  // Rows of the cursor's own millisecond that the truncated stamp leaves out.
  predicate Skipped(row: Row, cursor: Row) {
    && row.updatedAt.Some? && cursor.updatedAt.Some?
    && var r, c := row.updatedAt.value, cursor.updatedAt.value;
    && r.date == c.date && c.micros > 0 && Before(cursor, row) && !(r.micros == 0 && row.id < cursor.id)
  }

  // The cursor clause, NULL branches included, is the order of the list but for the
  // skipped rows.
  lemma CursorClauseSkips(row: Row, cursor: Row)
    ensures AfterCursor(row, cursor) <==> Before(cursor, row) && !Skipped(row, cursor)
  {
  }

  // It is the order of the list for every row exactly when the cursor's stamp is a
  // whole millisecond or NULL.
  lemma CursorClauseIsTheOrderIff(cursor: Row)
    ensures (forall row :: AfterCursor(row, cursor) <==> Before(cursor, row))
            <==> (cursor.updatedAt.None? || cursor.updatedAt.value.micros == 0)
  {
    forall row { CursorClauseSkips(row, cursor); }
    if cursor.updatedAt.Some? && cursor.updatedAt.value.micros > 0 {
      var row := Row(cursor.id, Some(AsDate(cursor.updatedAt.value)));
      assert Before(cursor, row) && !AfterCursor(row, cursor);
    }
  }

  // Whatever comes after a row that the clause lets through is let through.
  lemma AfterCursorIsUpward(x: Row, r: Row, cursor: Row)
    requires AfterCursor(x, cursor) && Before(x, r)
    ensures AfterCursor(r, cursor)
  {
  }

  lemma BeforeIsStrictTotal(a: Row, b: Row, c: Row)
    ensures !Before(a, a)
    ensures Before(a, b) && Before(b, c) ==> Before(a, c)
    ensures a == b || Before(a, b) || Before(b, a)
  {
  }

  ghost predicate Ordered(rows: seq<Row>) {
    forall i, j :: 0 <= i < j < |rows| ==> Before(rows[i], rows[j])
  }

  // Rows of one table have distinct ids, so distinct rows differ in their place.
  predicate Ids(rows: seq<Row>) {
    Distinct(rows, (r: Row) => r.id)
  }

  // --------------------------------------------------------------------- sorting

  function Place(r: Row, rows: seq<Row>): (s: seq<Row>)
    ensures |s| == |rows| + 1 && (forall x :: x in s <==> x == r || x in rows)
  {
    if rows == [] then [r]
    else if Before(r, rows[0]) then
      assert [r] + rows == [r] + ([rows[0]] + rows[1..]);
      [r] + rows
    else
      assert forall x :: x in rows <==> x == rows[0] || x in rows[1..];
      [rows[0]] + Place(r, rows[1..])
  }

  lemma {:induction false} PlaceOrdered(r: Row, rows: seq<Row>)
    requires Ordered(rows) && r !in rows
    ensures Ordered(Place(r, rows))
  {
    if rows != [] {
      BeforeIsStrictTotal(r, rows[0], r);
      if Before(r, rows[0]) {
        forall j | 0 < j < |rows| ensures Before(r, rows[j]) {
          BeforeIsStrictTotal(r, rows[0], rows[j]);
        }
      } else {
        var rest := Place(r, rows[1..]);
        PlaceOrdered(r, rows[1..]);
        forall j | 0 <= j < |rest| ensures Before(rows[0], rest[j]) {
          assert rest[j] == r || rest[j] in rows[1..];
        }
      }
    }
  }

  // ORDER BY
  function Arrange(rows: seq<Row>): (s: seq<Row>)
    ensures |s| == |rows| && (forall x :: x in s <==> x in rows)
  {
    if rows == [] then []
    else
      assert forall x :: x in rows <==> x == rows[0] || x in rows[1..];
      Place(rows[0], Arrange(rows[1..]))
  }

  lemma {:induction false} ArrangeOrdered(rows: seq<Row>)
    requires Ids(rows)
    ensures Ordered(Arrange(rows))
  {
    if rows != [] {
      assert Ids(rows[1..]);
      ArrangeOrdered(rows[1..]);
      forall i | 0 <= i < |rows[1..]| ensures rows[1..][i] != rows[0] {
        assert rows[i + 1].id != rows[0].id;
      }
      PlaceOrdered(rows[0], Arrange(rows[1..]));
    }
  }

  // Two ordered lists of the same rows are the same list.
  lemma {:induction false} OrderedUnique(a: seq<Row>, b: seq<Row>)
    requires Ordered(a) && Ordered(b) && forall x :: x in a <==> x in b
    ensures a == b
  {
    if a != [] && b != [] {
      FirstIsMember(a);
      FirstIsMember(b);
      FirstIsLeast(a, b[0]);
      FirstIsLeast(b, a[0]);
      BeforeIsStrictTotal(a[0], b[0], a[0]);
      forall x ensures x in a[1..] <==> x in b[1..] {
        TailMembers(a, x);
        TailMembers(b, x);
      }
      OrderedUnique(a[1..], b[1..]);
      assert a == [a[0]] + a[1..] && b == [b[0]] + b[1..];
    } else if a != [] {
      FirstIsMember(a);
    } else if b != [] {
      FirstIsMember(b);
    }
  }

  lemma FirstIsMember(a: seq<Row>)
    requires a != []
    ensures a[0] in a
  {
  }

  lemma FirstIsLeast(a: seq<Row>, x: Row)
    requires Ordered(a) && x in a
    ensures x == a[0] || Before(a[0], x)
  {
  }

  lemma TailMembers(a: seq<Row>, x: Row)
    requires Ordered(a) && a != []
    ensures x in a[1..] <==> x in a && x != a[0]
  {
  }

  // -------------------------------------------------------------------- one page

  function FindRow(rows: seq<Row>, id: Uuid): (found: Option<Row>)
    ensures found.Some? ==> found.value in rows && found.value.id == id
    ensures found.None? ==> forall r <- rows :: r.id != id
  {
    if rows == [] then None
    else if rows[0].id == id then Some(rows[0])
    else
      assert forall x :: x in rows <==> x == rows[0] || x in rows[1..];
      FindRow(rows[1..], id)
  }

  // A cursor that no longer exists is ignored: the list starts again at the top.
  function Selected(s: Snapshot, cursor: Option<Row>): seq<Row> {
    Keep(s.rows, (r: Row) => r.id in s.mine && (cursor.Some? ==> AfterCursor(r, cursor.value)))
  }

  function CursorRow(s: Snapshot, cursor: Option<Uuid>): Option<Row> {
    if cursor.None? then None else FindRow(s.rows, cursor.value)
  }

  function Query(s: Snapshot, cursor: Option<Uuid>, limit: nat): seq<Row> {
    Take(Arrange(Selected(s, CursorRow(s, cursor))), limit + 1)
  }

  datatype Page = Page(items: seq<Row>, next: Option<Row>)

  // limit is at least 1 (the request schema says so).
  function Paginate(items: seq<Row>, limit: nat): Page
    requires limit >= 1
  {
    if |items| > limit then Page(items[..limit], Some(items[limit - 1])) else Page(items, None)
  }

  function GetPage(s: Snapshot, cursor: Option<Uuid>, limit: nat): Page
    requires limit >= 1
  {
    Paginate(Query(s, cursor, limit), limit)
  }

  ghost predicate Follows(rows: seq<Row>, cursor: Option<Row>) {
    cursor.Some? ==> forall r <- rows :: Before(cursor.value, r)
  }

  ghost predicate Visible(s: Snapshot, r: Row) {
    r in s.rows && r.id in s.mine
  }

  predicate Passes(r: Row, cursor: Option<Row>) {
    cursor.Some? ==> AfterCursor(r, cursor.value)
  }

  lemma SelectedArranged(s: Snapshot, from: Option<Row>)
    requires Ids(s.rows)
    ensures var all := Arrange(Selected(s, from));
            && Ordered(all) && Follows(all, from)
            && (forall r :: r in all <==> Visible(s, r) && Passes(r, from))
  {
    KeepDistinct(s.rows, (r: Row) => r.id in s.mine && (from.Some? ==> AfterCursor(r, from.value)), (r: Row) => r.id);
    ArrangeOrdered(Selected(s, from));
    if from.Some? {
      forall r { CursorClauseSkips(r, from.value); }
    }
  }

  // A page is the ordered beginning of what the clause lets through: nothing of that
  // up to the last item is missing.
  lemma PageIsAPrefix(s: Snapshot, cursor: Option<Uuid>, limit: nat)
    requires limit >= 1 && Ids(s.rows)
    ensures var p := GetPage(s, cursor, limit);
            var from := CursorRow(s, cursor);
            && Ordered(p.items) && Follows(p.items, from) && |p.items| <= limit
            && (forall r <- p.items :: Visible(s, r))
            && (p.next.Some? ==> p.items != [] && p.next.value == p.items[|p.items| - 1])
            && (forall r <- p.items :: Passes(r, from))
            && (forall r :: Visible(s, r) && Passes(r, from) ==>
                  r in p.items || (p.next.Some? && Before(p.next.value, r)))
  {
    var from := CursorRow(s, cursor);
    var all := Arrange(Selected(s, from));
    SelectedArranged(s, from);
    var p := GetPage(s, cursor, limit);
    assert p.items == Take(all, limit);
    forall r <- p.items ensures r in all {
      var i :| 0 <= i < |p.items| && p.items[i] == r;
      assert all[i] == r;
    }
    forall r | r in all && r !in p.items ensures p.next.Some? && Before(p.next.value, r) {
      BeyondThePage(all, limit, r);
    }
  }

  lemma BeyondThePage(all: seq<Row>, limit: nat, r: Row)
    requires limit >= 1 && Ordered(all) && r in all && r !in Take(all, limit)
    ensures |all| > limit && Before(all[limit - 1], r)
  {
  }

  // ------------------------------------------------------------------- the walk

  // The pages of a client that follows next cursors, one snapshot a request.
  function Walk(snaps: seq<Snapshot>, cursor: Option<Uuid>, limit: nat): seq<Row>
    requires limit >= 1
  {
    if snaps == [] then []
    else
      var p := GetPage(snaps[0], cursor, limit);
      if p.next.None? then p.items else p.items + Walk(snaps[1..], Some(p.next.value.id), limit)
  }

  predicate Finished(snaps: seq<Snapshot>, cursor: Option<Uuid>, limit: nat)
    requires limit >= 1
  {
    snaps != [] &&
      var p := GetPage(snaps[0], cursor, limit);
      p.next.None? || Finished(snaps[1..], Some(p.next.value.id), limit)
  }

  // Every row used as a cursor is found unchanged by the request that uses it.
  ghost predicate CursorsHold(snaps: seq<Snapshot>, cursor: Option<Uuid>, limit: nat)
    requires limit >= 1
  {
    snaps == [] ||
      var p := GetPage(snaps[0], cursor, limit);
      p.next.Some? ==>
        && (|snaps| > 1 ==> CursorRow(snaps[1], Some(p.next.value.id)) == p.next)
        && CursorsHold(snaps[1..], Some(p.next.value.id), limit)
  }

  lemma {:induction false} WalkIsOrdered(snaps: seq<Snapshot>, cursor: Option<Uuid>, limit: nat)
    requires limit >= 1 && (forall s <- snaps :: Ids(s.rows)) && CursorsHold(snaps, cursor, limit)
    ensures Ordered(Walk(snaps, cursor, limit))
    ensures snaps != [] ==> Follows(Walk(snaps, cursor, limit), CursorRow(snaps[0], cursor))
  {
    if snaps != [] {
      PageIsAPrefix(snaps[0], cursor, limit);
      var p := GetPage(snaps[0], cursor, limit);
      if p.next.Some? {
        var rest := Walk(snaps[1..], Some(p.next.value.id), limit);
        WalkIsOrdered(snaps[1..], Some(p.next.value.id), limit);
        JoinOrdered(p.items, rest, CursorRow(snaps[0], cursor));
      }
    }
  }

  lemma JoinOrdered(a: seq<Row>, b: seq<Row>, from: Option<Row>)
    requires Ordered(a) && Ordered(b) && a != [] && Follows(a, from) && (b != [] ==> Follows(b, Some(a[|a| - 1])))
    ensures Ordered(a + b) && Follows(a + b, from)
  {
    var all, last := a + b, a[|a| - 1];
    forall i, j | 0 <= i < |a| <= j < |all| ensures Before(all[i], all[j]) {
      assert all[j] in b && (a[i] == last || Before(a[i], last));
      BeforeIsStrictTotal(a[i], last, all[j]);
    }
    if from.Some? {
      forall r <- all ensures Before(from.value, r) {
        if r in b {
          assert last in a;
          BeforeIsStrictTotal(from.value, last, r);
        }
      }
    }
  }

  // Following cursors to the end while other rows are created, bumped or deleted:
  // the whole result is strictly in order, so no row comes twice, and each row that
  // every request could see unchanged is in it, unless it shares the millisecond of
  // one of the user's rows, which may have been a cursor.
  lemma {:induction false} StableRowsComeExactlyOnce(snaps: seq<Snapshot>, cursor: Option<Uuid>, limit: nat, r: Row)
    requires limit >= 1 && (forall s <- snaps :: Ids(s.rows)) && CursorsHold(snaps, cursor, limit)
    requires Finished(snaps, cursor, limit)
    requires forall s <- snaps :: Visible(s, r)
    requires forall s <- snaps, c <- s.rows :: c.id in s.mine ==> !Skipped(r, c)
    requires Passes(r, CursorRow(snaps[0], cursor))
    ensures Ordered(Walk(snaps, cursor, limit)) && r in Walk(snaps, cursor, limit)
  {
    WalkIsOrdered(snaps, cursor, limit);
    PageIsAPrefix(snaps[0], cursor, limit);
    assert Visible(snaps[0], r);
    var p := GetPage(snaps[0], cursor, limit);
    if p.next.Some? && r !in p.items {
      assert p.next.value in p.items && Visible(snaps[0], p.next.value);
      CursorClauseSkips(r, p.next.value);
      assert |snaps| > 1;
      StableRowsComeExactlyOnce(snaps[1..], Some(p.next.value.id), limit, r);
    }
  }

  // What happens when a cursor does not hold: an item of a page is offered again by
  // the next request exactly when the cursor row is gone or has moved in front of it,
  // to another millisecond.
  lemma {:induction false} OfferedAgainIff(s: Snapshot, t: Snapshot, cursor: Option<Uuid>, limit: nat, r: Row)
    requires limit >= 1 && Ids(s.rows) && Ids(t.rows) && GetPage(s, cursor, limit).next.Some?
    requires r in GetPage(s, cursor, limit).items && Visible(t, r)
    ensures var moved := CursorRow(t, Some(GetPage(s, cursor, limit).next.value.id));
            r in Arrange(Selected(t, moved)) <==> moved.None? || (Before(moved.value, r) && !Skipped(r, moved.value))
  {
    var moved := CursorRow(t, Some(GetPage(s, cursor, limit).next.value.id));
    SelectedArranged(t, moved);
    if moved.Some? {
      CursorClauseSkips(r, moved.value);
    }
  }

  // The rows still to come after a cursor.
  ghost function ToCome(s: Snapshot, cursor: Option<Row>): set<Row> {
    set r | r in s.rows && r.id in s.mine && (cursor.Some? ==> Before(cursor.value, r))
  }

  // Those among them that the user could not see before: an invitation accepted
  // meanwhile shows a conversation without touching its stamp, so it may well come
  // to be behind the cursor.
  ghost function Joined(s: Snapshot, t: Snapshot, cursor: Option<Row>): set<Row> {
    set r | r in ToCome(t, cursor) && !Visible(s, r)
  }

  // Whatever happens between two pages whose cursor holds, the rows still to come that
  // were there before are fewer with every page; only what has joined can add to them.
  lemma {:induction false} EveryPageMakesProgress(s: Snapshot, t: Snapshot, cursor: Option<Uuid>, limit: nat)
    requires limit >= 1 && Ids(s.rows) && GetPage(s, cursor, limit).next.Some?
    requires var last := GetPage(s, cursor, limit).next; CursorRow(t, Some(last.value.id)) == last
    ensures var last := GetPage(s, cursor, limit).next;
            && |ToCome(t, last) - Joined(s, t, last)| < |ToCome(s, CursorRow(s, cursor))|
            && |ToCome(t, last)| < |ToCome(s, CursorRow(s, cursor))| + |Joined(s, t, last)|
            && (Joined(s, t, last) == {} ==> |ToCome(t, last)| < |ToCome(s, CursorRow(s, cursor))|)
  {
    PageIsAPrefix(s, cursor, limit);
    var last := GetPage(s, cursor, limit).next.value;
    var from := CursorRow(s, cursor);
    var joined := Joined(s, t, Some(last));
    assert last in GetPage(s, cursor, limit).items;
    forall r <- ToCome(t, Some(last)) - joined ensures r in ToCome(s, from) && r != last {
      BeforeIsStrictTotal(last, last, last);
      if from.Some? { BeforeIsStrictTotal(from.value, last, r); }
    }
    assert ToCome(t, Some(last)) - joined <= ToCome(s, from) - {last};
    Smaller(ToCome(t, Some(last)) - joined, ToCome(s, from), last);
    assert ToCome(t, Some(last)) == ToCome(t, Some(last)) - joined + joined;
  }

  predicate StillGoing(snaps: seq<Snapshot>, cursor: Option<Uuid>, limit: nat)
    requires limit >= 1
  {
    snaps == [] ||
      var p := GetPage(snaps[0], cursor, limit);
      p.next.Some? && StillGoing(snaps[1..], Some(p.next.value.id), limit)
  }

  // How many rows have joined behind the cursor, over a whole walk.
  ghost function JoinedOnTheWay(snaps: seq<Snapshot>, cursor: Option<Uuid>, limit: nat): nat
    requires limit >= 1
  {
    if |snaps| <= 1 then 0 else
    var p := GetPage(snaps[0], cursor, limit);
    if p.next.None? then 0 else
    |Joined(snaps[0], snaps[1], p.next)| + JoinedOnTheWay(snaps[1..], Some(p.next.value.id), limit)
  }

  // So a walk whose cursors hold comes to an end: it has not asked for more pages than
  // there were rows to come at its beginning and rows that joined on the way.
  lemma {:induction false} WalkIsBounded(snaps: seq<Snapshot>, cursor: Option<Uuid>, limit: nat)
    requires limit >= 1 && snaps != [] && (forall s <- snaps :: Ids(s.rows))
    requires CursorsHold(snaps, cursor, limit) && StillGoing(snaps, cursor, limit)
    ensures |snaps| <= |ToCome(snaps[0], CursorRow(snaps[0], cursor))| + JoinedOnTheWay(snaps, cursor, limit)
  {
    var s, last := snaps[0], GetPage(snaps[0], cursor, limit).next.value;
    if |snaps| == 1 {
      PageIsAPrefix(s, cursor, limit);
      NextIsFound(s, last);
      EveryPageMakesProgress(s, s, cursor, limit);
    } else {
      EveryPageMakesProgress(s, snaps[1], cursor, limit);
      WalkIsBounded(snaps[1..], Some(last.id), limit);
    }
  }

  lemma Smaller(a: set<Row>, b: set<Row>, x: Row)
    requires a <= b - {x} && x in b
    ensures |a| < |b|
  {
    Subset(a, b - {x});
  }

  lemma {:induction false} Subset(a: set<Row>, b: set<Row>)
    requires a <= b
    ensures |a| <= |b|
    decreases |a|
  {
    if a != {} {
      var x :| x in a;
      Subset(a - {x}, b - {x});
    }
  }

  // ------------------------------------------------------------- a table at rest

  // The same client when nothing changes; it always comes to an end.
  ghost function FullWalk(s: Snapshot, cursor: Option<Uuid>, limit: nat): seq<Row>
    requires limit >= 1 && Ids(s.rows)
    decreases |ToCome(s, CursorRow(s, cursor))|
  {
    var p := GetPage(s, cursor, limit);
    if p.next.None? then p.items
    else
      PageIsAPrefix(s, cursor, limit);
      NextIsFound(s, p.next.value);
      EveryPageMakesProgress(s, s, cursor, limit);
      p.items + FullWalk(s, Some(p.next.value.id), limit)
  }

  lemma NextIsFound(s: Snapshot, r: Row)
    requires Ids(s.rows) && r in s.rows
    ensures FindRow(s.rows, r.id) == Some(r)
  {
  }

  lemma SplitAtLast(s: Snapshot, cursor: Option<Uuid>, limit: nat, r: Row)
    requires limit >= 1 && Ids(s.rows) && GetPage(s, cursor, limit).next.Some?
    ensures var p := GetPage(s, cursor, limit);
            (r in p.items || (Visible(s, r) && Before(p.next.value, r)))
            <==> Visible(s, r) && Passes(r, CursorRow(s, cursor))
  {
    PageIsAPrefix(s, cursor, limit);
    var p := GetPage(s, cursor, limit);
    var from := CursorRow(s, cursor);
    assert p.next.value in p.items;
    if from.Some? && Before(p.next.value, r) {
      AfterCursorIsUpward(p.next.value, r, from.value);
    }
  }

  // No visible row is skipped by another as a cursor.
  ghost predicate Apart(s: Snapshot) {
    forall r, c :: Visible(s, r) && Visible(s, c) ==> !Skipped(r, c)
  }

  lemma PageThenRest(s: Snapshot, cursor: Option<Uuid>, limit: nat)
    requires limit >= 1 && Ids(s.rows) && Apart(s)
    ensures var p := GetPage(s, cursor, limit);
            Arrange(Selected(s, CursorRow(s, cursor))) ==
              if p.next.None? then p.items else p.items + Arrange(Selected(s, p.next))
  {
    var all := Arrange(Selected(s, CursorRow(s, cursor)));
    var p := GetPage(s, cursor, limit);
    if p.next.Some? {
      var rest := Arrange(Selected(s, p.next));
      PageIsAPrefix(s, cursor, limit);
      SelectedArranged(s, CursorRow(s, cursor));
      SelectedArranged(s, p.next);
      JoinOrdered(p.items, rest, None);
      assert p.next.value in p.items;
      forall r ensures r in p.items + rest <==> r in all {
        SplitAtLast(s, cursor, limit, r);
        CursorClauseSkips(r, p.next.value);
      }
      OrderedUnique(p.items + rest, all);
    }
  }

  // Concatenated, the pages of a static table are the list sorted once, whatever the page size.
  lemma {:induction false} FullWalkIsTheSortedList(s: Snapshot, cursor: Option<Uuid>, limit: nat)
    requires limit >= 1 && Ids(s.rows) && Apart(s)
    ensures FullWalk(s, cursor, limit) == Arrange(Selected(s, CursorRow(s, cursor)))
    decreases |ToCome(s, CursorRow(s, cursor))|
  {
    var p := GetPage(s, cursor, limit);
    PageThenRest(s, cursor, limit);
    if p.next.Some? {
      PageIsAPrefix(s, cursor, limit);
      NextIsFound(s, p.next.value);
      EveryPageMakesProgress(s, s, cursor, limit);
      FullWalkIsTheSortedList(s, Some(p.next.value.id), limit);
    }
  }

  lemma {:induction false} RestPasses(s: Snapshot, cursor: Option<Uuid>, limit: nat, r: Row)
    requires limit >= 1 && Ids(s.rows) && r in FullWalk(s, cursor, limit)
    ensures Passes(r, CursorRow(s, cursor))
    decreases |ToCome(s, CursorRow(s, cursor))|
  {
    var p := GetPage(s, cursor, limit);
    var from := CursorRow(s, cursor);
    PageIsAPrefix(s, cursor, limit);
    if r !in p.items {
      var last := p.next.value;
      assert last in p.items;
      NextIsFound(s, last);
      EveryPageMakesProgress(s, s, cursor, limit);
      RestPasses(s, Some(last.id), limit, r);
      CursorClauseSkips(r, last);
      if from.Some? {
        AfterCursorIsUpward(last, r, from.value);
      }
    }
  }

  lemma NotAhead(all: seq<Row>, c: Row, r: Row) returns (i: nat)
    requires Ordered(all) && c in all && r in all && Before(c, r)
    ensures i + 1 < |all| && all[i] == c && r !in all[..i + 1]
  {
    i :| 0 <= i < |all| && all[i] == c;
    var j :| 0 <= j < |all| && all[j] == r;
    BeforeIsStrictTotal(c, r, c);
    forall k | 0 <= k < i + 1 ensures all[k] != r {
      BeforeIsStrictTotal(r, r, r);
    }
  }

  // A row that a cursor skips is on no page of the walk that uses this cursor.
  lemma SkippedIsLost(s: Snapshot, c: Row, r: Row) returns (limit: nat)
    requires Ids(s.rows) && Visible(s, c) && Visible(s, r) && Skipped(r, c)
    ensures limit >= 1 && r !in FullWalk(s, None, limit) && r in Arrange(Selected(s, None))
  {
    var all := Arrange(Selected(s, None));
    SelectedArranged(s, None);
    var i := NotAhead(all, c, r);
    limit := i + 1;
    assert GetPage(s, None, limit) == Page(all[..limit], Some(c));
    NextIsFound(s, c);
    if r in FullWalk(s, Some(c.id), limit) {
      RestPasses(s, Some(c.id), limit, r);
      CursorClauseSkips(r, c);
    }
  }

  ghost predicate EveryWalkIsComplete(s: Snapshot)
    requires Ids(s.rows)
  {
    forall limit: nat | limit >= 1 :: FullWalk(s, None, limit) == Arrange(Selected(s, None))
  }

  // The walk is the sorted list for every page size exactly when no visible row
  // shares its millisecond with one that would skip it.
  lemma WalkIsCompleteIff(s: Snapshot)
    requires Ids(s.rows)
    ensures EveryWalkIsComplete(s) <==> Apart(s)
  {
    if Apart(s) {
      forall limit: nat | limit >= 1 ensures FullWalk(s, None, limit) == Arrange(Selected(s, None)) {
        FullWalkIsTheSortedList(s, None, limit);
      }
    } else {
      var r, c :| Visible(s, r) && Visible(s, c) && Skipped(r, c);
      var limit := SkippedIsLost(s, c, r);
      assert FullWalk(s, None, limit) != Arrange(Selected(s, None));
    }
  }

  // --------------------------------------------------- the second query and its order

  // new Map(rows.map(row => [row.id, row])): a later row replaces an earlier one.
  function ById(rows: seq<Row>): (m: map<Uuid, Row>)
    ensures forall id <- m :: m[id] in rows && m[id].id == id
    ensures forall r <- rows :: r.id in m
  {
    if rows == [] then map[]
    else
      assert forall x :: x in rows <==> x in rows[..|rows| - 1] || x == rows[|rows| - 1];
      ById(rows[..|rows| - 1])[rows[|rows| - 1].id := rows[|rows| - 1]]
  }

  function Reorder(ids: seq<Uuid>, rows: seq<Row>): seq<Option<Row>> {
    var rowsById := ById(rows);
    Map(ids, (id: Uuid) => if id in rowsById then Some(rowsById[id]) else None)
  }

  // The details are fetched in no particular order; put back by id they are the
  // page again, in its order.
  lemma ReorderRestoresTheOrder(page: seq<Row>, fetched: seq<Row>)
    requires Ids(page) && multiset(fetched) == multiset(page)
    ensures Reorder(Map(page, (r: Row) => r.id), fetched) == Map(page, (r: Row) => Some(r))
  {
    var rowsById := ById(fetched);
    forall i | 0 <= i < |page| ensures page[i].id in rowsById && rowsById[page[i].id] == page[i] {
      assert page[i] in multiset(fetched);
      var found := rowsById[page[i].id];
      assert found in multiset(page);
      SameKeySameRow(page, (r: Row) => r.id, found, page[i]);
    }
  }
}
