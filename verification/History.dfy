/**
 * The history of a conversation, page by page: the newest messages before the
 * cursor and the oldest events before it, merged and cut.
 */
module History {
  import opened Prelude
  import opened Tables

  datatype Entry = Entry(id: Uuid, at: Stamp, isEvent: bool)

  // The rows of one conversation.
  datatype Rows = Rows(messages: seq<Entry>, events: seq<Entry>)

  datatype Page = Page(items: seq<Entry>, next: Option<Uuid>)

  // ------------------------------------------------------------------- ordering

  // The database compares stamps, JavaScript compares the Dates read from them.
  datatype Precision = Exact | Millisecond

  predicate NotLater(a: Entry, b: Entry, unit: Precision) {
    match unit
    case Exact => !Earlier(b.at, a.at)
    case Millisecond => a.at.date <= b.at.date
  }

  // In front of everything that is not older: equal times keep their order.
  function InsertByTime(e: Entry, rest: seq<Entry>, unit: Precision): (r: seq<Entry>)
    ensures |r| == |rest| + 1 && (forall x :: x in r <==> x == e || x in rest)
  {
    if rest == [] then [e]
    else if NotLater(e, rest[0], unit) then
      [e] + rest
    else
      assert forall x :: x in rest <==> x == rest[0] || x in rest[1..];
      [rest[0]] + InsertByTime(e, rest[1..], unit)
  }

  // ORDER BY createdAt ASC (exact), and history.sort (by the millisecond, stable).
  function SortByTime(rows: seq<Entry>, unit: Precision): (r: seq<Entry>)
    ensures |r| == |rows| && (forall x :: x in r <==> x in rows)
  {
    if rows == [] then []
    else
      assert forall x :: x in rows <==> x == rows[0] || x in rows[1..];
      InsertByTime(rows[0], SortByTime(rows[1..], unit), unit)
  }

  ghost predicate Ascending(rows: seq<Entry>) {
    forall i, j :: 0 <= i < j < |rows| ==> rows[i].at.date < rows[j].at.date
  }

  // No two entries fall into the same millisecond.
  predicate Times(rows: seq<Entry>) {
    Distinct(rows, (e: Entry) => e.at.date)
  }

  lemma {:induction false} InsertAscending(e: Entry, rest: seq<Entry>, unit: Precision)
    requires Ascending(rest) && forall x <- rest :: x.at.date != e.at.date
    ensures Ascending(InsertByTime(e, rest, unit))
  {
    if rest != [] && !NotLater(e, rest[0], unit) {
      InsertAscending(e, rest[1..], unit);
      var tail := InsertByTime(e, rest[1..], unit);
      forall j | 0 <= j < |tail| ensures rest[0].at.date < tail[j].at.date {
        assert tail[j] == e || tail[j] in rest[1..];
      }
    }
  }

  lemma {:induction false} SortAscending(rows: seq<Entry>, unit: Precision)
    requires Times(rows)
    ensures Ascending(SortByTime(rows, unit))
  {
    if rows != [] {
      SortAscending(rows[1..], unit);
      forall x <- SortByTime(rows[1..], unit) ensures x.at.date != rows[0].at.date {
        assert x in rows[1..];
        var i :| 0 <= i < |rows[1..]| && rows[1..][i] == x;
        assert rows[i + 1] == x;
      }
      InsertAscending(rows[0], SortByTime(rows[1..], unit), unit);
    }
  }

  lemma EarlierIsEarlier(rows: seq<Entry>, k: nat, x: Entry)
    requires Ascending(rows) && k < |rows| && x in rows
    ensures x in rows[..k] <==> x.at.date < rows[k].at.date
  {
  }

  // Two ascending lists of the same entries are the same list.
  lemma {:induction false} AscendingUnique(a: seq<Entry>, b: seq<Entry>)
    requires Ascending(a) && Ascending(b) && forall x :: x in a <==> x in b
    ensures a == b
  {
    if a != [] && b != [] {
      LastIsLatest(a);
      LastIsLatest(b);
      var p, q := a[|a| - 1], b[|b| - 1];
      assert p in b && q in a;
      var early, late := a[..|a| - 1], b[..|b| - 1];
      forall x ensures x in early <==> x in late {
        if x in a { EarlierIsEarlier(a, |a| - 1, x); EarlierIsEarlier(b, |b| - 1, x); }
      }
      AscendingUnique(early, late);
      SameTimeSameEntry(a, p, q);
      assert a == early + [p] && b == late + [q];
    } else if a != [] {
      LastIsLatest(a);
    } else if b != [] {
      LastIsLatest(b);
    }
  }

  lemma LastIsLatest(a: seq<Entry>)
    requires Ascending(a) && a != []
    ensures a[|a| - 1] in a && forall x <- a :: x.at.date <= a[|a| - 1].at.date
  {
  }

  lemma SameTimeSameEntry(a: seq<Entry>, x: Entry, y: Entry)
    requires Ascending(a) && x in a && y in a && x.at.date == y.at.date
    ensures x == y
  {
  }

  function Reverse(rows: seq<Entry>): (r: seq<Entry>)
    ensures |r| == |rows| && (forall i :: 0 <= i < |rows| ==> r[i] == rows[|rows| - 1 - i])
  {
    if rows == [] then [] else Reverse(rows[1..]) + [rows[0]]
  }

  // --------------------------------------------------------------------- queries

  // Both bounds are Dates: `since` was stored from one, a cursor's stamp was read into one.
  predicate InRange(e: Entry, since: Option<Time>, before: Option<Time>) {
    (since.Some? ==> Earlier(Stamp(since.value, 0), e.at)) && (before.Some? ==> Earlier(e.at, Stamp(before.value, 0)))
  }

  function Between(rows: seq<Entry>, since: Option<Time>, before: Option<Time>): seq<Entry> {
    Keep(rows, (e: Entry) => InRange(e, since, before))
  }

  function TimeOf(rows: seq<Entry>, id: Option<Uuid>): (t: Option<Time>)
    ensures t.Some? ==> id.Some? && exists e <- rows :: e.id == id.value && e.at.date == t.value
    ensures t.None? && id.Some? ==> forall e <- rows :: e.id != id.value
  {
    if id.None? || rows == [] then None
    else
      assert forall x :: x in rows <==> x == rows[0] || x in rows[1..];
      if rows[0].id == id.value then Some(rows[0].at.date) else TimeOf(rows[1..], id)
  }

  function NewestMessages(rows: Rows, since: Option<Time>, cursor: Option<Uuid>, limit: nat): seq<Entry> {
    Take(Reverse(SortByTime(Between(rows.messages, since, TimeOf(rows.messages, cursor)), Exact)), limit + 1)
  }

  function OldestEvents(rows: Rows, cursor: Option<Uuid>, limit: nat): seq<Entry> {
    Take(SortByTime(Between(rows.events, None, TimeOf(rows.events, cursor)), Exact), limit + 1)
  }

  // `since` is the member's softDeletedAt.
  function GetHistory(rows: Rows, since: Option<Time>, cursor: Option<Uuid>, limit: nat): Page {
    var merged := NewestMessages(rows, since, cursor, limit) + OldestEvents(rows, cursor, limit);
    var history := SortByTime(merged, Millisecond);
    var items := Take(history, limit + 1);
    Page(items, if |history| > limit then Some(items[0].id) else None)
  }

  // ------------------------------------------------------- conversations without events

  lemma {:induction false} SortOfReverse(rows: seq<Entry>)
    requires Ascending(rows)
    ensures SortByTime(Reverse(rows), Millisecond) == rows
  {
    var r := Reverse(rows);
    forall i, j | 0 <= i < j < |r| ensures r[i].at.date != r[j].at.date {
      assert r[i] == rows[|rows| - 1 - i] && r[j] == rows[|rows| - 1 - j];
    }
    SortAscending(r, Millisecond);
    forall x ensures x in r <==> x in rows {
      if x in rows {
        var i :| 0 <= i < |rows| && rows[i] == x;
        assert r[|rows| - 1 - i] == x;
      }
    }
    AscendingUnique(SortByTime(r, Millisecond), rows);
  }

  // Where the latest limit + 1 entries of a list begin.
  function Cut(left: seq<Entry>, limit: nat): (k: nat)
    ensures k <= |left| && (|left| > limit ==> k < |left|)
  {
    if |left| <= limit + 1 then 0 else |left| - (limit + 1)
  }

  lemma TimesKept(rows: seq<Entry>, since: Option<Time>, before: Option<Time>)
    requires Times(rows)
    ensures Ascending(SortByTime(Between(rows, since, before), Exact))
  {
    KeepDistinct(rows, (e: Entry) => InRange(e, since, before), (e: Entry) => e.at.date);
    SortAscending(Between(rows, since, before), Exact);
  }

  function Visible(rows: Rows, since: Option<Time>): seq<Entry> {
    Between(rows.messages, since, None)
  }

  ghost predicate Eventless(rows: Rows) {
    rows.events == [] && Distinct(rows.messages, (e: Entry) => e.id)
  }

  // No two visible messages in the same millisecond.
  ghost predicate Spread(rows: Rows, since: Option<Time>) {
    Distinct(rows.messages, (e: Entry) => e.id) && Times(Visible(rows, since))
  }

  ghost predicate Plain(rows: Rows, since: Option<Time>) {
    Eventless(rows) && Spread(rows, since)
  }

  lemma {:induction false} DistinctWithin<K>(rows: seq<Entry>, p: Entry -> bool, q: Entry -> bool, key: Entry -> K)
    requires Distinct(Keep(rows, p), key) && forall e :: q(e) ==> p(e)
    ensures Distinct(Keep(rows, q), key)
  {
    if rows != [] {
      var front, last := rows[..|rows| - 1], rows[|rows| - 1];
      var before := Keep(front, p);
      assert p(last) ==> Keep(rows, p)[..|before|] == before && Keep(rows, p)[|before|] == last;
      forall i, j | 0 <= i < j < |before| ensures key(before[i]) != key(before[j]) {
        assert Keep(rows, p)[i] == before[i] && Keep(rows, p)[j] == before[j];
      }
      DistinctWithin(front, p, q, key);
      if q(last) {
        forall x <- Keep(front, q) ensures key(x) != key(last) {
          assert x in before;
          var i :| 0 <= i < |before| && before[i] == x;
          assert Keep(rows, p)[i] == x;
        }
      }
    }
  }

  lemma VisibleTimes(rows: Rows, since: Option<Time>, before: Option<Time>)
    requires Times(Visible(rows, since))
    ensures Ascending(SortByTime(Between(rows.messages, since, before), Exact))
  {
    DistinctWithin(rows.messages, (e: Entry) => InRange(e, since, None), (e: Entry) => InRange(e, since, before),
                   (e: Entry) => e.at.date);
    SortAscending(Between(rows.messages, since, before), Exact);
  }

  // What is still to be shown to someone who has got to `cursor`.
  function ToShow(rows: Rows, since: Option<Time>, cursor: Option<Uuid>): seq<Entry> {
    SortByTime(Between(rows.messages, since, TimeOf(rows.messages, cursor)), Exact)
  }

  lemma NewestAreTheLatest(rows: Rows, since: Option<Time>, cursor: Option<Uuid>, limit: nat)
    ensures var left := ToShow(rows, since, cursor);
            NewestMessages(rows, since, cursor, limit) == Reverse(left[Cut(left, limit)..])
  {
  }

  // A page is the latest limit + 1 of what is left, oldest first; its oldest entry
  // is the next cursor, unless limit or fewer were left.
  lemma PageIsTheLatest(rows: Rows, since: Option<Time>, cursor: Option<Uuid>, limit: nat)
    requires Plain(rows, since)
    ensures var left := ToShow(rows, since, cursor);
            GetHistory(rows, since, cursor, limit)
            == Page(left[Cut(left, limit)..], if |left| > limit then Some(left[Cut(left, limit)].id) else None)
  {
    var left := ToShow(rows, since, cursor);
    VisibleTimes(rows, since, TimeOf(rows.messages, cursor));
    NewestAreTheLatest(rows, since, cursor, limit);
    NoEvents(rows, cursor, limit);
    var latest := left[Cut(left, limit)..];
    SortOfReverse(latest);
    assert Reverse(latest) + [] == Reverse(latest);
    OnePage(NewestMessages(rows, since, cursor, limit) + OldestEvents(rows, cursor, limit), latest, limit);
  }

  lemma NoEvents(rows: Rows, cursor: Option<Uuid>, limit: nat)
    requires rows.events == []
    ensures OldestEvents(rows, cursor, limit) == []
  {
  }

  lemma OnePage(merged: seq<Entry>, latest: seq<Entry>, limit: nat)
    requires SortByTime(merged, Millisecond) == latest && |latest| <= limit + 1
    ensures Take(SortByTime(merged, Millisecond), limit + 1) == latest
  {
  }

  // What the next cursor leaves is exactly what the page did not show.
  lemma NextLeavesTheRest(rows: Rows, since: Option<Time>, cursor: Option<Uuid>, k: nat)
    requires Spread(rows, since) && k < |ToShow(rows, since, cursor)|
    ensures var left := ToShow(rows, since, cursor); ToShow(rows, since, Some(left[k].id)) == left[..k]
  {
    var left := ToShow(rows, since, cursor);
    var before := TimeOf(rows.messages, cursor);
    var e := left[k];
    assert e in Between(rows.messages, since, before);
    CursorTime(rows.messages, e);
    VisibleTimes(rows, since, before);
    VisibleTimes(rows, since, Some(e.at.date));
    forall x ensures x in ToShow(rows, since, Some(e.id)) <==> x in left[..k] {
      if x in left { EarlierIsEarlier(left, k, x); }
    }
    AscendingUnique(ToShow(rows, since, Some(e.id)), left[..k]);
  }

  lemma CursorTime(rows: seq<Entry>, e: Entry)
    requires e in rows && Distinct(rows, (x: Entry) => x.id)
    ensures TimeOf(rows, Some(e.id)) == Some(e.at.date)
  {
  }

  lemma {:induction false} FirstIsOldest(rows: seq<Entry>, unit: Precision)
    ensures rows != [] ==> forall x <- rows :: SortByTime(rows, unit)[0].at.date <= x.at.date
  {
    if rows != [] {
      FirstIsOldest(rows[1..], unit);
      assert forall x :: x in rows <==> x == rows[0] || x in rows[1..];
      if |rows| > 1 {
        assert SortByTime(rows[1..], unit)[0] in rows[1..];
      }
    }
  }

  lemma PageIsSorted(rows: Rows, since: Option<Time>, cursor: Option<Uuid>, limit: nat)
    requires Eventless(rows)
    ensures var left := ToShow(rows, since, cursor);
            var history := SortByTime(Reverse(left[Cut(left, limit)..]), Millisecond);
            GetHistory(rows, since, cursor, limit)
            == Page(history, if |history| > limit then Some(history[0].id) else None)
  {
    NewestAreTheLatest(rows, since, cursor, limit);
    NoEvents(rows, cursor, limit);
    OnlyMessages(rows, since, cursor, SortByTime(NewestMessages(rows, since, cursor, limit), Millisecond), limit);
  }

  // The page in general: the latest of what is left, its oldest entry as the cursor.
  lemma PageInGeneral(rows: Rows, since: Option<Time>, cursor: Option<Uuid>, limit: nat)
    requires Eventless(rows)
    ensures var left, p := ToShow(rows, since, cursor), GetHistory(rows, since, cursor, limit);
            && (forall x :: x in p.items <==> x in left[Cut(left, limit)..])
            && (p.next.Some? <==> |left| > limit)
            && (p.next.Some? ==> p.items != [] && p.items[0] in rows.messages && p.next == Some(p.items[0].id))
            && (p.next.Some? ==> forall x <- p.items :: p.items[0].at.date <= x.at.date)
  {
    var left := ToShow(rows, since, cursor);
    var latest := left[Cut(left, limit)..];
    PageIsSorted(rows, since, cursor, limit);
    ReverseMembers(latest);
    FirstIsOldest(Reverse(latest), Millisecond);
    if |left| > limit {
      var first := SortByTime(Reverse(latest), Millisecond)[0];
      assert first in Reverse(latest) && first in latest && first in left;
    }
  }

  lemma {:induction false} KeepFewer(rows: seq<Entry>, p: Entry -> bool, q: Entry -> bool, x: Entry)
    requires x in rows && p(x) && !q(x) && forall e :: q(e) ==> p(e)
    ensures |Keep(rows, q)| < |Keep(rows, p)|
  {
    var front, last := rows[..|rows| - 1], rows[|rows| - 1];
    assert rows == front + [last];
    if x in front {
      KeepFewer(front, p, q, x);
    } else {
      KeepNoMore(front, p, q);
    }
  }

  lemma {:induction false} KeepNoMore(rows: seq<Entry>, p: Entry -> bool, q: Entry -> bool)
    requires forall e :: q(e) ==> p(e)
    ensures |Keep(rows, q)| <= |Keep(rows, p)|
  {
    if rows != [] {
      KeepNoMore(rows[..|rows| - 1], p, q);
    }
  }

  // The next cursor leaves what is older than its millisecond, which is less.
  lemma NextLeaves(rows: Rows, since: Option<Time>, cursor: Option<Uuid>, limit: nat)
    requires Eventless(rows) && GetHistory(rows, since, cursor, limit).next.Some?
    ensures var left, p := ToShow(rows, since, cursor), GetHistory(rows, since, cursor, limit);
            && p.items != [] && |ToShow(rows, since, p.next)| < |left|
            && (forall x :: x in ToShow(rows, since, p.next) <==> x in left && x.at.date < p.items[0].at.date)
  {
    var left, p := ToShow(rows, since, cursor), GetHistory(rows, since, cursor, limit);
    PageInGeneral(rows, since, cursor, limit);
    var first := p.items[0];
    assert first in p.items && first in left;
    CursorTime(rows.messages, first);
    var before := TimeOf(rows.messages, cursor);
    KeepFewer(rows.messages, (e: Entry) => InRange(e, since, before),
              (e: Entry) => InRange(e, since, Some(first.at.date)), first);
  }

  // A client that asks for older pages until there is no cursor.
  ghost function FullHistory(rows: Rows, since: Option<Time>, cursor: Option<Uuid>, limit: nat): seq<Entry>
    requires Eventless(rows)
    decreases |ToShow(rows, since, cursor)|
  {
    var p := GetHistory(rows, since, cursor, limit);
    if p.next.None? then p.items
    else
      NextLeaves(rows, since, cursor, limit);
      FullHistory(rows, since, p.next, limit) + p.items
  }

  lemma NextPageIsSmaller(rows: Rows, since: Option<Time>, cursor: Option<Uuid>, limit: nat)
    requires Plain(rows, since) && GetHistory(rows, since, cursor, limit).next.Some?
    ensures var left, p := ToShow(rows, since, cursor), GetHistory(rows, since, cursor, limit);
            && p.items != [] && ToShow(rows, since, p.next) + p.items == left
            && |ToShow(rows, since, p.next)| < |left|
  {
    var left := ToShow(rows, since, cursor);
    PageIsTheLatest(rows, since, cursor, limit);
    NextLeavesTheRest(rows, since, cursor, Cut(left, limit));
    assert left == left[..Cut(left, limit)] + left[Cut(left, limit)..];
  }

  // The walk shows every visible message exactly once, in order of time.
  lemma {:induction false} WalkShowsEverythingOnce(rows: Rows, since: Option<Time>, cursor: Option<Uuid>, limit: nat)
    requires Plain(rows, since)
    ensures FullHistory(rows, since, cursor, limit) == ToShow(rows, since, cursor)
    ensures Ascending(ToShow(rows, since, cursor))
    decreases |ToShow(rows, since, cursor)|
  {
    var p := GetHistory(rows, since, cursor, limit);
    VisibleTimes(rows, since, TimeOf(rows.messages, cursor));
    if p.next.Some? {
      NextPageIsSmaller(rows, since, cursor, limit);
      WalkShowsEverythingOnce(rows, since, p.next, limit);
    } else {
      LastPageIsTheRest(rows, since, cursor, limit);
    }
  }

  lemma LastPageIsTheRest(rows: Rows, since: Option<Time>, cursor: Option<Uuid>, limit: nat)
    requires Plain(rows, since)
    ensures var left, p := ToShow(rows, since, cursor), GetHistory(rows, since, cursor, limit);
            && (p.next.None? <==> |left| <= limit) && (p.next.None? ==> p.items == left) && |p.items| <= limit + 1
  {
    PageIsTheLatest(rows, since, cursor, limit);
  }

  // When exactly limit + 1 are left there is still a cursor, and the page behind it is empty.
  lemma LastPageMayBeEmpty(rows: Rows, since: Option<Time>, cursor: Option<Uuid>, limit: nat)
    requires Plain(rows, since) && |ToShow(rows, since, cursor)| == limit + 1
    ensures var p := GetHistory(rows, since, cursor, limit);
            p.next.Some? && GetHistory(rows, since, p.next, limit) == Page([], None)
  {
    PageIsTheLatest(rows, since, cursor, limit);
    NextLeavesTheRest(rows, since, cursor, 0);
    PageIsTheLatest(rows, since, GetHistory(rows, since, cursor, limit).next, limit);
  }

  // ------------------------------------------------- messages of the same millisecond

  ghost predicate Rising(rows: seq<Entry>) {
    forall i, j :: 0 <= i <= j < |rows| ==> rows[i].at.date <= rows[j].at.date
  }

  lemma {:induction false} SortRises(rows: seq<Entry>, unit: Precision)
    ensures Rising(SortByTime(rows, unit))
  {
    if rows != [] {
      SortRises(rows[1..], unit);
      InsertRises(rows[0], SortByTime(rows[1..], unit), unit);
    }
  }

  lemma {:induction false} InsertRises(e: Entry, rest: seq<Entry>, unit: Precision)
    requires Rising(rest)
    ensures Rising(InsertByTime(e, rest, unit))
  {
    if rest != [] {
      if NotLater(e, rest[0], unit) {
        assert e.at.date <= rest[0].at.date;
      } else {
        assert rest[0].at.date <= e.at.date;
        InsertRises(e, rest[1..], unit);
        var tail := InsertByTime(e, rest[1..], unit);
        forall j | 0 <= j < |tail| ensures rest[0].at.date <= tail[j].at.date {
          assert tail[j] == e || tail[j] in rest[1..];
        }
      }
    }
  }

  lemma {:induction false} SortDistinct(rows: seq<Entry>, unit: Precision)
    requires Distinct(rows, (e: Entry) => e.id)
    ensures Distinct(SortByTime(rows, unit), (e: Entry) => e.id)
  {
    if rows != [] {
      SortDistinct(rows[1..], unit);
      forall x <- SortByTime(rows[1..], unit) ensures x.id != rows[0].id {
        assert x in rows[1..];
        var i :| 0 <= i < |rows[1..]| && rows[1..][i] == x;
        assert rows[i + 1] == x;
      }
      InsertDistinct(rows[0], SortByTime(rows[1..], unit), unit);
    }
  }

  lemma {:induction false} InsertDistinct(e: Entry, rest: seq<Entry>, unit: Precision)
    requires Distinct(rest, (x: Entry) => x.id) && forall x <- rest :: x.id != e.id
    ensures Distinct(InsertByTime(e, rest, unit), (x: Entry) => x.id)
  {
    if rest != [] && !NotLater(e, rest[0], unit) {
      InsertDistinct(e, rest[1..], unit);
      var tail := InsertByTime(e, rest[1..], unit);
      forall j | 0 <= j < |tail| ensures rest[0].id != tail[j].id {
        assert tail[j] == e || tail[j] in rest[1..];
        if tail[j] != e {
          var i :| 0 <= i < |rest[1..]| && rest[1..][i] == tail[j];
          assert rest[i + 1] == tail[j];
        }
      }
    }
  }

  lemma {:induction false} WalkShowsOnlyWhatIsLeft(rows: Rows, since: Option<Time>, cursor: Option<Uuid>, limit: nat,
                                                   x: Entry)
    requires Eventless(rows) && x in FullHistory(rows, since, cursor, limit)
    ensures x in ToShow(rows, since, cursor)
    decreases |ToShow(rows, since, cursor)|
  {
    var left, p := ToShow(rows, since, cursor), GetHistory(rows, since, cursor, limit);
    PageInGeneral(rows, since, cursor, limit);
    if x in p.items {
      assert x in left[Cut(left, limit)..];
    } else {
      NextLeaves(rows, since, cursor, limit);
      WalkShowsOnlyWhatIsLeft(rows, since, p.next, limit, x);
    }
  }

  lemma PageFrom(rows: Rows, since: Option<Time>, b: nat)
    requires Eventless(rows) && 0 < b < |ToShow(rows, since, None)|
    ensures var left := ToShow(rows, since, None);
            var p := GetHistory(rows, since, None, |left| - b - 1);
            && left[b - 1] !in p.items && p.next.Some? && p.items != [] && p.items[0].at.date <= left[b].at.date
  {
    var left := ToShow(rows, since, None);
    PageInGeneral(rows, since, None, |left| - b - 1);
    VisibleIds(rows, since);
    CutAt(left, b);
    OnOrBehind(GetHistory(rows, since, None, |left| - b - 1), left, b);
  }

  lemma CutAt(left: seq<Entry>, b: nat)
    requires 0 < b < |left|
    ensures Cut(left, |left| - b - 1) == b
  {
  }

  lemma OnOrBehind(p: Page, left: seq<Entry>, b: nat)
    requires Distinct(left, (e: Entry) => e.id) && 0 < b < |left| && p.items != []
    requires forall x :: x in p.items <==> x in left[b..]
    requires forall x <- p.items :: p.items[0].at.date <= x.at.date
    ensures left[b - 1] !in p.items && p.items[0].at.date <= left[b].at.date
  {
    NotInTheRest(left, b);
  }

  // A message that is not on a page and no older than the page is on no later page.
  lemma LostBehind(rows: Rows, since: Option<Time>, cursor: Option<Uuid>, limit: nat, m: Entry)
    requires Eventless(rows) && m !in GetHistory(rows, since, cursor, limit).items
    requires var p := GetHistory(rows, since, cursor, limit);
             p.next.Some? && p.items != [] && p.items[0].at.date <= m.at.date
    ensures m !in FullHistory(rows, since, cursor, limit)
  {
    var p := GetHistory(rows, since, cursor, limit);
    NextLeaves(rows, since, cursor, limit);
    var rest := FullHistory(rows, since, p.next, limit);
    if m in rest {
      WalkShowsOnlyWhatIsLeft(rows, since, p.next, limit, m);
    }
    assert FullHistory(rows, since, cursor, limit) == rest + p.items;
  }

  // A page that ends between two messages of one millisecond loses the older one.
  lemma SameMillisecondIsLost(rows: Rows, since: Option<Time>, b: nat)
    requires Eventless(rows)
    requires var left := ToShow(rows, since, None); 0 < b < |left| && left[b - 1].at.date == left[b].at.date
    ensures var left := ToShow(rows, since, None);
            left[b - 1] !in FullHistory(rows, since, None, |left| - b - 1)
  {
    var left := ToShow(rows, since, None);
    PageFrom(rows, since, b);
    LostBehind(rows, since, None, |left| - b - 1, left[b - 1]);
  }

  lemma NotInTheRest(left: seq<Entry>, b: nat)
    requires Distinct(left, (e: Entry) => e.id) && 0 < b < |left|
    ensures left[b - 1] !in left[b..] && left[b] in left[b..]
  {
  }

  lemma VisibleIds(rows: Rows, since: Option<Time>)
    requires Eventless(rows)
    ensures var left := ToShow(rows, since, None);
            Distinct(left, (e: Entry) => e.id) && Rising(left)
  {
    KeepDistinct(rows.messages, (e: Entry) => InRange(e, since, None), (e: Entry) => e.id);
    SortDistinct(Visible(rows, since), Exact);
    SortRises(Visible(rows, since), Exact);
  }

  ghost predicate EveryWalkIsComplete(rows: Rows, since: Option<Time>)
    requires Eventless(rows)
  {
    forall limit: nat :: forall m <- Visible(rows, since) :: m in FullHistory(rows, since, None, limit)
  }

  // Every walk shows every visible message, for every page size, exactly when no two
  // visible messages share a millisecond.
  lemma WalkIsCompleteIff(rows: Rows, since: Option<Time>)
    requires Eventless(rows)
    ensures EveryWalkIsComplete(rows, since) <==> Times(Visible(rows, since))
  {
    if Times(Visible(rows, since)) {
      forall limit: nat ensures forall m <- Visible(rows, since) :: m in FullHistory(rows, since, None, limit) {
        WalkShowsEverythingOnce(rows, since, None, limit);
      }
    } else {
      var b := SameMillisecondNeighbours(rows, since);
      SameMillisecondIsLost(rows, since, b);
      var left := ToShow(rows, since, None);
      assert left[b - 1] in Visible(rows, since);
      assert !(forall m <- Visible(rows, since) :: m in FullHistory(rows, since, None, |left| - b - 1));
    }
  }

  lemma SameMillisecondNeighbours(rows: Rows, since: Option<Time>) returns (b: nat)
    requires Eventless(rows) && !Times(Visible(rows, since))
    ensures var left := ToShow(rows, since, None); 0 < b < |left| && left[b - 1].at.date == left[b].at.date
  {
    var seen, left := Visible(rows, since), ToShow(rows, since, None);
    var i, j :| 0 <= i < j < |seen| && seen[i].at.date == seen[j].at.date;
    KeepDistinct(rows.messages, (e: Entry) => InRange(e, since, None), (e: Entry) => e.id);
    VisibleIds(rows, since);
    assert seen[i] in left && seen[j] in left && seen[i].id != seen[j].id;
    b := Neighbours(left, seen[i], seen[j]);
  }

  lemma Neighbours(left: seq<Entry>, x: Entry, y: Entry) returns (b: nat)
    requires Rising(left) && x in left && y in left && x != y && x.at.date == y.at.date
    ensures 0 < b < |left| && left[b - 1].at.date == left[b].at.date
  {
    var p :| 0 <= p < |left| && left[p] == x;
    var q :| 0 <= q < |left| && left[q] == y;
    b := if p < q then q else p;
    assert (if p < q then p else q) <= b - 1;
  }

  lemma ReverseMembers(rows: seq<Entry>)
    ensures forall x :: x in Reverse(rows) <==> x in rows
  {
  }

  lemma OnlyMessages(rows: Rows, since: Option<Time>, cursor: Option<Uuid>, latest: seq<Entry>, limit: nat)
    requires OldestEvents(rows, cursor, limit) == []
    requires SortByTime(NewestMessages(rows, since, cursor, limit), Millisecond) == latest
    requires |latest| <= limit + 1
    ensures GetHistory(rows, since, cursor, limit)
            == Page(latest, if |latest| > limit then Some(latest[0].id) else None)
  {
    var merged := NewestMessages(rows, since, cursor, limit) + OldestEvents(rows, cursor, limit);
    assert merged == NewestMessages(rows, since, cursor, limit);
    OnePage(merged, latest, limit);
  }

  lemma NoEventCursor(rows: seq<Entry>, cursor: Option<Uuid>)
    requires cursor.Some? ==> forall e <- rows :: e.id != cursor.value
    ensures TimeOf(rows, cursor) == None && TimeOf(rows, None) == None
  {
  }

  lemma EmptyOrNot(rows: seq<Entry>)
    ensures rows == [] || rows[0] in rows
  {
  }
}
