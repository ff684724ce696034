/**
 * The history of a group. Its first event, the creation, is older than every
 * message, and the event query answers a message cursor from the beginning: so a
 * walk comes back to the creation, and may never end.
 */
module GroupHistory {
  import opened Prelude
  import opened Tables
  import opened History

  // What every group has: an event in front of all other entries. Messages have
  // milliseconds of their own, and ids are not shared.
  ghost predicate Founded(rows: Rows, since: Option<Time>, first: Entry) {
    && Spread(rows, since) && Distinct(rows.events, (e: Entry) => e.id)
    && first in rows.events
    && (forall e <- rows.events :: e == first || first.at.date < e.at.date)
    && (forall m <- Visible(rows, since) :: first.at.date < m.at.date)
    && (forall e, m :: e in rows.events && m in rows.messages ==> e.id != m.id)
  }

  predicate IsEventId(rows: Rows, id: Uuid) {
    exists e <- rows.events :: e.id == id
  }

  function AtMost(n: nat, limit: nat): nat {
    if n <= limit + 1 then n else limit + 1
  }

  // ------------------------------------------------------------------ the three pages

  // A cursor that is no event leaves the events as they are.
  lemma EventsFromTheStart(rows: Rows, since: Option<Time>, first: Entry, cursor: Option<Uuid>, limit: nat)
    requires Founded(rows, since, first) && (cursor.Some? ==> !IsEventId(rows, cursor.value))
    ensures var oldest := OldestEvents(rows, cursor, limit);
            && oldest == Take(SortByTime(rows.events, Exact), limit + 1) && |oldest| == AtMost(|rows.events|, limit)
            && oldest != [] && oldest[0] == first && (forall e <- oldest :: e in rows.events)
  {
    NoEventCursor(rows.events, cursor);
    KeepAll(rows.events, (e: Entry) => InRange(e, None, None));
    FirstIsOldest(rows.events, Exact);
    var sorted := SortByTime(rows.events, Exact);
    assert sorted[0] in rows.events;
  }

  // The merged list of a page that no event asked for begins with the first event.
  lemma MergedFromTheFirst(rows: Rows, since: Option<Time>, first: Entry, cursor: Option<Uuid>, limit: nat)
    requires Founded(rows, since, first) && (cursor.Some? ==> !IsEventId(rows, cursor.value))
    ensures var merged := NewestMessages(rows, since, cursor, limit) + OldestEvents(rows, cursor, limit);
            var history := SortByTime(merged, Millisecond);
            && |history| == AtMost(|ToShow(rows, since, cursor)|, limit) + AtMost(|rows.events|, limit)
            && history[0] == first
  {
    var newest, oldest := NewestMessages(rows, since, cursor, limit), OldestEvents(rows, cursor, limit);
    var left := ToShow(rows, since, cursor);
    EventsFromTheStart(rows, since, first, cursor, limit);
    NewestAreTheLatest(rows, since, cursor, limit);
    FirstIsOldest(newest + oldest, Millisecond);
    var start := SortByTime(newest + oldest, Millisecond)[0];
    assert first in newest + oldest by {
      assert oldest[0] in oldest;
    }
    assert start in newest + oldest;
    NewestAreLater(rows, since, first, cursor, limit);
    assert start in newest ==> first.at.date < start.at.date;
  }

  lemma NewestAreLater(rows: Rows, since: Option<Time>, first: Entry, cursor: Option<Uuid>, limit: nat)
    requires Founded(rows, since, first)
    ensures forall m <- NewestMessages(rows, since, cursor, limit) :: first.at.date < m.at.date
  {
    var left := ToShow(rows, since, cursor);
    NewestAreTheLatest(rows, since, cursor, limit);
    ReverseMembers(left[Cut(left, limit)..]);
    forall m <- NewestMessages(rows, since, cursor, limit) ensures first.at.date < m.at.date {
      assert m in left && m in Visible(rows, since);
    }
  }

  // So its next cursor, if there is one, is the first event.
  lemma PageOfTheFirst(rows: Rows, since: Option<Time>, first: Entry, cursor: Option<Uuid>, limit: nat)
    requires Founded(rows, since, first) && (cursor.Some? ==> !IsEventId(rows, cursor.value))
    ensures var p := GetHistory(rows, since, cursor, limit);
            var total := AtMost(|ToShow(rows, since, cursor)|, limit) + AtMost(|rows.events|, limit);
            p.next == if total > limit then Some(first.id) else None
  {
    MergedFromTheFirst(rows, since, first, cursor, limit);
  }

  // The page behind the first event is the newest messages alone.
  lemma PageBehindTheFirst(rows: Rows, since: Option<Time>, first: Entry, limit: nat)
    requires Founded(rows, since, first)
    ensures var left := ToShow(rows, since, None);
            var k := Cut(left, limit);
            GetHistory(rows, since, Some(first.id), limit)
            == Page(left[k..], if |left| > limit then Some(left[k].id) else None)
  {
    var left := ToShow(rows, since, None);
    var latest := left[Cut(left, limit)..];
    NoEventCursor(rows.messages, Some(first.id));
    VisibleTimes(rows, since, None);
    SortOfReverse(latest);
    NewestAreTheLatest(rows, since, Some(first.id), limit);
    NothingBeforeTheFirst(rows, since, first, limit);
    OnlyMessages(rows, since, Some(first.id), latest, limit);
  }

  lemma NothingBeforeTheFirst(rows: Rows, since: Option<Time>, first: Entry, limit: nat)
    requires Founded(rows, since, first)
    ensures OldestEvents(rows, Some(first.id), limit) == []
  {
    CursorTime(rows.events, first);
    EmptyOrNot(Between(rows.events, None, Some(first.at.date)));
  }

  // ------------------------------------------------------------------------ the walk

  // The n-th page of a client that follows the cursors, if the walk gets that far.
  function NthPage(pages: Option<Uuid> -> Page, n: nat): Option<Page> {
    if n == 0 then Some(pages(None))
    else match NthPage(pages, n - 1)
      case None => None
      case Some(p) => if p.next.None? then None else Some(pages(p.next))
  }

  ghost predicate Ends(pages: Option<Uuid> -> Page) {
    exists n: nat :: NthPage(pages, n).None?
  }

  predicate OnPage(pages: Option<Uuid> -> Page, n: nat, x: Entry) {
    var p := NthPage(pages, n);
    p.Some? && x in p.value.items
  }

  ghost predicate IsShown(pages: Option<Uuid> -> Page, x: Entry) {
    exists n: nat :: OnPage(pages, n, x)
  }

  // Two cursors that lead to each other take turns for ever.
  lemma {:induction false} TakingTurns(pages: Option<Uuid> -> Page, a: Uuid, b: Uuid, n: nat)
    requires pages(None).next == Some(a) && pages(Some(a)).next == Some(b) && pages(Some(b)).next == Some(a)
    ensures NthPage(pages, n) == Some(pages(if n == 0 then None else if n % 2 == 1 then Some(a) else Some(b)))
  {
    if n > 0 {
      TakingTurns(pages, a, b, n - 1);
    }
  }

  lemma ShownInTurns(pages: Option<Uuid> -> Page, a: Uuid, b: Uuid, x: Entry)
    requires pages(None).next == Some(a) && pages(Some(a)).next == Some(b) && pages(Some(b)).next == Some(a)
    ensures !Ends(pages)
    ensures IsShown(pages, x) <==> x in pages(None).items || x in pages(Some(a)).items || x in pages(Some(b)).items
  {
    forall n: nat
      ensures NthPage(pages, n) == Some(pages(if n == 0 then None else if n % 2 == 1 then Some(a) else Some(b)))
    {
      TakingTurns(pages, a, b, n);
    }
    assert x in pages(None).items ==> OnPage(pages, 0, x);
    assert x in pages(Some(a)).items ==> OnPage(pages, 1, x);
    assert x in pages(Some(b)).items ==> OnPage(pages, 2, x);
  }

  // A walk of at most three pages.
  lemma ShortWalk(pages: Option<Uuid> -> Page)
    requires var p := pages(None); p.next.None? || pages(p.next).next.None? || pages(pages(p.next).next).next.None?
    ensures Ends(pages)
    ensures forall x <- pages(None).items :: IsShown(pages, x)
    ensures pages(None).next.Some? ==> forall x <- pages(pages(None).next).items :: IsShown(pages, x)
    ensures pages(None).next.Some? && pages(pages(None).next).next.Some? ==>
              forall x <- pages(pages(pages(None).next).next).items :: IsShown(pages, x)
  {
    var p := pages(None);
    assert NthPage(pages, 0) == Some(p);
    forall x <- p.items ensures IsShown(pages, x) { assert OnPage(pages, 0, x); }
    if p.next.None? {
      assert NthPage(pages, 1).None?;
    } else {
      var q := pages(p.next);
      assert NthPage(pages, 1) == Some(q);
      forall x <- q.items ensures IsShown(pages, x) { assert OnPage(pages, 1, x); }
      if q.next.None? {
        assert NthPage(pages, 2).None?;
      } else {
        assert NthPage(pages, 2) == Some(pages(q.next));
        forall x <- pages(q.next).items ensures IsShown(pages, x) { assert OnPage(pages, 2, x); }
        assert NthPage(pages, 3).None?;
      }
    }
  }

  function Pages(rows: Rows, since: Option<Time>, limit: nat): Option<Uuid> -> Page {
    (cursor: Option<Uuid>) => GetHistory(rows, since, cursor, limit)
  }

  predicate Cycles(rows: Rows, since: Option<Time>, limit: nat) {
    var left := ToShow(rows, since, None);
    |left| > limit && |left| + |rows.events| > 2 * limit + 1
  }

  // The cursor of the second page, when it has one, and what it leaves.
  lemma SecondCursor(rows: Rows, since: Option<Time>, first: Entry, limit: nat)
    requires Founded(rows, since, first) && |ToShow(rows, since, None)| > limit
    ensures var left, pages := ToShow(rows, since, None), Pages(rows, since, limit);
            var k := Cut(left, limit);
            && k < |left| && !IsEventId(rows, left[k].id) && ToShow(rows, since, Some(left[k].id)) == left[..k]
            && pages(None).next == Some(first.id)
            && pages(Some(first.id)) == Page(left[k..], Some(left[k].id))
            && pages(Some(left[k].id)).next == if Cycles(rows, since, limit) then Some(first.id) else None
  {
    var left := ToShow(rows, since, None);
    var k := Cut(left, limit);
    assert left[k] in left && left[k] in rows.messages;
    NextLeavesTheRest(rows, since, None, k);
    PageOfTheFirst(rows, since, first, None, limit);
    PageBehindTheFirst(rows, since, first, limit);
    PageOfTheFirst(rows, since, first, Some(left[k].id), limit);
    assert |rows.events| > 0;
  }

  // The pages of a walk that cycles: behind the first page the newest messages and
  // the page behind them take turns. A message is shown only on these two.
  lemma WalkWithEventsCycles(rows: Rows, since: Option<Time>, first: Entry, limit: nat, m: Entry)
    requires Founded(rows, since, first) && Cycles(rows, since, limit) && m in Visible(rows, since)
    ensures var left, pages := ToShow(rows, since, None), Pages(rows, since, limit);
            var k := Cut(left, limit);
            && !Ends(pages)
            && (IsShown(pages, m) <==> m in left[k..] || m in pages(Some(left[k].id)).items)
  {
    var left := ToShow(rows, since, None);
    SecondCursor(rows, since, first, limit);
    NoMessageIsAnEvent(rows, since, first, m);
    OnlyTheNewest(rows, since, None, limit, m);
    TurnsShow(Pages(rows, since, limit), left, Cut(left, limit), first.id, m);
  }

  lemma TurnsShow(pages: Option<Uuid> -> Page, left: seq<Entry>, k: nat, a: Uuid, m: Entry)
    requires k < |left| && pages(None).next == Some(a) && pages(Some(a)) == Page(left[k..], Some(left[k].id))
    requires pages(Some(left[k].id)).next == Some(a) && (m in pages(None).items ==> m in left[k..])
    ensures !Ends(pages) && (IsShown(pages, m) <==> m in left[k..] || m in pages(Some(left[k].id)).items)
  {
    ShownInTurns(pages, a, left[k].id, m);
  }

  lemma NoMessageIsAnEvent(rows: Rows, since: Option<Time>, first: Entry, m: Entry)
    requires Founded(rows, since, first) && m in Visible(rows, since)
    ensures m !in rows.events
  {
  }

  // A message on a page is one of the newest that are left.
  lemma OnlyTheNewest(rows: Rows, since: Option<Time>, cursor: Option<Uuid>, limit: nat, m: Entry)
    requires m !in rows.events
    ensures var left := ToShow(rows, since, cursor);
            m in GetHistory(rows, since, cursor, limit).items ==> m in left[Cut(left, limit)..]
  {
    var left := ToShow(rows, since, cursor);
    NewestAreTheLatest(rows, since, cursor, limit);
    ReverseMembers(left[Cut(left, limit)..]);
    var newest, oldest := NewestMessages(rows, since, cursor, limit), OldestEvents(rows, cursor, limit);
    TakenMember(SortByTime(Between(rows.events, None, TimeOf(rows.events, cursor)), Exact), limit + 1, m);
    TakenMember(SortByTime(newest + oldest, Millisecond), limit + 1, m);
  }

  lemma TakenMember(rows: seq<Entry>, n: nat, x: Entry)
    ensures x in Take(rows, n) ==> x in rows
  {
  }

  // When a page has no cursor, nothing was cut from it.
  lemma UncutPage(rows: Rows, since: Option<Time>, cursor: Option<Uuid>, limit: nat)
    requires GetHistory(rows, since, cursor, limit).next.None?
    ensures var left := ToShow(rows, since, cursor);
            forall m <- left[Cut(left, limit)..] :: m in GetHistory(rows, since, cursor, limit).items
  {
    var left := ToShow(rows, since, cursor);
    NewestAreTheLatest(rows, since, cursor, limit);
    ReverseMembers(left[Cut(left, limit)..]);
  }

  lemma AllOnOnePage(rows: Rows, since: Option<Time>, first: Entry, limit: nat)
    requires Founded(rows, since, first) && |ToShow(rows, since, None)| <= limit
    ensures Ends(Pages(rows, since, limit)) && forall m <- Visible(rows, since) :: IsShown(Pages(rows, since, limit), m)
  {
    var left, pages := ToShow(rows, since, None), Pages(rows, since, limit);
    PageOfTheFirst(rows, since, first, None, limit);
    PageBehindTheFirst(rows, since, first, limit);
    assert left[0..] == left;
    if pages(None).next.None? {
      UncutPage(rows, since, None, limit);
    }
    ShortWalk(pages);
  }

  lemma AllOnTwoPages(rows: Rows, since: Option<Time>, first: Entry, limit: nat)
    requires Founded(rows, since, first) && |ToShow(rows, since, None)| > limit && !Cycles(rows, since, limit)
    ensures Ends(Pages(rows, since, limit)) && forall m <- Visible(rows, since) :: IsShown(Pages(rows, since, limit), m)
  {
    var left := ToShow(rows, since, None);
    var k := Cut(left, limit);
    SecondCursor(rows, since, first, limit);
    assert |rows.events| > 0 && k <= limit;
    assert left[..k][0..] == left[..k];
    UncutPage(rows, since, Some(left[k].id), limit);
    ThreePagesShow(Pages(rows, since, limit), left, k, first.id);
  }

  lemma ThreePagesShow(pages: Option<Uuid> -> Page, left: seq<Entry>, k: nat, a: Uuid)
    requires k < |left| && pages(None).next == Some(a) && pages(Some(a)) == Page(left[k..], Some(left[k].id))
    requires pages(Some(left[k].id)).next.None? && forall m <- left[..k] :: m in pages(Some(left[k].id)).items
    ensures Ends(pages) && forall m <- left :: IsShown(pages, m)
  {
    ShortWalk(pages);
    assert left == left[..k] + left[k..];
  }

  // The walk through a group ends exactly when one page holds all its messages, or
  // messages and events together fit two pages; then it has shown every message.
  lemma WalkEndsIff(rows: Rows, since: Option<Time>, first: Entry, limit: nat)
    requires Founded(rows, since, first)
    ensures var left, pages := ToShow(rows, since, None), Pages(rows, since, limit);
            && (Ends(pages) <==> |left| <= limit || |left| + |rows.events| <= 2 * limit + 1)
            && (Ends(pages) ==> forall m <- Visible(rows, since) :: IsShown(pages, m))
  {
    var left := ToShow(rows, since, None);
    if Cycles(rows, since, limit) {
      WalkWithEventsCycles(rows, since, first, limit, left[0]);
    } else if |left| <= limit {
      AllOnOnePage(rows, since, first, limit);
    } else {
      AllOnTwoPages(rows, since, first, limit);
    }
  }

  // ------------------------------------------------------- which messages a cycle shows

  // No event shares its millisecond with another entry.
  ghost predicate EventsApart(rows: Rows, since: Option<Time>) {
    Times(rows.events) && forall e <- rows.events, m <- Visible(rows, since) :: e.at.date != m.at.date
  }

  function Sooner(rows: seq<Entry>, m: Entry): set<Entry> {
    set x | x in rows && x.at.date < m.at.date
  }

  lemma {:induction false} AscendingSize(rows: seq<Entry>)
    requires Ascending(rows)
    ensures |SetOf(rows)| == |rows|
  {
    if rows != [] {
      var front, last := rows[..|rows| - 1], rows[|rows| - 1];
      AscendingSize(front);
      assert SetOf(rows) == SetOf(front) + {last};
      assert last !in front;
    }
  }

  // An entry is among the first n of a sorted list exactly when fewer than n are older.
  lemma TakenIff(rows: seq<Entry>, unit: Precision, n: nat, m: Entry)
    requires Times(rows) && m in rows
    ensures m in Take(SortByTime(rows, unit), n) <==> |Sooner(rows, m)| < n
  {
    var sorted := SortByTime(rows, unit);
    SortAscending(rows, unit);
    var i :| 0 <= i < |sorted| && sorted[i] == m;
    forall x ensures x in Sooner(rows, m) <==> x in SetOf(sorted[..i]) {
      if x in rows { EarlierIsEarlier(sorted, i, x); }
    }
    assert Sooner(rows, m) == SetOf(sorted[..i]);
    AscendingSize(sorted[..i]);
    if i < n {
      assert Take(sorted, n)[i] == m;
    }
  }

  // The oldest events that every page carries which no event asked for.
  function Carried(rows: Rows, limit: nat): seq<Entry> {
    Take(SortByTime(rows.events, Exact), limit + 1)
  }

  lemma CarriedEvents(rows: Rows, limit: nat)
    requires Times(rows.events)
    ensures Ascending(Carried(rows, limit)) && forall e <- Carried(rows, limit) :: e in rows.events
  {
    SortAscending(rows.events, Exact);
  }

  lemma MergedApart(left: seq<Entry>, events: seq<Entry>)
    requires Ascending(left) && Ascending(events) && forall e <- events, m <- left :: e.at.date != m.at.date
    ensures Times(Reverse(left) + events)
  {
    var merged := Reverse(left) + events;
    forall i, j | 0 <= i < j < |merged| ensures merged[i].at.date != merged[j].at.date {
      if j < |left| {
        assert merged[i] == left[|left| - 1 - i] && merged[j] == left[|left| - 1 - j];
      } else if i < |left| {
        assert merged[i] == left[|left| - 1 - i] && merged[j] in events;
      }
    }
  }

  lemma SoonerThan(left: seq<Entry>, i: nat)
    requires Ascending(left) && i < |left|
    ensures Sooner(left, left[i]) == SetOf(left[..i]) && |Sooner(left, left[i])| == i
  {
    forall x ensures x in Sooner(left, left[i]) <==> x in SetOf(left[..i]) {
      if x in left { EarlierIsEarlier(left, i, x); }
    }
    AscendingSize(left[..i]);
  }

  lemma SoonerOfBoth(left: seq<Entry>, events: seq<Entry>, m: Entry)
    ensures Sooner(Reverse(left) + events, m) == Sooner(left, m) + Sooner(events, m)
  {
    ReverseMembers(left);
  }

  lemma SoonerInMerged(left: seq<Entry>, events: seq<Entry>, i: nat)
    requires Ascending(left) && i < |left| && forall e <- events, m <- left :: e.at.date != m.at.date
    ensures |Sooner(Reverse(left) + events, left[i])| == i + |Sooner(events, left[i])|
  {
    SoonerThan(left, i);
    SoonerOfBoth(left, events, left[i]);
    assert Sooner(left, left[i]) !! Sooner(events, left[i]);
  }

  lemma PageItems(rows: Rows, since: Option<Time>, first: Entry, cursor: Option<Uuid>, limit: nat)
    requires Founded(rows, since, first) && (cursor.Some? ==> !IsEventId(rows, cursor.value))
    ensures var left := ToShow(rows, since, cursor);
            GetHistory(rows, since, cursor, limit).items
            == Take(SortByTime(Reverse(left[Cut(left, limit)..]) + Carried(rows, limit), Millisecond), limit + 1)
  {
    EventsFromTheStart(rows, since, first, cursor, limit);
    NewestAreTheLatest(rows, since, cursor, limit);
  }

  lemma AmongTheFirst(latest: seq<Entry>, events: seq<Entry>, limit: nat, j: nat)
    requires Ascending(latest) && Ascending(events) && forall e <- events, m <- latest :: e.at.date != m.at.date
    requires j < |latest|
    ensures latest[j] in Take(SortByTime(Reverse(latest) + events, Millisecond), limit + 1)
            <==> j + |Sooner(events, latest[j])| <= limit
  {
    MergedApart(latest, events);
    ReverseMembers(latest);
    TakenIff(Reverse(latest) + events, Millisecond, limit + 1, latest[j]);
    SoonerInMerged(latest, events, j);
  }

  lemma ReachApart(rows: Rows, since: Option<Time>, cursor: Option<Uuid>, limit: nat)
    requires Spread(rows, since) && EventsApart(rows, since)
    ensures var left := ToShow(rows, since, cursor);
            var latest := left[Cut(left, limit)..];
            && Ascending(latest) && Ascending(Carried(rows, limit))
            && forall e <- Carried(rows, limit), m <- latest :: e.at.date != m.at.date
  {
    var left := ToShow(rows, since, cursor);
    LeftIsVisible(rows, since, cursor);
    CarriedEvents(rows, limit);
    var latest := left[Cut(left, limit)..];
    forall m <- latest ensures m in Visible(rows, since) {
      assert m in left;
    }
  }

  lemma InReachIff(rows: Rows, since: Option<Time>, first: Entry, cursor: Option<Uuid>, limit: nat, j: nat)
    requires Founded(rows, since, first) && EventsApart(rows, since)
    requires cursor.Some? ==> !IsEventId(rows, cursor.value)
    requires var left := ToShow(rows, since, cursor); j < |left[Cut(left, limit)..]|
    ensures var left := ToShow(rows, since, cursor);
            var m := left[Cut(left, limit)..][j];
            m in GetHistory(rows, since, cursor, limit).items <==> j + |Sooner(Carried(rows, limit), m)| <= limit
  {
    var left := ToShow(rows, since, cursor);
    ReachApart(rows, since, cursor, limit);
    PageItems(rows, since, first, cursor, limit);
    AmongTheFirst(left[Cut(left, limit)..], Carried(rows, limit), limit, j);
  }

  // A message is on a page that no event asked for exactly when it is one of the
  // newest left and few enough entries of the page are older.
  lemma OnPageIff(rows: Rows, since: Option<Time>, first: Entry, cursor: Option<Uuid>, limit: nat, i: nat)
    requires Founded(rows, since, first) && EventsApart(rows, since)
    requires cursor.Some? ==> !IsEventId(rows, cursor.value)
    requires i < |ToShow(rows, since, cursor)|
    ensures var left := ToShow(rows, since, cursor);
            var k := Cut(left, limit);
            left[i] in GetHistory(rows, since, cursor, limit).items
            <==> i >= k && i - k + |Sooner(Carried(rows, limit), left[i])| <= limit
  {
    var left := ToShow(rows, since, cursor);
    var k := Cut(left, limit);
    if i >= k {
      InReachIff(rows, since, first, cursor, limit, i - k);
      assert left[k..][i - k] == left[i];
    } else {
      LeftIsVisible(rows, since, cursor);
      BeyondTheCut(left, k, i);
      NoMessageIsAnEvent(rows, since, first, left[i]);
      OnlyTheNewest(rows, since, cursor, limit, left[i]);
    }
  }

  lemma LeftIsVisible(rows: Rows, since: Option<Time>, cursor: Option<Uuid>)
    requires Spread(rows, since)
    ensures Ascending(ToShow(rows, since, cursor))
    ensures forall m <- ToShow(rows, since, cursor) :: m in Visible(rows, since)
  {
    VisibleTimes(rows, since, TimeOf(rows.messages, cursor));
  }

  // The messages a cycling walk shows: the newest limit + 1, and of the limit + 1
  // before them those with few enough of them and of the carried events in front.
  // It never shows any other.
  lemma CycleShowsIff(rows: Rows, since: Option<Time>, first: Entry, limit: nat, i: nat)
    requires Founded(rows, since, first) && EventsApart(rows, since) && Cycles(rows, since, limit)
    requires i < |ToShow(rows, since, None)|
    ensures var left := ToShow(rows, since, None);
            var k := Cut(left, limit);
            var from := Cut(left[..k], limit);
            IsShown(Pages(rows, since, limit), left[i])
            <==> i >= k || (i >= from && i - from + |Sooner(Carried(rows, limit), left[i])| <= limit)
  {
    var left := ToShow(rows, since, None);
    var k := Cut(left, limit);
    SecondCursor(rows, since, first, limit);
    LeftIsVisible(rows, since, None);
    assert left[i] in left;
    WalkWithEventsCycles(rows, since, first, limit, left[i]);
    BeyondTheCut(left, k, i);
    if i < k {
      assert left[..k][i] == left[i];
      OnPageIff(rows, since, first, Some(left[k].id), limit, i);
    }
  }

  lemma BeyondTheCut(left: seq<Entry>, k: nat, i: nat)
    requires Ascending(left) && k <= |left| && i < |left|
    ensures left[i] in left[k..] <==> i >= k
  {
    if i >= k {
      assert left[k..][i - k] == left[i];
    }
  }

  // ------------------------------------------------------ events older than all messages

  ghost predicate EventsOlder(rows: Rows, since: Option<Time>) {
    Times(rows.events) && forall e <- rows.events, m <- Visible(rows, since) :: e.at.date < m.at.date
  }

  // Then a walk is complete exactly when one page holds all messages, or two pages
  // hold the messages and the events that come along.
  lemma OlderEventsCompleteIff(rows: Rows, since: Option<Time>, first: Entry, limit: nat)
    requires Founded(rows, since, first) && EventsOlder(rows, since)
    ensures (forall m <- Visible(rows, since) :: IsShown(Pages(rows, since, limit), m)) <==>
              var left := ToShow(rows, since, None);
              |left| <= limit || |left| + AtMost(|rows.events|, limit) <= 2 * limit + 2
  {
    var left := ToShow(rows, since, None);
    WalkEndsIff(rows, since, first, limit);
    if Cycles(rows, since, limit) {
      forall i: nat | i < |left|
        ensures IsShown(Pages(rows, since, limit), left[i]) <==> CycleReaches(rows, left, limit, i)
      {
        CycleShowsIff(rows, since, first, limit, i);
        AllSooner(rows, since, limit, left[i]);
      }
      EachByIndex(rows, since, limit);
      var k := Cut(left, limit);
      assert |rows.events| > 0;
      if k > 0 {
        assert CycleReaches(rows, left, limit, k - 1) <==> k + AtMost(|rows.events|, limit) <= limit + 1;
        if Cut(left[..k], limit) > 0 {
          assert !CycleReaches(rows, left, limit, 0);
        }
      }
    }
  }

  predicate CycleReaches(rows: Rows, left: seq<Entry>, limit: nat, i: nat)
  {
    var k := Cut(left, limit);
    var from := Cut(left[..k], limit);
    i >= k || (i >= from && i - from + AtMost(|rows.events|, limit) <= limit)
  }

  lemma AllSooner(rows: Rows, since: Option<Time>, limit: nat, m: Entry)
    requires EventsOlder(rows, since) && m in Visible(rows, since)
    ensures |Sooner(Carried(rows, limit), m)| == AtMost(|rows.events|, limit)
  {
    CarriedEvents(rows, limit);
    assert Sooner(Carried(rows, limit), m) == SetOf(Carried(rows, limit));
    AscendingSize(Carried(rows, limit));
  }

  lemma EachByIndex(rows: Rows, since: Option<Time>, limit: nat)
    ensures var left := ToShow(rows, since, None);
            (forall m <- Visible(rows, since) :: IsShown(Pages(rows, since, limit), m))
            <==> (forall i: nat | i < |left| :: IsShown(Pages(rows, since, limit), left[i]))
  {
    var left := ToShow(rows, since, None);
    assert forall m :: m in Visible(rows, since) <==> m in left;
  }

  // Times and ids are all different, and every event is older than every message.
  ghost predicate EventsFirst(rows: Rows) {
    && Times(rows.messages) && Times(rows.events)
    && Distinct(rows.events, (e: Entry) => e.id)
    && (forall e, m :: e in rows.events && m in rows.messages ==> e.at.date < m.at.date && e.id != m.id)
  }

  lemma OldestAscending(rows: Rows, limit: nat)
    requires Times(rows.events)
    ensures Ascending(OldestEvents(rows, None, limit))
    ensures forall e <- OldestEvents(rows, None, limit) :: e in rows.events
  {
    TimesKept(rows.events, None, None);
    var all := SortByTime(Between(rows.events, None, None), Exact);
    forall e <- OldestEvents(rows, None, limit) ensures e in all {
      var i :| 0 <= i < |OldestEvents(rows, None, limit)| && OldestEvents(rows, None, limit)[i] == e;
      assert all[i] == e;
    }
  }

  lemma LatestAscending(rows: Rows, since: Option<Time>, cursor: Option<Uuid>, limit: nat)
    requires Times(rows.messages)
    ensures var left := ToShow(rows, since, cursor);
            Ascending(left[Cut(left, limit)..]) && forall m <- left[Cut(left, limit)..] :: m in rows.messages
  {
    TimesKept(rows.messages, since, TimeOf(rows.messages, cursor));
    var left := ToShow(rows, since, cursor);
    forall m <- left[Cut(left, limit)..] ensures m in left {
    }
  }

  ghost predicate Precede(events: seq<Entry>, messages: seq<Entry>) {
    Ascending(messages) && Ascending(events) && forall e, m :: e in events && m in messages ==> e.at.date < m.at.date
  }

  lemma MergedTimes(messages: seq<Entry>, events: seq<Entry>)
    requires Precede(events, messages)
    ensures Times(Reverse(messages) + events)
  {
  }

  lemma JoinedAscending(messages: seq<Entry>, events: seq<Entry>)
    requires Precede(events, messages)
    ensures Ascending(events + messages)
  {
  }

  // Older events in front, then the messages: that is the merged order.
  lemma MergedOrder(messages: seq<Entry>, events: seq<Entry>)
    requires Precede(events, messages)
    ensures SortByTime(Reverse(messages) + events, Millisecond) == events + messages
  {
    ReverseMembers(messages);
    MergedTimes(messages, events);
    SortAscending(Reverse(messages) + events, Millisecond);
    JoinedAscending(messages, events);
    AscendingUnique(SortByTime(Reverse(messages) + events, Millisecond), events + messages);
  }

  // Events come oldest first, so they crowd the messages out: if there are more
  // than `limit` older events, every page not asked for by an event shows them, and
  // its cursor is the first of them.
  lemma EventsCrowdOutMessages(rows: Rows, since: Option<Time>, cursor: Option<Uuid>, limit: nat)
    requires EventsFirst(rows) && |OldestEvents(rows, None, limit)| == limit + 1
    requires cursor.Some? ==> forall e <- rows.events :: e.id != cursor.value
    ensures var oldest := OldestEvents(rows, None, limit);
            GetHistory(rows, since, cursor, limit) == Page(oldest, Some(oldest[0].id))
  {
    var oldest := OldestEvents(rows, None, limit);
    var left := ToShow(rows, since, cursor);
    var latest := left[Cut(left, limit)..];
    OldestAscending(rows, limit);
    LatestAscending(rows, since, cursor, limit);
    NewestAreTheLatest(rows, since, cursor, limit);
    NoEventCursor(rows.events, cursor);
    MergedOrder(latest, oldest);
    assert (oldest + latest)[..limit + 1] == oldest;
  }
}
