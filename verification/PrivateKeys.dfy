/**
 * The private key of a two-person conversation: the ids without repetition,
 * sorted as text, joined with ':' and hashed. The key depends on the set of ids
 * only, and determines it.
 */
module PrivateKeys {
  import opened Prelude
  import opened Tables
  import opened Store

  // ------------------------------------------------------------ text of an id

  function Digit(d: nat): (c: char)
    requires d < 16
    ensures c != ':'
  {
    if d < 10 then ('0' as int + d) as char else ('a' as int + d - 10) as char
  }

  lemma DigitInjective(d: nat, e: nat)
    requires d < 16 && e < 16 && Digit(d) == Digit(e)
    ensures d == e
  {
  }

  function Canonical(id: Uuid): (text: string)
    ensures text != [] && ':' !in text
  {
    if id < 16 then [Digit(id)] else Canonical(id / 16) + [Digit(id % 16)]
  }

  lemma {:induction false} CanonicalInjective(a: Uuid, b: Uuid)
    requires Canonical(a) == Canonical(b)
    ensures a == b
  {
    var x, y := Canonical(a), Canonical(b);
    assert x[|x| - 1] == Digit(a % 16) && y[|y| - 1] == Digit(b % 16);
    DigitInjective(a % 16, b % 16);
    if a >= 16 && b >= 16 {
      assert x[..|x| - 1] == Canonical(a / 16) && y[..|y| - 1] == Canonical(b / 16);
      CanonicalInjective(a / 16, b / 16);
    }
  }

  // ------------------------------------------- the order Array.prototype.sort uses

  predicate Leq(a: string, b: string) {
    a == [] || (b != [] && (a[0] < b[0] || (a[0] == b[0] && Leq(a[1..], b[1..]))))
  }

  lemma {:induction false} LeqTotal(a: string, b: string)
    ensures Leq(a, b) || Leq(b, a)
  {
    if a != [] && b != [] && a[0] == b[0] {
      LeqTotal(a[1..], b[1..]);
    }
  }

  lemma {:induction false} LeqAntisymmetric(a: string, b: string)
    requires Leq(a, b) && Leq(b, a)
    ensures a == b
  {
    if a != [] && b != [] {
      LeqAntisymmetric(a[1..], b[1..]);
      assert a == [a[0]] + a[1..] && b == [b[0]] + b[1..];
    }
  }

  lemma {:induction false} LeqTransitive(a: string, b: string, c: string)
    requires Leq(a, b) && Leq(b, c)
    ensures Leq(a, c)
  {
    if a != [] && a[0] == b[0] && b[0] == c[0] {
      LeqTransitive(a[1..], b[1..], c[1..]);
    }
  }

  ghost predicate Sorted(xs: seq<string>) {
    forall i, j :: 0 <= i < j < |xs| ==> Leq(xs[i], xs[j])
  }

  function Insert(x: string, xs: seq<string>): (r: seq<string>)
    ensures multiset(r) == multiset(xs) + multiset{x}
  {
    if xs == [] then [x]
    else if Leq(x, xs[0]) then
      assert xs == [xs[0]] + xs[1..];
      [x] + xs
    else
      assert xs == [xs[0]] + xs[1..];
      [xs[0]] + Insert(x, xs[1..])
  }

  lemma {:induction false} InsertSorted(x: string, xs: seq<string>)
    requires Sorted(xs)
    ensures Sorted(Insert(x, xs))
  {
    var r := Insert(x, xs);
    if xs != [] {
      LeqTotal(x, xs[0]);
      if Leq(x, xs[0]) {
        forall i | 0 <= i < |xs| ensures Leq(x, xs[i]) {
          if i > 0 { LeqTransitive(x, xs[0], xs[i]); }
        }
      } else {
        InsertSorted(x, xs[1..]);
        var rest := Insert(x, xs[1..]);
        forall i | 0 <= i < |rest| ensures Leq(xs[0], rest[i]) {
          assert rest[i] in multiset(rest);
          assert rest[i] == x || rest[i] in xs[1..];
        }
      }
    }
  }

  function Sort(xs: seq<string>): (r: seq<string>)
    ensures Sorted(r) && multiset(r) == multiset(xs)
  {
    if xs == [] then []
    else
      var rest := Sort(xs[1..]);
      InsertSorted(xs[0], rest);
      assert xs == [xs[0]] + xs[1..];
      Insert(xs[0], rest)
  }

  lemma LeastIsFirst(xs: seq<string>, x: string)
    requires Sorted(xs) && x in multiset(xs)
    ensures xs != [] && Leq(xs[0], x)
  {
    var i :| 0 <= i < |xs| && xs[i] == x;
    LeqTotal(x, x);
  }

  lemma RestOf(xs: seq<string>)
    requires xs != []
    ensures xs == [xs[0]] + xs[1..] && multiset(xs[1..]) == multiset(xs) - multiset{xs[0]}
  {
  }

  lemma {:induction false} SortedUnique(xs: seq<string>, ys: seq<string>)
    requires Sorted(xs) && Sorted(ys) && multiset(xs) == multiset(ys)
    ensures xs == ys
  {
    if xs == [] {
      assert |multiset(ys)| == 0;
    } else {
      LeastIsFirst(ys, xs[0]);
      LeastIsFirst(xs, ys[0]);
      LeqAntisymmetric(xs[0], ys[0]);
      RestOf(xs);
      RestOf(ys);
      SortedUnique(xs[1..], ys[1..]);
    }
  }

  // --------------------------------------------------------------------- join

  function Join(xs: seq<string>): string
    requires xs != []
  {
    if |xs| == 1 then xs[0] else xs[0] + ":" + Join(xs[1..])
  }

  predicate ColonFree(xs: seq<string>) {
    forall x <- xs :: ':' !in x
  }

  // The text up to the first ':'.
  function Head(s: string): string {
    if s == [] || s[0] == ':' then [] else [s[0]] + Head(s[1..])
  }

  lemma {:induction false} HeadOfColonFree(a: string, rest: string)
    requires ':' !in a && (rest == [] || rest[0] == ':')
    ensures Head(a + rest) == a
  {
    if a == [] {
      assert a + rest == rest;
    } else {
      assert (a + rest)[1..] == a[1..] + rest;
      HeadOfColonFree(a[1..], rest);
    }
  }

  lemma HeadOfJoin(xs: seq<string>)
    requires xs != [] && ColonFree(xs)
    ensures Head(Join(xs)) == xs[0]
  {
    assert ':' !in xs[0];
    if |xs| == 1 {
      HeadOfColonFree(xs[0], []);
      assert xs[0] + [] == xs[0];
    } else {
      HeadOfColonFree(xs[0], ":" + Join(xs[1..]));
      assert xs[0] + (":" + Join(xs[1..])) == Join(xs);
    }
  }

  lemma {:induction false} JoinInjective(xs: seq<string>, ys: seq<string>)
    requires xs != [] && ys != [] && ColonFree(xs) && ColonFree(ys)
    requires Join(xs) == Join(ys)
    ensures xs == ys
  {
    HeadOfJoin(xs);
    HeadOfJoin(ys);
    if |xs| > 1 && |ys| > 1 {
      assert Join(xs[1..]) == Join(xs)[|xs[0]| + 1..];
      assert Join(ys[1..]) == Join(ys)[|ys[0]| + 1..];
      JoinInjective(xs[1..], ys[1..]);
      assert xs == [xs[0]] + xs[1..] && ys == [ys[0]] + ys[1..];
    }
  }

  // ------------------------------------------------------------- the key of a list

  // Each element where it first occurs.
  function Dedup<T(!new,==)>(xs: seq<T>): (r: seq<T>)
    ensures forall x :: x in r <==> x in xs
    ensures Distinct(r, (x: T) => x)
    ensures xs != [] ==> r != []
    ensures |r| <= |xs|
  {
    if xs == [] then []
    else
      var front, last := xs[..|xs| - 1], xs[|xs| - 1];
      assert forall x :: x in xs <==> x in front || x == last;
      if last in front then Dedup(front) else Dedup(front) + [last]
  }

  function KeyOf(texts: seq<string>): Digest
    requires texts != []
  {
    var sorted := Sort(texts);
    assert |multiset(sorted)| == |multiset(texts)|;
    Sha256(Join(sorted))
  }

  lemma {:induction false} AtMostOnce(xs: seq<string>, x: string)
    requires Distinct(xs, (t: string) => t)
    ensures multiset(xs)[x] <= 1
  {
    if xs != [] {
      var rest := xs[1..];
      forall i, j | 0 <= i < j < |rest| ensures rest[i] != rest[j] {
        assert rest[i] == xs[i + 1] && rest[j] == xs[j + 1];
      }
      AtMostOnce(rest, x);
      assert xs == [xs[0]] + rest;
      assert xs[0] !in rest;
    }
  }

  lemma SortColonFree(xs: seq<string>)
    requires ColonFree(xs)
    ensures ColonFree(Sort(xs))
  {
    forall x <- Sort(xs) ensures ':' !in x {
      assert x in multiset(Sort(xs));
    }
  }

  lemma SameKeySameTexts(xs: seq<string>, ys: seq<string>)
    requires xs != [] && ys != [] && ColonFree(xs) && ColonFree(ys) && KeyOf(xs) == KeyOf(ys)
    ensures multiset(xs) == multiset(ys)
  {
    SortColonFree(xs);
    SortColonFree(ys);
    JoinInjective(Sort(xs), Sort(ys));
  }

  lemma SameTextsSameKey(xs: seq<string>, ys: seq<string>)
    requires xs != [] && ys != [] && multiset(xs) == multiset(ys)
    ensures KeyOf(xs) == KeyOf(ys)
  {
    SortedUnique(Sort(xs), Sort(ys));
  }

  lemma SameTextsSameMultiset(xs: seq<string>, ys: seq<string>)
    requires Distinct(xs, (t: string) => t) && Distinct(ys, (t: string) => t)
    ensures multiset(xs) == multiset(ys) <==> forall x :: x in xs <==> x in ys
  {
    if forall x :: x in xs <==> x in ys {
      forall x ensures multiset(xs)[x] == multiset(ys)[x] {
        AtMostOnce(xs, x);
        AtMostOnce(ys, x);
        assert x in xs <==> x in multiset(xs);
        assert x in ys <==> x in multiset(ys);
      }
    }
    if multiset(xs) == multiset(ys) {
      assert forall x :: x in xs <==> x in multiset(xs);
    }
  }

  // Lists of different colon-free texts have one key exactly when they hold the same texts.
  lemma KeyDeterminesTexts(xs: seq<string>, ys: seq<string>)
    requires xs != [] && ys != [] && ColonFree(xs) && ColonFree(ys)
    requires Distinct(xs, (t: string) => t) && Distinct(ys, (t: string) => t)
    ensures KeyOf(xs) == KeyOf(ys) <==> forall x :: x in xs <==> x in ys
  {
    SameTextsSameMultiset(xs, ys);
    if KeyOf(xs) == KeyOf(ys) {
      SameKeySameTexts(xs, ys);
    }
    if multiset(xs) == multiset(ys) {
      SameTextsSameKey(xs, ys);
    }
  }

  // -------------------------------------------------------------- the members

  function NormalizeMembers(creator: Uuid, members: seq<Uuid>): (r: seq<Uuid>)
    ensures r != [] && creator in r
  {
    assert creator in [creator] + members;
    Dedup([creator] + members)
  }

  function Texts(ids: seq<Uuid>): (r: seq<string>)
    ensures |r| == |ids| && ColonFree(r)
  {
    Map(ids, Canonical)
  }

  // The key of ids that are all spelled as the database spells them.
  function PrivateKey(ids: seq<Uuid>): Digest
    requires ids != []
  {
    KeyOf(Texts(ids))
  }

  function PairKey(a: Uuid, b: Uuid): Digest {
    PrivateKey(NormalizeMembers(a, [b]))
  }

  lemma TextsDistinct(ids: seq<Uuid>)
    requires Distinct(ids, (id: Uuid) => id)
    ensures Distinct(Texts(ids), (t: string) => t)
    ensures forall id :: id in ids <==> Canonical(id) in Texts(ids)
  {
    var texts := Texts(ids);
    forall i, j | 0 <= i < j < |ids| ensures texts[i] != texts[j] {
      if texts[i] == texts[j] { CanonicalInjective(ids[i], ids[j]); }
    }
    forall id ensures id in ids <==> Canonical(id) in texts {
      if Canonical(id) in texts {
        var i :| 0 <= i < |texts| && texts[i] == Canonical(id);
        CanonicalInjective(id, ids[i]);
      }
      if id in ids {
        var i :| 0 <= i < |ids| && ids[i] == id;
        assert texts[i] == Canonical(id);
      }
    }
  }

  lemma SameText(xs: seq<Uuid>, ys: seq<Uuid>, x: string)
    requires forall id :: id in xs ==> id in ys
    ensures x in Texts(xs) ==> x in Texts(ys)
  {
    if x in Texts(xs) {
      var i :| 0 <= i < |xs| && Texts(xs)[i] == x;
      assert xs[i] in ys;
      var j :| 0 <= j < |ys| && ys[j] == xs[i];
      assert Texts(ys)[j] == x;
    }
  }

  lemma SameTextsSameIds(xs: seq<Uuid>, ys: seq<Uuid>)
    requires Distinct(xs, (id: Uuid) => id) && Distinct(ys, (id: Uuid) => id)
    ensures (forall x :: x in Texts(xs) <==> x in Texts(ys)) <==> (forall id :: id in xs <==> id in ys)
  {
    TextsDistinct(xs);
    TextsDistinct(ys);
    if forall id :: id in xs <==> id in ys {
      forall x ensures x in Texts(xs) <==> x in Texts(ys) {
        SameText(xs, ys, x);
        SameText(ys, xs, x);
      }
    }
  }

  // The key is the same exactly when the sets of members are: it does not matter
  // who starts, in what order the ids come or how often they are repeated.
  lemma KeyDeterminesMembers(a: Uuid, more: seq<Uuid>, b: Uuid, others: seq<Uuid>)
    ensures PrivateKey(NormalizeMembers(a, more)) == PrivateKey(NormalizeMembers(b, others))
            <==> (forall id :: id in [a] + more <==> id in [b] + others)
  {
    var xs, ys := NormalizeMembers(a, more), NormalizeMembers(b, others);
    assert forall id :: id in xs <==> id in [a] + more;
    assert forall id :: id in ys <==> id in [b] + others;
    TextsDistinct(xs);
    TextsDistinct(ys);
    SameTextsSameIds(xs, ys);
    KeyDeterminesTexts(Texts(xs), Texts(ys));
  }

  predicate IsOneOf(id: Uuid, a: Uuid, b: Uuid) {
    id == a || id == b
  }

  lemma PairMembers(a: Uuid, b: Uuid)
    ensures forall id :: id in [a] + [b] <==> IsOneOf(id, a, b)
  {
  }

  lemma PairKeyIsThePair(a: Uuid, b: Uuid, c: Uuid, d: Uuid)
    ensures PairKey(a, b) == PairKey(c, d) <==> (a == c && b == d) || (a == d && b == c)
  {
    KeyDeterminesMembers(a, [b], c, [d]);
    PairMembers(a, b);
    PairMembers(c, d);
    if PairKey(a, b) == PairKey(c, d) {
      assert IsOneOf(a, c, d) && IsOneOf(b, c, d) && IsOneOf(c, a, b) && IsOneOf(d, a, b);
    }
    if (a == c && b == d) || (a == d && b == c) {
      assert forall id :: IsOneOf(id, a, b) <==> IsOneOf(id, c, d);
    }
  }
}
