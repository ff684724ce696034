/**
 * Tables kept in insertion order, and the one query they need: the rows that
 * satisfy a predicate, in order.
 */
module Tables {

  function Keep<T(!new)>(rows: seq<T>, p: T -> bool): (kept: seq<T>)
    ensures forall x :: x in kept <==> x in rows && p(x)
    ensures |kept| <= |rows|
  {
    if rows == [] then []
    else
      var rest := Keep(rows[..|rows| - 1], p);
      var last := rows[|rows| - 1];
      assert forall x :: x in rows <==> x in rows[..|rows| - 1] || x == last;
      if p(last) then rest + [last] else rest
  }

  // No two rows share a key.
  predicate Distinct<T, K(==)>(rows: seq<T>, key: T -> K) {
    forall i, j :: 0 <= i < j < |rows| ==> key(rows[i]) != key(rows[j])
  }

  lemma {:induction false} KeepDistinct<T(!new), K>(rows: seq<T>, p: T -> bool, key: T -> K)
    requires Distinct(rows, key)
    ensures Distinct(Keep(rows, p), key)
  {
    if rows != [] {
      var front, last := rows[..|rows| - 1], rows[|rows| - 1];
      KeepDistinct(front, p, key);
      forall x | x in Keep(front, p) ensures key(x) != key(last) {
        assert x in front;
        var i :| 0 <= i < |front| && front[i] == x;
        assert rows[i] == x;
      }
    }
  }

  lemma SameKeySameRow<T, K>(rows: seq<T>, key: T -> K, a: T, b: T)
    requires Distinct(rows, key) && a in rows && b in rows && key(a) == key(b)
    ensures a == b
  {
  }

  function Map<T, U>(rows: seq<T>, f: T -> U): (r: seq<U>)
    ensures |r| == |rows| && forall i :: 0 <= i < |rows| ==> r[i] == f(rows[i])
  {
    seq(|rows|, i requires 0 <= i < |rows| => f(rows[i]))
  }

  function SetOf<T(==)>(rows: seq<T>): set<T> {
    set x | x in rows
  }

  function Take<T>(rows: seq<T>, n: nat): seq<T> {
    if |rows| <= n then rows else rows[..n]
  }

  lemma {:induction false} KeepAll<T(!new)>(rows: seq<T>, p: T -> bool)
    requires forall x <- rows :: p(x)
    ensures Keep(rows, p) == rows
  {
    if rows != [] {
      KeepAll(rows[..|rows| - 1], p);
    }
  }

  lemma {:induction false} KeepNone<T(!new)>(rows: seq<T>, p: T -> bool)
    requires forall x <- rows :: !p(x)
    ensures Keep(rows, p) == []
  {
    if rows != [] {
      KeepNone(rows[..|rows| - 1], p);
    }
  }

  lemma {:induction false} KeepSum<T(!new)>(a: seq<T>, b: seq<T>, p: T -> bool)
    ensures Keep(a + b, p) == Keep(a, p) + Keep(b, p)
  {
    if b == [] {
      assert a + b == a;
    } else {
      KeepSum(a, b[..|b| - 1], p);
      assert (a + b)[..|a + b| - 1] == a + b[..|b| - 1];
    }
  }

  // What a filter lets through no matter, if the rows of interest all pass it.
  lemma {:induction false} KeepKeep<T(!new)>(rows: seq<T>, q: T -> bool, p: T -> bool)
    requires forall x <- rows :: p(x) ==> q(x)
    ensures Keep(Keep(rows, q), p) == Keep(rows, p)
  {
    if rows != [] {
      KeepKeep(rows[..|rows| - 1], q, p);
    }
  }

  // An update of other rows is not seen among the rows of interest.
  lemma {:induction false} KeepMap<T(!new)>(rows: seq<T>, f: T -> T, p: T -> bool)
    requires forall x <- rows :: (p(f(x)) <==> p(x)) && (p(x) ==> f(x) == x)
    ensures Keep(Map(rows, f), p) == Keep(rows, p)
  {
    if rows != [] {
      var front := rows[..|rows| - 1];
      KeepMap(front, f, p);
      assert Map(rows, f)[..|rows| - 1] == Map(front, f);
      assert rows[|rows| - 1] in rows;
    }
  }

  lemma KeepUpdate<T(!new)>(rows: seq<T>, i: nat, x: T, p: T -> bool)
    requires i < |rows| && !p(rows[i]) && !p(x)
    ensures Keep(rows[i := x], p) == Keep(rows, p)
  {
    assert rows == rows[..i] + ([rows[i]] + rows[i + 1..]);
    assert rows[i := x] == rows[..i] + ([x] + rows[i + 1..]);
    KeepSum(rows[..i], [rows[i]] + rows[i + 1..], p);
    KeepSum(rows[..i], [x] + rows[i + 1..], p);
    KeepSum([rows[i]], rows[i + 1..], p);
    KeepSum([x], rows[i + 1..], p);
  }

  // A filter keeps the order.
  lemma {:induction false} KeepInOrder<T(!new)>(rows: seq<T>, p: T -> bool, i: nat, j: nat)
    requires i < j < |Keep(rows, p)|
    ensures exists a, b :: 0 <= a < b < |rows| && rows[a] == Keep(rows, p)[i] && rows[b] == Keep(rows, p)[j]
  {
    var front, last := rows[..|rows| - 1], rows[|rows| - 1];
    if j < |Keep(front, p)| {
      KeepInOrder(front, p, i, j);
      var a, b :| 0 <= a < b < |front| && front[a] == Keep(front, p)[i] && front[b] == Keep(front, p)[j];
      assert rows[a] == front[a] && rows[b] == front[b];
    } else {
      assert Keep(front, p)[i] in front;
      var a :| 0 <= a < |front| && front[a] == Keep(front, p)[i];
      assert rows[a] == front[a] && rows[|rows| - 1] == Keep(rows, p)[j];
    }
  }
}
