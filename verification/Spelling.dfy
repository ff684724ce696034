/**
 * Ids as requests spell them. The database keeps a UUID as a value, but the private
 * key is made of the text a request sends, and a UUID may be sent in upper case.
 */
module Spelling {
  import opened Prelude
  import opened Tables
  import opened Store
  import opened PrivateKeys
  import opened Groups

  function LowerChar(c: char): char {
    if 'A' <= c <= 'F' then (c as int + 32) as char else c
  }

  function UpperChar(c: char): char {
    if 'a' <= c <= 'f' then (c as int - 32) as char else c
  }

  function Lower(text: string): (r: string)
    ensures |r| == |text| && forall i :: 0 <= i < |text| ==> r[i] == LowerChar(text[i])
  {
    Map(text, LowerChar)
  }

  datatype Spelled = Spelled(id: Uuid, text: string)

  // The text reads as the id, whatever the case of its letters.
  predicate Reads(s: Spelled) {
    Lower(s.text) == Canonical(s.id)
  }

  function AsStored(id: Uuid): Spelled {
    Spelled(id, Canonical(id))
  }

  lemma ReadsColonFree(s: Spelled)
    requires Reads(s)
    ensures ':' !in s.text
  {
    forall i | 0 <= i < |s.text| ensures s.text[i] != ':' {
      assert Lower(s.text)[i] in Canonical(s.id);
    }
  }

  // Digits and lower-case letters, as the database writes them.
  predicate IsPlain(text: string) {
    forall i :: 0 <= i < |text| ==> '0' <= text[i] <= '9' || 'a' <= text[i] <= 'f'
  }

  lemma {:induction false} CanonicalIsPlain(id: Uuid)
    ensures IsPlain(Canonical(id))
  {
    if id >= 16 {
      CanonicalIsPlain(id / 16);
    }
  }

  predicate HasLetter(text: string) {
    exists i :: 0 <= i < |text| && 'a' <= text[i] <= 'f'
  }

  function Upper(text: string): (r: string)
    ensures |r| == |text| && forall i :: 0 <= i < |text| ==> r[i] == UpperChar(text[i])
  {
    Map(text, UpperChar)
  }

  lemma LowerOfPlain(text: string)
    requires IsPlain(text)
    ensures Lower(text) == text && Lower(Upper(text)) == text
  {
  }

  // A plain text is the lower case of another exactly when it has a letter.
  lemma OtherCaseIff(plain: string)
    requires IsPlain(plain)
    ensures (exists text :: Lower(text) == plain && text != plain) <==> HasLetter(plain)
  {
    if HasLetter(plain) {
      LowerOfPlain(plain);
      var i :| 0 <= i < |plain| && 'a' <= plain[i] <= 'f';
      assert Upper(plain)[i] != plain[i];
    } else {
      forall text | Lower(text) == plain ensures text == plain {
        DigitsHaveOneCase(plain, text);
      }
    }
  }

  lemma DigitsHaveOneCase(plain: string, text: string)
    requires IsPlain(plain) && !HasLetter(plain) && Lower(text) == plain
    ensures text == plain
  {
    forall i | 0 <= i < |text| ensures text[i] == plain[i] {
      assert LowerChar(text[i]) == plain[i];
    }
  }

  lemma StoredReads(id: Uuid)
    ensures Reads(AsStored(id))
  {
    CanonicalIsPlain(id);
    LowerOfPlain(Canonical(id));
  }

  // An id can be spelled in another way exactly when it has a letter among its digits.
  lemma OtherSpellingIff(id: Uuid)
    ensures (exists s :: Reads(s) && s.id == id && s != AsStored(id)) <==> HasLetter(Canonical(id))
  {
    var plain := Canonical(id);
    CanonicalIsPlain(id);
    OtherCaseIff(plain);
    if text :| Lower(text) == plain && text != plain {
      assert Reads(Spelled(id, text));
    }
    if s :| Reads(s) && s.id == id && s != AsStored(id) {
      assert Lower(s.text) == plain && s.text != plain;
    }
  }

  // ------------------------------------------------------------------- the operation

  // Repetitions are found by text.
  function People(creator: Spelled, other: Spelled): (r: seq<Spelled>)
    ensures r != []
  {
    if creator.text == other.text then [creator] else [creator, other]
  }

  function TextsOf(people: seq<Spelled>): (r: seq<string>)
    ensures |r| == |people|
  {
    Map(people, (s: Spelled) => s.text)
  }

  function KeyFor(creator: Spelled, other: Spelled): Digest {
    KeyOf(TextsOf(People(creator, other)))
  }

  // getOrCreatePrivateConversation on what the request sent. One user under two
  // spellings would be inserted twice, which the primary key refuses.
  function GetOrCreate(db: Db, creator: Spelled, other: Spelled, id: Uuid): PrivateReply
    requires KeysUnique(db)
  {
    var key := KeyFor(creator, other);
    if FindByPrivateKey(db, key).None? && creator.text != other.text && creator.id == other.id
    then Denied(BrokenConstraint)
    else FindOrOpen(db, key, Dedup([creator.id, other.id]), id)
  }

  predicate SameTexts(a: Spelled, b: Spelled, c: Spelled, d: Spelled) {
    (a.text == c.text && b.text == d.text) || (a.text == d.text && b.text == c.text)
  }

  lemma PeopleTexts(a: Spelled, b: Spelled)
    requires Reads(a) && Reads(b)
    ensures var xs := TextsOf(People(a, b));
            && ColonFree(xs) && Distinct(xs, (t: string) => t) && forall x :: x in xs <==> x == a.text || x == b.text
  {
    ReadsColonFree(a);
    ReadsColonFree(b);
    var xs := TextsOf(People(a, b));
    assert xs == if a.text == b.text then [a.text] else [a.text, b.text];
  }

  // The keys of two requests agree exactly when their texts do, in either order.
  lemma KeyIsTheTexts(a: Spelled, b: Spelled, c: Spelled, d: Spelled)
    requires Reads(a) && Reads(b) && Reads(c) && Reads(d)
    ensures KeyFor(a, b) == KeyFor(c, d) <==> SameTexts(a, b, c, d)
  {
    PeopleTexts(a, b);
    PeopleTexts(c, d);
    KeyDeterminesTexts(TextsOf(People(a, b)), TextsOf(People(c, d)));
    var xs, ys := TextsOf(People(a, b)), TextsOf(People(c, d));
    if forall x :: x in xs <==> x in ys {
      assert a.text in ys && b.text in ys && c.text in xs && d.text in xs;
    }
  }

  // For ids spelled as they are stored this is the operation of the other modules.
  lemma StoredSpelling(db: Db, creator: Uuid, other: Uuid, id: Uuid)
    requires KeysUnique(db)
    ensures GetOrCreate(db, AsStored(creator), AsStored(other), id) == GetOrCreatePrivate(db, creator, [other], id)
  {
    StoredKey(creator, other);
    assert [creator] + [other] == [creator, other];
    var unique := NormalizeMembers(creator, [other]);
    assert unique == Dedup([creator, other]) && |unique| <= 2;
    assert PrivateKey(unique) == KeyFor(AsStored(creator), AsStored(other));
    assert creator == other ==> Canonical(creator) == Canonical(other);
  }

  lemma StoredKey(creator: Uuid, other: Uuid)
    ensures KeyFor(AsStored(creator), AsStored(other)) == PairKey(creator, other)
  {
    DedupTwo(creator, other);
    assert [creator] + [other] == [creator, other];
    if Canonical(creator) == Canonical(other) {
      CanonicalInjective(creator, other);
    }
    assert TextsOf(People(AsStored(creator), AsStored(other))) == Texts(NormalizeMembers(creator, [other]));
  }

  lemma DedupTwo(a: Uuid, b: Uuid)
    ensures Dedup([a, b]) == if a == b then [a] else [a, b]
  {
    assert [a, b][..1] == [a] && [a][..0] == [];
    assert Dedup([a]) == [a];
  }

  // After a conversation was opened a later request finds it exactly when it sends
  // the same two texts.
  lemma FoundAgainIff(db: Db, a: Spelled, b: Spelled, id: Uuid, c: Spelled, d: Spelled, other: Uuid)
    requires KeysUnique(db) && Reads(a) && Reads(b) && Reads(c) && Reads(d)
    requires GetOrCreate(db, a, b, id).Created?
    ensures var db' := GetOrCreate(db, a, b, id).db;
            KeysUnique(db') && (GetOrCreate(db', c, d, other) == Found(id) <==> SameTexts(a, b, c, d))
  {
    var db' := GetOrCreate(db, a, b, id).db;
    OpenedKeys(db, KeyFor(a, b), Dedup([a.id, b.id]), id);
    KeyIsTheTexts(a, b, c, d);
    assert HasKey(db', id, KeyFor(a, b));
    var found := FindByPrivateKey(db', KeyFor(c, d));
    if found == Some(id) {
      assert KeyFor(a, b) == KeyFor(c, d);
    }
  }

  lemma OpenedKeys(db: Db, key: Digest, unique: seq<Uuid>, id: Uuid)
    requires KeysUnique(db) && OpenPrivate(db, key, unique, id).Some?
    ensures var db' := OpenPrivate(db, key, unique, id).value;
            KeysUnique(db') && (forall c, k :: c != id ==> (HasKey(db', c, k) <==> HasKey(db, c, k)))
  {
    var db' := OpenPrivate(db, key, unique, id).value;
    forall c | c in db.conversations ensures db.conversations[c].privateKey != Some(key) {
      assert !HasKey(db, c, key);
    }
  }

  lemma NotFoundThenOpened(db: Db, a: Spelled, b: Spelled, id: Uuid)
    requires KeysUnique(db) && a.id != b.id && a.id in db.users && b.id in db.users
    requires id !in db.conversations && forall d :: !HasKey(db, d, KeyFor(a, b))
    ensures GetOrCreate(db, a, b, id).Created? && GetOrCreate(db, a, b, id).c == id
    ensures OpenPrivate(db, KeyFor(a, b), Dedup([a.id, b.id]), id) == Some(GetOrCreate(db, a, b, id).db)
  {
  }

  predicate PrivateOf(db: Db, c: Uuid, a: Uuid, b: Uuid) {
    c in db.conversations && db.conversations[c].kind.Private? && (c, a) in db.members && (c, b) in db.members
  }

  // Two spellings of one id open two conversations of the same two people.
  lemma SecondSpellingOpensASecond(db: Db, a: Spelled, b: Spelled, c: Spelled, id: Uuid, other: Uuid)
    requires KeysUnique(db) && Reads(a) && Reads(b) && Reads(c)
    requires c.id == b.id && c.text != b.text && a.id != b.id
    requires GetOrCreate(db, a, b, id).Created?
    requires other != id && other !in db.conversations && forall d :: !HasKey(db, d, KeyFor(a, c))
    ensures var db' := GetOrCreate(db, a, b, id).db;
            KeysUnique(db') &&
            var r := GetOrCreate(db', a, c, other);
            r.Created? && r.c == other && PrivateOf(r.db, id, a.id, b.id) && PrivateOf(r.db, other, a.id, b.id)
  {
    var db' := GetOrCreate(db, a, b, id).db;
    OpenedKeys(db, KeyFor(a, b), Dedup([a.id, b.id]), id);
    OpenedMembers(db, KeyFor(a, b), Dedup([a.id, b.id]), id);
    OtherKey(db, db', a, b, c, id);
    assert a.id in [a.id, b.id] && b.id in [a.id, b.id];
    NotFoundThenOpened(db', a, c, other);
    OpenedMembers(db', KeyFor(a, c), Dedup([a.id, c.id]), other);
    assert c.id in [a.id, c.id];
  }

  lemma OtherKey(db: Db, db': Db, a: Spelled, b: Spelled, c: Spelled, id: Uuid)
    requires Reads(a) && Reads(b) && Reads(c) && c.text != b.text
    requires HasKey(db', id, KeyFor(a, b)) && forall d :: !HasKey(db, d, KeyFor(a, c))
    requires forall d, k :: d != id ==> (HasKey(db', d, k) <==> HasKey(db, d, k))
    ensures forall d :: !HasKey(db', d, KeyFor(a, c))
  {
    KeyIsTheTexts(a, b, a, c);
  }

  lemma OpenedMembers(db: Db, key: Digest, unique: seq<Uuid>, id: Uuid)
    requires OpenPrivate(db, key, unique, id).Some?
    ensures var db' := OpenPrivate(db, key, unique, id).value;
            && id in db'.conversations && db'.conversations[id].kind.Private?
            && (forall d <- db.conversations :: d in db'.conversations && db'.conversations[d] == db.conversations[d])
            && (forall u <- unique :: (id, u) in db'.members) && (forall k <- db.members :: k in db'.members)
            && db'.users == db.users
  {
  }
}
