/**
 * The bucket and the removal of files from it, in requests of at most a thousand keys.
 */
module FileStore {
  import opened Tables
  import opened Store

  const MAX_KEYS_PER_BATCH := 1000

  function BatchEnd(length: nat, from: nat): (to: nat)
    requires from <= length
    ensures from <= to <= length && to - from <= MAX_KEYS_PER_BATCH && (from < length ==> from < to)
  {
    if from + MAX_KEYS_PER_BATCH < length then from + MAX_KEYS_PER_BATCH else length
  }

  // The requests that remove keys[from..].
  function Batches(keys: seq<StorageKey>, from: nat): (batches: seq<seq<StorageKey>>)
    requires from <= |keys|
    decreases |keys| - from
  {
    if from == |keys| then []
    else [keys[from..BatchEnd(|keys|, from)]] + Batches(keys, BatchEnd(|keys|, from))
  }

  function Concat(batches: seq<seq<StorageKey>>): seq<StorageKey> {
    if batches == [] then [] else batches[0] + Concat(batches[1..])
  }

  // Every key is in one request, in order, and no request is empty or too long.
  lemma {:induction false} BatchesCover(keys: seq<StorageKey>, from: nat)
    requires from <= |keys|
    ensures Concat(Batches(keys, from)) == keys[from..]
    ensures forall b <- Batches(keys, from) :: 1 <= |b| <= 1000
    decreases |keys| - from
  {
    if from < |keys| {
      var to := BatchEnd(|keys|, from);
      BatchesCover(keys, to);
      assert keys[from..] == keys[from..to] + keys[to..];
      assert Batches(keys, from)[1..] == Batches(keys, to);
    }
  }

  // The bucket records the requests it carried out; the one numbered `refused` fails.
  class Bucket {
    var objects: set<StorageKey>
    var requests: seq<seq<StorageKey>>

    method DeleteObjects(batch: seq<StorageKey>)
      modifies this
      ensures objects == old(objects) - SetOf(batch) && requests == old(requests) + [batch]
    {
      objects := objects - SetOf(batch);
      requests := requests + [batch];
    }

    method DeleteFiles(storageKeys: seq<StorageKey>, refused: nat) returns (ok: bool)
      modifies this
      ensures ok <==> |Batches(storageKeys, 0)| <= refused
      ensures var sent := if ok then Batches(storageKeys, 0) else Batches(storageKeys, 0)[..refused];
              && requests == old(requests) + sent
              && objects == old(objects) - SetOf(Concat(sent))
    {
      var i, n := 0, 0;
      while i < |storageKeys|
        invariant 0 <= i <= |storageKeys| && n <= refused && n <= |Batches(storageKeys, 0)|
        invariant Batches(storageKeys, 0)[n..] == Batches(storageKeys, i)
        invariant requests == old(requests) + Batches(storageKeys, 0)[..n]
        invariant objects == old(objects) - SetOf(Concat(Batches(storageKeys, 0)[..n]))
      {
        if n == refused {
          return false;
        }
        var batch := storageKeys[i..BatchEnd(|storageKeys|, i)];
        DeleteObjects(batch);
        NextBatch(storageKeys, i, n);
        n := n + 1;
        i := i + |batch|;
      }
      assert Batches(storageKeys, 0)[..n] == Batches(storageKeys, 0);
      return true;
    }
  }

  lemma NextBatch(keys: seq<StorageKey>, i: nat, n: nat)
    requires i < |keys| && n <= |Batches(keys, 0)| && Batches(keys, 0)[n..] == Batches(keys, i)
    ensures var batch := keys[i..BatchEnd(|keys|, i)];
            && n < |Batches(keys, 0)| && Batches(keys, 0)[n + 1..] == Batches(keys, i + |batch|)
            && Batches(keys, 0)[..n + 1] == Batches(keys, 0)[..n] + [batch]
            && SetOf(Concat(Batches(keys, 0)[..n + 1])) == SetOf(Concat(Batches(keys, 0)[..n])) + SetOf(batch)
  {
    var all, batch := Batches(keys, 0), keys[i..BatchEnd(|keys|, i)];
    assert all[n] == all[n..][0] == batch;
    assert all[n + 1..] == all[n..][1..];
    assert all[..n + 1] == all[..n] + [batch];
    ConcatAppend(all[..n], batch);
  }

  lemma {:induction false} ConcatAppend(batches: seq<seq<StorageKey>>, last: seq<StorageKey>)
    ensures Concat(batches + [last]) == Concat(batches) + last
  {
    if batches == [] {
      assert [last][1..] == [];
    } else {
      ConcatAppend(batches[1..], last);
      assert (batches + [last])[1..] == batches[1..] + [last];
    }
  }
}
