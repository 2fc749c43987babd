/**
 * Go map helpers that both registry revisions share: copying a map, and the
 * effect of storing a batch of values under their keys or deleting a batch
 * of keys, one entry at a time.
 */
module Maps {
  import opened Wrappers

  /**
   * `cp()` on a service map: a fresh map holding every entry of `m`. The
   * loop visits the keys in an arbitrary order, as Go's `range` over a map does.
   */
  method Copy<K, V>(m: map<K, V>) returns (c: map<K, V>)
    ensures c.Keys == m.Keys
    ensures forall k :: k in c ==> c[k] == m[k]
  {
    c := map[];
    var rest := m.Keys;
    while rest != {}
      invariant rest <= m.Keys
      invariant c.Keys == m.Keys - rest
      invariant forall k :: k in c ==> c[k] == m[k]
      decreases rest
    {
      var k :| k in rest;
      c := c[k := m[k]];
      rest := rest - {k};
    }
  }

  /** The map after storing each batch value under its key, in batch order. */
  function Upserted<K(==), V>(m: map<K, V>, batch: seq<V>, key: V -> K): map<K, V>
    decreases |batch|
  {
    if batch == [] then m
    else
      var last := batch[|batch| - 1];
      Upserted(m, batch[..|batch| - 1], key)[key(last) := last]
  }

  /**
   * The map after deleting each listed key in turn; `None` at the first key
   * that is already gone.
   */
  function Removed<K(==), V>(m: map<K, V>, keys: seq<K>): Option<map<K, V>>
    decreases |keys|
  {
    if keys == [] then Some(m)
    else
      match Removed(m, keys[..|keys| - 1])
      case None => None
      case Some(rest) =>
        var k := keys[|keys| - 1];
        if k in rest then Some(rest - {k}) else None
  }

  /** The keys of a batch are pairwise different. */
  predicate Distinct<K(==)>(keys: seq<K>)
  {
    forall i, j :: 0 <= i < j < |keys| ==> keys[i] != keys[j]
  }

  /**
   * A batch value decides the stored value for its key unless a later value
   * has the same key; keys not in the batch keep their old value.
   */
  lemma {:induction false} UpsertedLookup<K, V>(m: map<K, V>, batch: seq<V>, key: V -> K, k: K)
    ensures k in Upserted(m, batch, key) <==> k in m || exists i :: 0 <= i < |batch| && key(batch[i]) == k
    ensures forall i :: 0 <= i < |batch| && key(batch[i]) == k && (forall j :: i < j < |batch| ==> key(batch[j]) != k)
                    ==> Upserted(m, batch, key)[k] == batch[i]
    ensures (forall i :: 0 <= i < |batch| ==> key(batch[i]) != k) && k in m ==> Upserted(m, batch, key)[k] == m[k]
    decreases |batch|
  {
    if batch != [] {
      var n := |batch| - 1;
      var init := batch[..n];
      UpsertedLookup(m, init, key, k);
      assert forall i :: 0 <= i < n ==> init[i] == batch[i];
      if key(batch[n]) != k {
        forall i | 0 <= i < |batch| && key(batch[i]) == k && (forall j :: i < j < |batch| ==> key(batch[j]) != k)
          ensures Upserted(m, batch, key)[k] == batch[i]
        {
          assert i < n && key(init[i]) == k;
        }
      }
    }
  }

  /** The keys after an upsert are the old keys plus the batch's keys. */
  lemma UpsertedKeys<K, V>(m: map<K, V>, batch: seq<V>, key: V -> K)
    ensures Upserted(m, batch, key).Keys == m.Keys + set i | 0 <= i < |batch| :: key(batch[i])
  {
    forall k ensures k in Upserted(m, batch, key) <==> k in m || k in set i | 0 <= i < |batch| :: key(batch[i]) {
      UpsertedLookup(m, batch, key, k);
    }
  }

  /**
   * A removal batch succeeds exactly when every key is present and none
   * repeats (a repeated one is already gone the second time); it then yields
   * the old map without the listed keys.
   */
  lemma {:induction false} RemovedSpec<K, V>(m: map<K, V>, keys: seq<K>)
    ensures Removed(m, keys).Some? <==> (forall i :: 0 <= i < |keys| ==> keys[i] in m) && Distinct(keys)
    ensures Removed(m, keys).Some? ==> Removed(m, keys).value == m - (set i | 0 <= i < |keys| :: keys[i])
    decreases |keys|
  {
    if keys != [] {
      var n := |keys| - 1;
      var init := keys[..n];
      RemovedSpec(m, init);
      assert forall i :: 0 <= i < n ==> init[i] == keys[i];
      var removedSet := set i | 0 <= i < n :: init[i];
      var allSet := set i | 0 <= i < |keys| :: keys[i];
      assert allSet == removedSet + {keys[n]};
      if Removed(m, init).Some? {
        assert keys[n] in Removed(m, init).value <==> keys[n] in m && keys[n] !in removedSet;
      } else {
        assert !((forall i :: 0 <= i < n ==> init[i] in m) && Distinct(init));
      }
    }
  }

  /** Once a prefix of a removal batch fails, the whole batch fails. */
  lemma {:induction false} RemovedFailureSticks<K, V>(m: map<K, V>, keys: seq<K>, k: nat)
    requires k <= |keys| && Removed(m, keys[..k]).None?
    ensures Removed(m, keys).None?
    decreases |keys| - k
  {
    if k < |keys| {
      assert keys[..k + 1][..k] == keys[..k];
      RemovedFailureSticks(m, keys, k + 1);
    } else {
      assert keys[..k] == keys;
    }
  }
}
