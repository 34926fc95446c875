/** The underlying key/value store seen as a finite map from keys to
    entries, and the pure descriptions of what the facade's loops do to it:
    deleting a list of keys, applying a delete message, and splitting a batch
    of keys into the ones the store holds and the ones it does not. */
module Store {
  import opened JsValues
  import opened Messaging

  datatype Option<T> = None | Some(value: T)

  /** A stored value with the per-entry TTL override `set` passed to the
      store (None when it passed no override). */
  datatype Entry<V> = Entry(value: V, ttl: Option<JsValue>)

  /** The per-entry options `set` passes: `ttl ? { ttl } : {}`. */
  function TtlOverride(ttl: JsValue): Option<JsValue> {
    if ttl.Truthy() then Some(ttl) else None
  }

  function Lookup<K, V>(s: map<K, Entry<V>>, k: K): Option<V> {
    if k in s then Some(s[k].value) else None
  }

  /** The store with every listed key deleted. */
  function Removed<K, V>(s: map<K, V>, ks: seq<K>): map<K, V> {
    map k | k in s && k !in ks :: s[k]
  }

  /** What the delete handler does: only a list payload deletes anything. */
  function DelApplied<K, V>(s: map<K, V>, p: Payload<K>): map<K, V> {
    match p
    case ListPayload(ks) => Removed(s, ks)
    case _ => s
  }

  /** The keys of a batch the store does not hold, in batch order. */
  function UnCached<K, V>(s: map<K, V>, ks: seq<K>): seq<K>
    decreases |ks|
  {
    if ks == [] then []
    else
      var init := UnCached(s, ks[..|ks| - 1]);
      if ks[|ks| - 1] in s then init else init + [ks[|ks| - 1]]
  }

  /** The keys of a batch the store holds, in batch order. */
  function CachedKeys<K, V>(s: map<K, V>, ks: seq<K>): seq<K>
    decreases |ks|
  {
    if ks == [] then []
    else
      var init := CachedKeys(s, ks[..|ks| - 1]);
      if ks[|ks| - 1] in s then init + [ks[|ks| - 1]] else init
  }

  /** The caller's object after the batch wrote every held key's value into it, in batch order. */
  function Filled<K, V>(data: map<K, V>, s: map<K, Entry<V>>, ks: seq<K>): map<K, V>
    decreases |ks|
  {
    if ks == [] then data
    else
      var d := Filled(data, s, ks[..|ks| - 1]);
      var k := ks[|ks| - 1];
      if k in s then d[k := s[k].value] else d
  }

  /** `a` is `b` with some elements left out, order kept. */
  predicate IsSubsequence<K(==)>(a: seq<K>, b: seq<K>)
    decreases |b|
  {
    if a == [] then true
    else if b == [] then false
    else (a[|a| - 1] == b[|b| - 1] && IsSubsequence(a[..|a| - 1], b[..|b| - 1]))
         || IsSubsequence(a, b[..|b| - 1])
  }

  /** A key is reported uncached exactly when it is in the batch and not in the store. */
  lemma {:induction false} UnCachedMembers<K, V>(s: map<K, V>, ks: seq<K>, k: K)
    ensures k in UnCached(s, ks) <==> k in ks && k !in s
    decreases |ks|
  {
    if ks != [] {
      var init := ks[..|ks| - 1];
      assert ks == init + [ks[|ks| - 1]];
      UnCachedMembers(s, init, k);
    }
  }

  /** A key is reported cached exactly when it is in the batch and in the store. */
  lemma {:induction false} CachedKeysMembers<K, V>(s: map<K, V>, ks: seq<K>, k: K)
    ensures k in CachedKeys(s, ks) <==> k in ks && k in s
    decreases |ks|
  {
    if ks != [] {
      var init := ks[..|ks| - 1];
      assert ks == init + [ks[|ks| - 1]];
      CachedKeysMembers(s, init, k);
    }
  }

  /** The batch splits into its cached and uncached keys, duplicates included. */
  lemma {:induction false} Partition<K, V>(s: map<K, V>, ks: seq<K>)
    ensures multiset(UnCached(s, ks)) + multiset(CachedKeys(s, ks)) == multiset(ks)
    ensures |UnCached(s, ks)| + |CachedKeys(s, ks)| == |ks|
    decreases |ks|
  {
    if ks != [] {
      var init := ks[..|ks| - 1];
      assert ks == init + [ks[|ks| - 1]];
      Partition(s, init);
    }
    assert |multiset(UnCached(s, ks))| + |multiset(CachedKeys(s, ks))| == |multiset(ks)|;
  }

  /** The uncached keys keep the batch's order. */
  lemma {:induction false} UnCachedIsSubsequence<K, V>(s: map<K, V>, ks: seq<K>)
    ensures IsSubsequence(UnCached(s, ks), ks)
    decreases |ks|
  {
    if ks != [] {
      var init := ks[..|ks| - 1];
      UnCachedIsSubsequence(s, init);
      var u := UnCached(s, ks);
      if ks[|ks| - 1] !in s {
        assert u[..|u| - 1] == UnCached(s, init);
      }
    }
  }

  /** The caller's object afterwards: held batch keys map to the store's
      values, every other name keeps what it had. */
  lemma {:induction false} FilledSpec<K, V>(data: map<K, V>, s: map<K, Entry<V>>, ks: seq<K>, k: K)
    ensures k in Filled(data, s, ks) <==> k in data || (k in ks && k in s)
    ensures k in ks && k in s ==> Filled(data, s, ks)[k] == s[k].value
    ensures !(k in ks && k in s) && k in data ==> Filled(data, s, ks)[k] == data[k]
    decreases |ks|
  {
    if ks != [] {
      var init := ks[..|ks| - 1];
      assert ks == init + [ks[|ks| - 1]];
      FilledSpec(data, s, init, k);
    }
  }

  /** Removing one more key from a removal. */
  lemma RemovedSnoc<K, V>(s: map<K, V>, ks: seq<K>, k: K)
    ensures Removed(s, ks + [k]) == Removed(s, ks) - {k}
  {
    assert forall x :: x in ks + [k] <==> x in ks || x == k;
  }

  /** Self-delivery is harmless: the delete handler finds nothing left to do
      after the local delete of the same keys. */
  lemma SelfDeliveredDel<K, V>(s: map<K, V>, ks: seq<K>)
    ensures DelApplied(Removed(s, ks), ListPayload(ks)) == Removed(s, ks)
  {
  }

  /** Deletions arriving in either order leave the same store. */
  lemma DeletesCommute<K, V>(s: map<K, V>, a: Payload<K>, b: Payload<K>)
    ensures DelApplied(DelApplied(s, a), b) == DelApplied(DelApplied(s, b), a)
  {
  }
}
