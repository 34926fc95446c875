/** Clients of the facade showing what its contracts guarantee across
    several calls: a cache receiving its own delete or reset back from the
    transport, a second cache of the same name receiving them, the batch
    lookup's double counting, and the `enabled` gate leaving entries intact. */
module Scenarios {
  import opened JsValues
  import opened Messaging
  import opened Store
  import opened LruCache

  /** `del` followed by delivery of its own message equals `del` alone. */
  method DelThenSelfDeliver<K(==), V>(c: Cache<K, V>, keys: KeyArg<K>)
    modifies c, c.bus
    ensures c.store == Removed(old(c.store), AsList(keys))
    ensures c.hits == old(c.hits) && c.misses == old(c.misses)
    ensures c.bus.published == old(c.bus.published) + [Message(DelTopic(c.name), ListPayload(AsList(keys)))]
  {
    c.Del(keys);
    var m := c.bus.published[|c.bus.published| - 1];
    c.Deliver(m);
    SelfDeliveredDel(old(c.store), AsList(keys));
  }

  /** `reset` followed by delivery of its own message equals `reset` alone. */
  method ResetThenSelfDeliver<K(==), V>(c: Cache<K, V>)
    modifies c, c.bus
    ensures c.store == map[] && c.hits == 0 && c.misses == 0
    ensures c.bus.published == old(c.bus.published) + [Message(ResetTopic(c.name), NoPayload)]
  {
    c.Reset();
    var m := c.bus.published[|c.bus.published| - 1];
    c.Deliver(m);
  }

  /** A delete on one cache reaches another cache whose name renders the same. */
  method DelReachesPeer<K(==), V>(a: Cache<K, V>, b: Cache<K, V>, keys: KeyArg<K>)
    requires a != b && a.bus == b.bus
    requires Display(a.name) == Display(b.name)
    modifies a, b, a.bus
    ensures a.store == Removed(old(a.store), AsList(keys))
    ensures b.store == Removed(old(b.store), AsList(keys))
    ensures b.hits == old(b.hits) && b.misses == old(b.misses)
  {
    a.Del(keys);
    var m := a.bus.published[|a.bus.published| - 1];
    TopicsShared(a.name, b.name);
    b.Deliver(m);
  }

  /** A reset on one cache clears another cache of the same name, counters included. */
  method ResetReachesPeer<K(==), V>(a: Cache<K, V>, b: Cache<K, V>)
    requires a != b && a.bus == b.bus
    requires Display(a.name) == Display(b.name)
    modifies a, b, a.bus
    ensures a.store == map[] && a.hits == 0 && a.misses == 0
    ensures b.store == map[] && b.hits == 0 && b.misses == 0
  {
    a.Reset();
    var m := a.bus.published[|a.bus.published| - 1];
    TopicsShared(a.name, b.name);
    b.Deliver(m);
  }

  /** One held key and two missing ones: the two missing keys come back in
      order, the held value is written out, and each key is counted twice. */
  method BatchOfThree<K(==), V>(c: Cache<K, V>, out: CachedData<K, V>, k1: K, k2: K, k3: K)
    returns (r: seq<K>)
    requires c.enabled.Truthy()
    requires k1 in c.store && k2 !in c.store && k3 !in c.store
    modifies c, out
    ensures c.hits == old(c.hits) + 2 && c.misses == old(c.misses) + 4
    ensures r == [k2, k3]
    ensures c.store == old(c.store)
    ensures k1 in out.entries && out.entries[k1] == old(c.store)[k1].value
  {
    r := c.GetUnCachedKeys([k1, k2, k3], out);
    var s := c.store;
    assert [k1, k2, k3][..2] == [k1, k2] && [k1, k2][..1] == [k1] && [k1][..0] == [];
    assert UnCached(s, [k1]) == [] && CachedKeys(s, [k1]) == [k1];
    assert UnCached(s, [k1, k2]) == [k2] && CachedKeys(s, [k1, k2]) == [k1];
    assert UnCached(s, [k1, k2, k3]) == [k2, k3];
    assert CachedKeys(s, [k1, k2, k3]) == [k1];
    assert r == [k2, k3];
    FilledSpec(old(out.entries), s, [k1, k2, k3], k1);
  }

  /** While disabled, `set` and `get` leave the store alone, so re-enabling
      finds the entries that were there before. */
  method ReenableKeepsEntries<K(==), V>(c: Cache<K, V>, k: K, v: V)
    requires !c.enabled.Truthy() && k in c.store
    modifies c
    ensures c.enabled == Bool(true)
    ensures c.store == old(c.store)
    ensures c.hits == old(c.hits) + 1 && c.misses == old(c.misses)
  {
    var before := c.Get(k);
    assert before == None;
    c.Set(k, v, Undefined);
    c.enabled := Bool(true);
    var after := c.Get(k);
    assert after == Some(old(c.store)[k].value);
  }

  /** Running the reset handler twice leaves the same state as running it once. */
  method ResetHandlerTwice<K(==), V>(c: Cache<K, V>, p: Payload<K>)
    modifies c
    ensures c.store == map[] && c.hits == 0 && c.misses == 0
    ensures c.enabled == old(c.enabled)
  {
    c.HandleReset(p);
    var once := c.store;
    c.HandleReset(p);
    assert c.store == once;
  }
}
