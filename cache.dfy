/** The cache facade: hit/miss counters and an `enabled` gate layered over
    one underlying store, with deletions and resets broadcast over the shared
    publish/subscribe transport and applied again when they arrive. */
module LruCache {
  import opened JsValues
  import opened Messaging
  import opened Store
  import Options

  /** The argument of `del`: a single key or a list of keys. */
  datatype KeyArg<K> = One(key: K) | Many(keys: seq<K>)

  /** `del`'s normalisation of its argument into a list. */
  function AsList<K>(arg: KeyArg<K>): seq<K> {
    match arg
    case One(k) => [k]
    case Many(ks) => ks
  }

  /** `del` with a single key behaves as `del` with the one-element list of it. */
  lemma SingleKeyAsList<K>(k: K)
    ensures AsList(One(k)) == AsList(Many([k]))
  {
  }

  /** The two kinds of message a cache subscribes to. */
  datatype TopicKind = DelKind | ResetKind

  /** Reads a topic back into the cache name's text and the kind of message,
      or None for a topic that is neither kind. */
  function ParseTopic(t: string): Option<(string, TopicKind)> {
    if |t| >= 13 && t[|t| - 13..] == ":lruCache:del" then Some((t[..|t| - 13], DelKind))
    else if |t| >= 15 && t[|t| - 15..] == ":lruCache:reset" then Some((t[..|t| - 15], ResetKind))
    else None
  }

  /** The delete topic names the cache and the kind. */
  function DelTopic(name: JsValue): (t: string)
    ensures ParseTopic(t) == Some((Display(name), DelKind))
  {
    var t := Display(name) + ":lruCache:del";
    assert t[|t| - 13..] == ":lruCache:del" && t[..|t| - 13] == Display(name);
    t
  }

  /** The reset topic names the cache and the kind. */
  function ResetTopic(name: JsValue): (t: string)
    ensures ParseTopic(t) == Some((Display(name), ResetKind))
  {
    var t := Display(name) + ":lruCache:reset";
    assert t[|t| - 1] == 't' && ":lruCache:del"[12] == 'l';
    assert t[|t| - 15..] == ":lruCache:reset" && t[..|t| - 15] == Display(name);
    t
  }

  /** A cache's two topics never coincide, so each message reaches at most one handler. */
  lemma TopicsDiffer(name: JsValue)
    ensures DelTopic(name) != ResetTopic(name)
  {
  }

  /** Two caches share a topic exactly when their names render to the same text. */
  lemma TopicsShared(a: JsValue, b: JsValue)
    ensures DelTopic(a) == DelTopic(b) <==> Display(a) == Display(b)
    ensures ResetTopic(a) == ResetTopic(b) <==> Display(a) == Display(b)
  {
  }

  /** The plain object a caller passes to `getUnCachedKeys` to receive the cached values. */
  class CachedData<K(==), V> {
    var entries: map<K, V>

    constructor (entries: map<K, V>)
      ensures this.entries == entries
    {
      this.entries := entries;
    }
  }

  class Cache<K(==), V> {
    const name: JsValue
    const bus: PubSub<K>
    /** The translated options the underlying store was built from. */
    const storeOptions: map<string, JsValue>
    var hits: nat
    var misses: nat
    var enabled: JsValue
    var store: map<K, Entry<V>>

    /** `cacheCreate(opts)`: translates the caller's options in place, builds
        an empty store, starts both counters at zero and registers the reset
        and delete handlers. */
    constructor (opts: Options.Options, bus: PubSub<K>)
      modifies opts, bus
      ensures opts.props == Options.Translated(old(opts.props))
      ensures storeOptions == opts.props
      ensures name == if "name" in opts.props then opts.props["name"] else Undefined
      ensures enabled == if "enabled" in old(opts.props) then old(opts.props)["enabled"] else Bool(true)
      ensures hits == 0 && misses == 0 && store == map[]
      ensures this.bus == bus
      ensures bus.published == old(bus.published)
      ensures bus.subscribed == old(bus.subscribed) + [ResetTopic(name), DelTopic(name)]
    {
      opts.Translate();
      Options.TranslatedKeeps(old(opts.props), "enabled");
      var p := opts.props;
      storeOptions := p;
      name := if "name" in p then p["name"] else Undefined;
      hits := 0;
      misses := 0;
      enabled := if "enabled" in p then p["enabled"] else Bool(true);
      store := map[];
      this.bus := bus;
      new;
      bus.On(ResetTopic(name));
      bus.On(DelTopic(name));
    }

    /** What the store holds for `key`, without touching the counters. */
    function Peek(key: K): (r: Option<V>)
      reads this
      ensures r.Some? <==> key in store
      ensures r.Some? ==> r.value == store[key].value
    {
      Lookup(store, key)
    }

    /** A snapshot of the store's contents. */
    function Dump(): (r: map<K, Entry<V>>)
      reads this
      ensures |r| == Size()
      ensures forall k | k in r :: Peek(k) == Some(r[k].value)
    {
      store
    }

    /** The number of entries the store holds. */
    function Size(): nat
      reads this
    {
      |store|
    }

    method Set(key: K, value: V, ttl: JsValue)
      modifies this`store
      ensures store == if enabled.Truthy() then old(store)[key := Entry(value, TtlOverride(ttl))] else old(store)
    {
      if !enabled.Truthy() {
        return;
      }
      store := store[key := Entry(value, TtlOverride(ttl))];
    }

    method Get(key: K) returns (data: Option<V>)
      modifies this`hits, this`misses
      ensures !enabled.Truthy() ==> data == None && hits == old(hits) && misses == old(misses)
      ensures enabled.Truthy() ==> data == Peek(key)
      ensures enabled.Truthy() && data.None? ==> misses == old(misses) + 1 && hits == old(hits)
      ensures enabled.Truthy() && data.Some? ==> hits == old(hits) + 1 && misses == old(misses)
    {
      if !enabled.Truthy() {
        return None;
      }
      data := Lookup(store, key);
      if data.None? {
        misses := misses + 1;
      } else {
        hits := hits + 1;
      }
    }

    /** Deletes each listed key from the store, one at a time. */
    method DeleteEach(keys: seq<K>)
      modifies this`store
      ensures store == Removed(old(store), keys)
    {
      var i := 0;
      while i < |keys|
        invariant 0 <= i <= |keys|
        invariant store == Removed(old(store), keys[..i])
      {
        assert keys[..i + 1] == keys[..i] + [keys[i]];
        RemovedSnoc(old(store), keys[..i], keys[i]);
        store := store - {keys[i]};
        i := i + 1;
      }
      assert keys[..i] == keys;
    }

    /** `del`: publishes the keys as a list, then deletes them locally. */
    method Del(keys: KeyArg<K>)
      modifies this`store, bus`published
      ensures bus.published == old(bus.published) + [Message(DelTopic(name), ListPayload(AsList(keys)))]
      ensures store == Removed(old(store), AsList(keys))
    {
      var list := AsList(keys);
      bus.Publish(DelTopic(name), ListPayload(list));
      DeleteEach(list);
    }

    /** `delete`, the same function as `del`. */
    method Delete(keys: KeyArg<K>)
      modifies this`store, bus`published
      ensures bus.published == old(bus.published) + [Message(DelTopic(name), ListPayload(AsList(keys)))]
      ensures store == Removed(old(store), AsList(keys))
    {
      Del(keys);
    }

    method LocalReset()
      modifies this`store, this`hits, this`misses
      ensures store == map[] && hits == 0 && misses == 0
    {
      store := map[];
      hits := 0;
      misses := 0;
    }

    /** `reset`: publishes a reset with no payload, then resets locally. */
    method Reset()
      modifies this`store, this`hits, this`misses, bus`published
      ensures bus.published == old(bus.published) + [Message(ResetTopic(name), NoPayload)]
      ensures store == map[] && hits == 0 && misses == 0
    {
      bus.Publish(ResetTopic(name), NoPayload);
      LocalReset();
    }

    /** `clear`, the same function as `reset`. */
    method Clear()
      modifies this`store, this`hits, this`misses, bus`published
      ensures bus.published == old(bus.published) + [Message(ResetTopic(name), NoPayload)]
      ensures store == map[] && hits == 0 && misses == 0
    {
      Reset();
    }

    /** The handler registered for the reset topic; it ignores the payload. */
    method HandleReset(payload: Payload<K>)
      modifies this`store, this`hits, this`misses
      ensures store == map[] && hits == 0 && misses == 0
    {
      LocalReset();
    }

    /** The handler registered for the delete topic. */
    method HandleDel(payload: Payload<K>)
      modifies this`store
      ensures store == DelApplied(old(store), payload)
    {
      if payload.ListPayload? {
        DeleteEach(payload.keys);
      }
    }

    /** The transport handing a message to this cache: it runs the handler
        registered for the message's topic, if there is one. */
    method Deliver(m: Message<K>)
      modifies this`store, this`hits, this`misses
      ensures m.topic == ResetTopic(name) ==> store == map[] && hits == 0 && misses == 0
      ensures m.topic == DelTopic(name) ==>
                store == DelApplied(old(store), m.payload) && hits == old(hits) && misses == old(misses)
      ensures m.topic != ResetTopic(name) && m.topic != DelTopic(name) ==>
                store == old(store) && hits == old(hits) && misses == old(misses)
    {
      TopicsDiffer(name);
      if m.topic == ResetTopic(name) {
        HandleReset(m.payload);
      } else if m.topic == DelTopic(name) {
        HandleDel(m.payload);
      }
    }

    /** `getUnCachedKeys`: looks every key up through `Get`, writes each held
        value into `cachedData`, returns the keys not held in batch order, and
        then adds the batch's hit and miss totals to the counters as well. */
    method GetUnCachedKeys(keys: seq<K>, cachedData: CachedData<K, V>) returns (unCached: seq<K>)
      modifies this`hits, this`misses, cachedData
      ensures !enabled.Truthy() ==>
                unCached == keys && hits == old(hits) && misses == old(misses) &&
                cachedData.entries == old(cachedData.entries)
      ensures enabled.Truthy() ==> unCached == UnCached(store, keys)
      ensures enabled.Truthy() ==> cachedData.entries == Filled(old(cachedData.entries), store, keys)
      ensures enabled.Truthy() ==> hits == old(hits) + 2 * |CachedKeys(store, keys)|
      ensures enabled.Truthy() ==> misses == old(misses) + 2 * |UnCached(store, keys)|
    {
      if !enabled.Truthy() {
        return keys;
      }
      unCached := [];
      var i := 0;
      while i < |keys|
        invariant 0 <= i <= |keys|
        invariant unCached == UnCached(store, keys[..i])
        invariant cachedData.entries == Filled(old(cachedData.entries), store, keys[..i])
        invariant hits == old(hits) + |CachedKeys(store, keys[..i])|
        invariant misses == old(misses) + |UnCached(store, keys[..i])|
      {
        assert keys[..i + 1][..i] == keys[..i];
        var data := Get(keys[i]);
        if data.Some? {
          cachedData.entries := cachedData.entries[keys[i] := data.value];
        } else {
          unCached := unCached + [keys[i]];
        }
        i := i + 1;
      }
      assert keys[..i] == keys;
      Partition(store, keys);
      var batchHits := |keys| - |unCached|;
      var batchMisses := |keys| - batchHits;
      hits := hits + batchHits;
      misses := misses + batchMisses;
    }
  }
}
