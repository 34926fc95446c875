# NodeBB LRU cache facade, modelled in Dafny

`src/cache/lru.js` exports `cacheCreate(opts)`, which builds a cache object
around one `lru-cache` store. The object adds four things on top of the store:

- an `enabled` gate on `set` and `get`;
- `hits` and `misses` counters;
- a broadcast of every `del` and `reset` over the process-wide pub/sub
  channel, with handlers that apply such messages when they arrive;
- a batch helper, `getUnCachedKeys`.

Before building the store, `cacheCreate` also renames deprecated option names.

The model follows the code file by file:

- `values.dfy` (module `JsValues`): the JavaScript values that options, the
  cache name and the TTL argument can hold. It gives their truthiness, which
  is what `!cache.enabled` and `ttl ? … : …` test, and the text a template
  literal builds from them, which topic names use (integers are written out
  in full; see "## Left out").
- `messages.dfy` (module `Messaging`): the pub/sub collaborator as an outbox.
  `PubSub.published` lists every `(topic, payload)` message in order, and
  `PubSub.subscribed` lists every topic a handler was registered for.
- `options.dfy` (module `Options`): the caller's options object as a class
  with a `map` field. `Translate` changes it in place, as `cacheCreate` does.
  It is proved against the pure function `Translated`; `TranslatedSpec` then
  states what happens to each deprecated name and that every other name is
  left unchanged.
- `store.dfy` (module `Store`): the `lru-cache` store as a finite map from
  keys to entries. Each entry holds the value and the TTL override `set`
  passed. The module also holds the pure reference functions for the
  facade's loops, with lemmas about them:
  - `Removed`: what deleting a key list leaves;
  - `DelApplied`: what the delete handler leaves;
  - `UnCached` and `CachedKeys`: how a batch splits;
  - `Filled`: what the caller's object holds afterwards.
- `cache.dfy` (module `LruCache`): the facade as the class `Cache`. Its
  mutable fields are `hits`, `misses`, `enabled` and `store`. It keeps the
  shared `PubSub` as `bus`, and `name` and the translated store options as
  constants. Each method's postcondition gives the whole new state in terms
  of the old one, and the loops of `del`, of the delete handler and of
  `getUnCachedKeys` are proved against the functions in `Store`.
  `CachedData` is the plain object the caller passes to `getUnCachedKeys`.
- `scenarios.dfy` (module `Scenarios`): clients that chain several calls:
  - a cache receives its own delete or reset back and nothing changes;
  - a second cache with the same name receives them and ends up with the
    same deletion or reset;
  - a batch of three keys shows the double counting;
  - while the cache is disabled, the store keeps its entries.

In the model, delivering a message means a client calls `Cache.Deliver`. It
runs the handler registered for the message's topic.

Notes on the code, all of which the model reproduces:

- `getUnCachedKeys` counts every key of a batch twice. It looks up every key
  through `cache.get` (`src/cache/lru.js:110`), and `get` already adds to
  `hits` or `misses`. Then it adds the batch totals again
  (`src/cache/lru.js:117-120`). So a batch with one held key and two missing
  keys adds 2 to `hits` and 4 to `misses`.
- The topics are `<name>:lruCache:del` and `<name>:lruCache:reset`.
- The delete payload is a list of keys, in the order given, duplicates
  included. The delete handler ignores any payload that is not a list.
- `del`, `delete`, `reset` and `clear` are not gated by `enabled`. Neither are
  `peek` and `dump`: a disabled cache's `get` reports absent, while `peek`
  still returns the stored value.

## Model

| member | source | states |
|---|---|---|
| `Options.Options.constructor` | src/cache/lru.js:12 | the options object holds exactly the properties the caller gave |
| `Options.Options.Translate` | src/cache/lru.js:15-31 | the options object afterwards equals `Translated` of its old contents: `length` without `maxSize` dropped, then each deprecated name renamed in table order |
| `Options.TranslatedSpec` | src/cache/lru.js:15-31 | `stale` moves to `allowStale` and `maxAge` to `ttl` exactly when the old name is present and the new one is absent, and otherwise both are left as they were. `length` without `maxSize` disappears and `sizeCalculation` is left as it was. `length` with `maxSize` moves to `sizeCalculation` under the same rule as the others. Every other property is unchanged |
| `Options.DropOrphanLength` | src/cache/lru.js:15-18 | `length` survives exactly when `maxSize` is also present, and then keeps its value; every other property is unchanged |
| `Options.Rename` | src/cache/lru.js:25-30 | the new name takes the old name's value and the old name is gone exactly when the old name is present and the new one is not; otherwise both are untouched; every other property is unchanged |
| `Options.TranslatedKeeps` | src/cache/lru.js:15-31 | a property other than the six names in the table, such as `enabled` or `name`, comes through translation unchanged |
| `Options.RenameAllPair` | src/cache/lru.js:24-31 | in a table where no name repeats, each pair is renamed as if it were the only one: the new name gets the old value and the old name is gone when only the old name was present, and both are untouched otherwise |
| `Options.RenameAllOthers` | src/cache/lru.js:24-31 | a property that no pair of the table names comes through the renaming unchanged |
| `Options.DeprecationsDistinct` | src/cache/lru.js:19-23 | the six names in the deprecation table are pairwise distinct |
| `Messaging.PubSub.Publish` | src/cache/lru.js:81 | publishing appends exactly one `(topic, payload)` message to the outbox |
| `Messaging.PubSub.On` | src/cache/lru.js:95-102 | registering a handler appends its topic to the subscriptions |
| `Store.UnCachedMembers` | src/cache/lru.js:109-116 | a key is among the returned uncached keys if and only if it is in the batch and the store has no value for it |
| `Store.CachedKeysMembers` | src/cache/lru.js:109-113 | a key is among the batch's hits if and only if it is in the batch and the store has a value for it |
| `Store.UnCachedIsSubsequence` | src/cache/lru.js:109-116 | the uncached keys are a subsequence of the batch, in input order |
| `Store.Partition` | src/cache/lru.js:117-118 | the hits and the uncached keys together are the batch, as multisets. So the number of hits is `keys.length - unCachedKeys.length` |
| `Store.FilledSpec` | src/cache/lru.js:112-114 | afterwards the caller's object maps every held key of the batch to the store's value. It has a property exactly where it had one before or where the batch had a held key. Every other property keeps its old value |
| `Store.RemovedSnoc` | src/cache/lru.js:82 | deleting one more key from a deletion's result removes exactly that key |
| `Store.SelfDeliveredDel` | src/cache/lru.js:98-102 | applying the delete handler to a list of keys after a local `del` of the same keys leaves the same store |
| `Store.DeletesCommute` | src/cache/lru.js:98-102 | two delete messages applied in either order leave the same store |
| `JsValues.JsValue.Truthy` | src/cache/lru.js:58 | the falsy values are exactly `undefined`, `null`, `false`, `0` and `""`; the same test decides `ttl ? … : …` (line 61), `!cache.enabled` in `get` (line 65) and in `getUnCachedKeys` (line 104) |
| `LruCache.SingleKeyAsList` | src/cache/lru.js:78-80 | `del` turns a single key into the same list as the one-element list `[key]`, so both publish and delete the same thing |
| `LruCache.DelTopic` | src/cache/lru.js:81 | the delete topic reads back as the cache name's text followed by the delete kind; the handler at line 98 listens on the same topic |
| `LruCache.ResetTopic` | src/cache/lru.js:91 | the reset topic reads back as the cache name's text followed by the reset kind; the handler at line 95 listens on the same topic |
| `LruCache.TopicsDiffer` | src/cache/lru.js:81-98 | a cache's delete topic and reset topic are different strings |
| `LruCache.TopicsShared` | src/cache/lru.js:95-98 | two caches share a delete topic, or a reset topic, exactly when their names render to the same text |
| `LruCache.Cache.constructor` | src/cache/lru.js:12-37 | the options are translated in place, and the store is built from the result. Counters start at 0, the store is empty, and `enabled` is the caller's `enabled` option if present, else `true`. The name is the `name` option or `undefined`. Nothing is published, and the reset and delete handlers are registered in that order (lines 95 and 98) |
| `LruCache.Cache.Peek` | src/cache/lru.js:126-128 | returns a value exactly when the store holds the key, and then the stored value |
| `LruCache.Cache.Dump` | src/cache/lru.js:123-125 | a snapshot with as many entries as the store, each agreeing with `Peek` |
| `LruCache.Cache.Set` | src/cache/lru.js:57-63 | when disabled the store is unchanged. When enabled the key maps to the value with the TTL override, and no other key changes. Counters are never touched |
| `LruCache.Cache.Get` | src/cache/lru.js:64-76 | when disabled: absent, and no counter changes. When enabled: the store's value; `misses` goes up by 1 if absent, otherwise `hits` goes up by 1. The store and `enabled` never change |
| `LruCache.Cache.DeleteEach` | src/cache/lru.js:82 | deleting the listed keys one at a time removes exactly those keys and leaves every other entry as it was |
| `LruCache.Cache.Del` | src/cache/lru.js:77-83 | appends one message to the outbox: the `:lruCache:del` topic with the keys as a list (a single key becomes `[key]`). Then it removes the listed keys; other keys and the counters are unchanged |
| `LruCache.Cache.Delete` | src/cache/lru.js:84 | the same contract as `Del` |
| `LruCache.Cache.LocalReset` | src/cache/lru.js:85-89 | the store is empty and both counters are 0 |
| `LruCache.Cache.Reset` | src/cache/lru.js:90-93 | appends one message with the `:lruCache:reset` topic and no payload, then empties the store and zeroes both counters |
| `LruCache.Cache.Clear` | src/cache/lru.js:94 | the same contract as `Reset` |
| `LruCache.Cache.HandleReset` | src/cache/lru.js:95-97 | whatever the payload, the store is empty and both counters are 0, and nothing is published |
| `LruCache.Cache.HandleDel` | src/cache/lru.js:98-102 | a list payload removes exactly the listed keys; any other payload leaves the store unchanged; the counters never change |
| `LruCache.Cache.Deliver` | src/cache/lru.js:95-102 | a message on the cache's reset topic resets it. A message on its delete topic applies the delete handler. A message on any other topic changes nothing |
| `LruCache.Cache.GetUnCachedKeys` | src/cache/lru.js:103-122 | when disabled: returns the keys unchanged and touches neither the caller's object nor the counters. When enabled: returns the uncached keys in input order and writes every held key's value into the caller's object. `hits` grows by twice the number of held keys and `misses` by twice the number of uncached ones |
| `Scenarios.DelThenSelfDeliver` | src/cache/lru.js:77-102 | `del`, then delivery of its own message back to the same cache, leaves the same store and counters as `del` alone |
| `Scenarios.ResetThenSelfDeliver` | src/cache/lru.js:85-97 | `reset`, then delivery of its own message back to the same cache, leaves an empty store and zero counters |
| `Scenarios.DelReachesPeer` | src/cache/lru.js:77-102 | a `del` on one cache, delivered to another cache whose name renders the same, removes the same keys there and leaves its counters alone |
| `Scenarios.ResetReachesPeer` | src/cache/lru.js:85-97 | a `reset` on one cache, delivered to another cache whose name renders the same, empties it and zeroes its counters |
| `Scenarios.BatchOfThree` | src/cache/lru.js:103-122 | with `k1` held and `k2`, `k3` missing: the result is `[k2, k3]`, `k1`'s value is written out, `hits` grows by 2 and `misses` by 4 |
| `Scenarios.ReenableKeepsEntries` | src/cache/lru.js:57-75 | `get` and `set` on a disabled cache leave the store alone, so after re-enabling, `get` finds the old entry and counts one hit |
| `Scenarios.ResetHandlerTwice` | src/cache/lru.js:95-97 | running the reset handler twice leaves the same state as running it once |

## Left out

- Eviction order, capacity and TTL expiry (`src/cache/lru.js:32`, `62`, `124`, `127`) are not modelled. They are `lru-cache`'s own behaviour, outside the facade, and expiry depends on wall-clock time. The store is an abstract map, so no entry ever expires or is evicted. Beyond that, the facade's `get` differs from `peek` only in the `enabled` gate and the counters; the library's recency update on `get` is not modelled.
- LruCache.Cache.constructor: always succeeds. In the source, `new lru_cache_1.default(opts)` (`src/cache/lru.js:32`) validates the translated options and throws on some of them, for example `sizeCalculation` without `maxSize` (the lru-cache 7 rule the comment at lines 13-14 refers to). Those rules belong to the library and are not modelled.
- The store's per-entry TTL override (`src/cache/lru.js:61`) is recorded in each entry, as `TtlOverride`, but no behaviour of the model depends on it; it only matters for expiry.
- LruCache.Cache.Dump: does not state the most-recently-used-first order or the expiry metadata of the library's dump, because recency and time are not modelled.
- The pub/sub transport is not modelled: cross-process delivery, ordering, loss, and the local emitter delivering synchronously inside `publish`. Delivery is a call to `Cache.Deliver` that the client makes itself.
- Deprecation warnings written through winston and chalk (`src/cache/lru.js:16`, `26`) are not modelled; they are logging only.
- The property getters `length`, `calculatedSize`, `max`, `maxSize`, `itemCount` and `ttl` (`src/cache/lru.js:39-56`) are not modelled. They read live store fields, and those fields are computed inside the library. Only the size is modelled, as `Size`: the number of entries in the store, with no contract of its own.
- `src/cache.js` and `src/database/cache.js` are not modelled. They only call `cacheCreate` with fixed options (`max: 40000`, `ttl: 0`, a name).
- A stored value of `undefined` cannot be represented: values are a type parameter, and absence is `None`. In the source, such an entry would read as a miss.
- Keys are compared with Dafny equality. The library uses SameValueZero, and `cachedData[key]` turns keys into property names, so keys `1` and `"1"` would share one property of the caller's object. Neither is modelled.
- Aliasing is not modelled. The caller's object might be the cache itself. In the disabled case the returned list is a value equal to the input, not the same array.
- Numbers are integers: NaN, `-0` and fractions are not represented. `Display` writes every integer in full decimal; JavaScript switches to exponent notation from 10^21 up (`${1e21}` is `"1e+21"`), so topic names built from such a number differ. `hits` and `misses` are unbounded naturals. An object value renders as `[object Object]`, whatever `toString` it defines.
- `cache.name` is a constant. Reassigning it after construction is not modelled; in the source that would change the topics `del` and `reset` publish on, but not the topics the handlers listen on.
- `opts.name` is read as an own property; inherited properties of the options object are not modelled.
