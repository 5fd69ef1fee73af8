/**
 * The TTL cache over the document store. The store is an abstract map from
 * key to `{value, expiresAt}` and the clock reading `now` (epoch
 * milliseconds) is a parameter. Expiry is lazy: a read past `expiresAt`
 * deletes the entry and misses; nothing else ever removes an entry.
 */
module FirestoreCache {
  import opened Errors
  import opened Json

  datatype Entry = Entry(value: Json, expiresAt: int)

  type Store = map<string, Entry>

  /** What a read returns (`null` on a miss) and the store afterwards. */
  datatype Read = Read(value: Json, store: Store)

  const EmptyKey: Error := Plain("Cache key must not be empty")

  /** An entry that a read at `now` still returns: expiry is strict. */
  predicate Live(store: Store, key: string, now: int) {
    key in store && now <= store[key].expiresAt
  }

  /** `getCached(key)` at time `now`. */
  function GetCached(store: Store, key: string, now: int): (r: Result<Read>)
    ensures r.Err? <==> key == ""
    ensures r.Err? ==> r.error == EmptyKey
    ensures r.Ok? && Live(store, key, now) ==> r.value == Read(store[key].value, store)
    ensures r.Ok? && !Live(store, key, now) ==> r.value.value == Null
    ensures r.Ok? ==> r.value.store.Keys == if key in store && !Live(store, key, now) then store.Keys - {key} else store.Keys
    ensures r.Ok? ==> forall k :: k in r.value.store ==> k in store && r.value.store[k] == store[k]
  {
    if key == "" then Err(EmptyKey)
    else if key !in store then Ok(Read(Null, store))
    else if now > store[key].expiresAt then Ok(Read(Null, store - {key}))
    else Ok(Read(store[key].value, store))
  }

  /** `setCached(key, value, ttlSeconds)` at time `now`: last writer wins. */
  function SetCached(store: Store, key: string, value: Json, ttlSeconds: int, now: int): (r: Result<Store>)
    ensures r.Err? <==> key == ""
    ensures r.Err? ==> r.error == EmptyKey
    ensures r.Ok? ==> r.value.Keys == store.Keys + {key}
    ensures r.Ok? ==> r.value[key] == Entry(value, now + ttlSeconds * 1000)
    ensures r.Ok? ==> forall k :: k in store && k != key ==> r.value[k] == store[k]
  {
    if key == "" then Err(EmptyKey)
    else Ok(store[key := Entry(value, now + ttlSeconds * 1000)])
  }

  /** A value written with a non-negative TTL is read back unchanged until
    * `ttlSeconds` have passed, the boundary instant included, and the read
    * leaves the store as the write made it. */
  lemma SetThenGet(store: Store, key: string, value: Json, ttlSeconds: int, now: int, later: int)
    requires key != ""
    requires now <= later <= now + ttlSeconds * 1000
    ensures var written := SetCached(store, key, value, ttlSeconds, now).value;
      GetCached(written, key, later) == Ok(Read(value, written))
  {
  }

  /** Once the TTL has passed, the read misses and the entry is gone from the
    * store; every other entry is untouched. */
  lemma ReadAfterExpiry(store: Store, key: string, value: Json, ttlSeconds: int, now: int, later: int)
    requires key != ""
    requires later > now + ttlSeconds * 1000
    ensures var written := SetCached(store, key, value, ttlSeconds, now).value;
      GetCached(written, key, later) == Ok(Read(Null, written - {key}))
      && key !in written - {key}
      && (forall k :: k in store && k != key ==> k in written - {key} && (written - {key})[k] == store[k])
  {
  }

  /** Reading an absent key misses and changes nothing. */
  lemma MissLeavesStore(store: Store, key: string, now: int)
    requires key != "" && key !in store
    ensures GetCached(store, key, now) == Ok(Read(Null, store))
  {
  }

  /** The later of two writes to a key decides what is stored. */
  lemma LastWriterWins(store: Store, key: string, v1: Json, t1: int, n1: int, v2: Json, t2: int, n2: int)
    requires key != ""
    ensures SetCached(SetCached(store, key, v1, t1, n1).value, key, v2, t2, n2)
      == SetCached(store, key, v2, t2, n2)
  {
    var s1 := SetCached(store, key, v1, t1, n1).value;
    assert s1[key := Entry(v2, n2 + t2 * 1000)] == store[key := Entry(v2, n2 + t2 * 1000)];
  }
}
