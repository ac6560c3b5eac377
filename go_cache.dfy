/**
 * The behaviour of the in-memory TTL cache that the handler uses: `Get`
 * and `Add` with the default expiration, with time given explicitly in
 * nanoseconds. The cache is created with a five-minute default lifetime.
 */
module GoCache {
  import opened Wrappers
  import opened DnsMsg

  /** Five minutes, in nanoseconds: the default expiration of every entry. */
  const Lifetime: int := 5 * 60 * 1_000_000_000

  /** A stored object and the instant (in nanoseconds) after which it is expired. */
  datatype Item = Item(msg: Msg, expiration: int)

  type Items = map<string, Item>

  /** An item is expired only when it has a positive expiration strictly in the past. */
  predicate Expired(item: Item, now: int) {
    item.expiration > 0 && now > item.expiration
  }

  /** `Get`: the stored object when the key is present and not expired. */
  function Get(items: Items, key: string, now: int): (r: Option<Msg>)
    ensures r.Some? <==> key in items && !Expired(items[key], now)
    ensures r.Some? ==> r.value == items[key].msg
  {
    if key in items && !Expired(items[key], now) then Some(items[key].msg) else None
  }

  /**
   * `Add` with the default expiration: stores `x` under `key` expiring at
   * `now + Lifetime`, unless the key already holds an unexpired item, in
   * which case the cache is left as it was (the library returns an error).
   */
  function Add(items: Items, key: string, x: Msg, now: int): (r: Items)
    ensures Get(items, key, now).None? ==> r == items[key := Item(x, now + Lifetime)]
    ensures Get(items, key, now).Some? ==> r == items
  {
    if Get(items, key, now).Some? then items else items[key := Item(x, now + Lifetime)]
  }

  /**
   * An object added at a non-negative time `t` is returned by `Get` at every
   * time up to and including `t + Lifetime`, and at no later time.
   */
  lemma AddedEntryLifetime(items: Items, key: string, x: Msg, t: int, later: int)
    requires Get(items, key, t).None?
    requires t >= 0 && later >= t
    ensures Get(Add(items, key, x, t), key, later) ==
            if later <= t + Lifetime then Some(x) else None
  {
  }

  /** Adding under one key leaves every other key's lookups as they were. */
  lemma AddLeavesOtherKeys(items: Items, key: string, x: Msg, now: int, other: string, when: int)
    requires other != key
    ensures Get(Add(items, key, x, now), other, when) == Get(items, other, when)
  {
  }
}
