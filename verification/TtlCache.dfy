/**
The key-value cache with expiring entries that the refund lock, the idempotency
decorator and the OTP limiter share. Every operation is atomic and takes the time
at which it runs; an entry is visible strictly before its expiry time.
 */
module TtlCache {
  import opened Prelude

  datatype Entry<V> = Entry(value: V, expiry: int)

  type Cache<!K(==), V> = map<K, Entry<V>>

  predicate Live<K, V>(cache: Cache<K, V>, key: K, now: int) {
    key in cache && now < cache[key].expiry
  }

  function Get<K, V>(cache: Cache<K, V>, key: K, now: int): Option<V> {
    if Live(cache, key, now) then Some(cache[key].value) else None
  }

  function Set<K, V>(cache: Cache<K, V>, key: K, value: V, ttl: int, now: int): Cache<K, V> {
    cache[key := Entry(value, now + ttl)]
  }

  /** Sets the key only when no live entry exists; the caller learns whether it did by `!Live`. */
  function Add<K, V>(cache: Cache<K, V>, key: K, value: V, ttl: int, now: int): Cache<K, V> {
    if Live(cache, key, now) then cache else Set(cache, key, value, ttl, now)
  }

  function Delete<K, V>(cache: Cache<K, V>, key: K): Cache<K, V> {
    cache - {key}
  }
}
