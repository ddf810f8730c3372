/** The in-memory cache with expiry (pkg/cache/memory.go). Time is an integer passed in. */
module Cache {
  import opened Common

  /** `expires` is None for an entry that never expires. */
  datatype Entry<V> = Entry(value: Option<V>, counter: int, expires: Option<int>)

  type Items<V> = map<string, Entry<V>>

  predicate ExpiredAt<V>(e: Entry<V>, now: int) { e.expires.Some? && now > e.expires.value }

  function Expiry(now: int, ttl: int): Option<int> { if ttl > 0 then Some(now + ttl) else None }

  predicate HasPrefix(s: string, prefix: string) { |prefix| <= |s| && s[..|prefix|] == prefix }

  /** What Get answers. */
  function Lookup<V>(items: Items<V>, key: string, now: int): Option<V> {
    if key in items && !ExpiredAt(items[key], now) then items[key].value else None
  }

  /** Get also drops an entry it finds expired. */
  function AfterGet<V>(items: Items<V>, key: string, now: int): Items<V> {
    if key in items && ExpiredAt(items[key], now) then items - {key} else items
  }

  function AfterSet<V>(items: Items<V>, key: string, value: V, ttl: int, now: int): Items<V> {
    items[key := Entry(Some(value), 0, Expiry(now, ttl))]
  }

  function AfterDeleteByPrefix<V>(items: Items<V>, prefix: string): Items<V> {
    map k | k in items && !HasPrefix(k, prefix) :: items[k]
  }

  function Counted<V>(items: Items<V>, key: string, ttl: int, now: int): Entry<V> {
    if key !in items || ExpiredAt(items[key], now) then Entry(None, 1, Expiry(now, ttl))
    else items[key].(counter := items[key].counter + 1)
  }

  function AfterIncrement<V>(items: Items<V>, key: string, ttl: int, now: int): Items<V> {
    items[key := Counted(items, key, ttl, now)]
  }

  /** How long a value lives: it answers until its lifetime is over, that instant included, and for ever without
      one; other keys answer as before. */
  lemma Lifetime<V>(items: Items<V>, key: string, value: V, ttl: int, stored: int, now: int)
    ensures Lookup(AfterSet(items, key, value, ttl, stored), key, now) == if ttl <= 0 || now <= stored + ttl then Some(value) else None
    ensures forall k :: k != key ==> Lookup(AfterSet(items, key, value, ttl, stored), k, now) == Lookup(items, k, now)
  {}

  /** Asking changes no later answer, to any question. */
  lemma AskingIsHarmless<V>(items: Items<V>, key: string, asked: int, k: string, now: int)
    requires asked <= now
    ensures Lookup(AfterGet(items, key, asked), k, now) == Lookup(items, k, now)
  {}

  /** Dropping a prefix silences the keys that start with it and no others. */
  lemma Dropped<V>(items: Items<V>, prefix: string, key: string, now: int)
    ensures Lookup(AfterDeleteByPrefix(items, prefix), key, now)
            == if |key| >= |prefix| && (forall i :: 0 <= i < |prefix| ==> key[i] == prefix[i]) then None else Lookup(items, key, now)
  {
    if |key| >= |prefix| {
      assert HasPrefix(key, prefix) <==> forall i :: 0 <= i < |prefix| ==> key[..|prefix|][i] == prefix[i];
    }
  }

  /** A counter starts at one when it is new or its lifetime, fixed when it was started, is over; until then
      every call adds one. */
  lemma CounterLifetime<V>(items: Items<V>, key: string, ttl: int, started: int, again: int)
    requires key !in items && started <= again
    ensures var once := AfterIncrement(items, key, ttl, started);
            && once[key].counter == 1
            && AfterIncrement(once, key, ttl, again)[key].counter == (if ttl <= 0 || again <= started + ttl then 2 else 1)
            && (ttl > 0 && again <= started + ttl ==> AfterIncrement(once, key, ttl, again)[key].expires == Some(started + ttl))
  {}

  class MemoryCache<V> {
    var items: Items<V>

    constructor ()
      ensures items == map[]
    {
      items := map[];
    }

    method Get(key: string, now: int) returns (r: Option<V>)
      modifies this
      ensures r == Lookup(old(items), key, now) && items == AfterGet(old(items), key, now)
    {
      if key !in items { return None; }
      var entry := items[key];
      if entry.expires.Some? && now > entry.expires.value {
        items := items - {key};
        return None;
      }
      r := entry.value;
    }

    method Set(key: string, value: V, ttl: int, now: int)
      modifies this
      ensures items == AfterSet(old(items), key, value, ttl, now)
    {
      var exp := None;
      if ttl > 0 { exp := Some(now + ttl); }
      items := items[key := Entry(Some(value), 0, exp)];
    }

    method Delete(key: string)
      modifies this
      ensures items == old(items) - {key}
      ensures forall k, now :: Lookup(items, k, now) == if k == key then None else Lookup(old(items), k, now)
    {
      items := items - {key};
    }

    method DeleteByPrefix(prefix: string)
      modifies this
      ensures items == AfterDeleteByPrefix(old(items), prefix)
    {
      var keys := items.Keys;
      while keys != {}
        invariant keys <= old(items).Keys
        invariant items == map k | k in old(items) && (k in keys || !HasPrefix(k, prefix)) :: old(items)[k]
        decreases keys
      {
        var key :| key in keys;
        if HasPrefix(key, prefix) {
          items := items - {key};
        }
        keys := keys - {key};
      }
    }

    method Increment(key: string, ttl: int, now: int) returns (count: int)
      modifies this
      ensures items == AfterIncrement(old(items), key, ttl, now) && count == items[key].counter
    {
      if key !in items || (items[key].expires.Some? && now > items[key].expires.value) {
        var exp := None;
        if ttl > 0 { exp := Some(now + ttl); }
        items := items[key := Entry(None, 1, exp)];
        return 1;
      }
      count := items[key].counter + 1;
      items := items[key := items[key].(counter := count)];
    }
  }
}
