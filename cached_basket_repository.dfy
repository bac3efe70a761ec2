/**
 * The cache-aside decorator over the cart store: reads consult a keyed, time-limited cache
 * first; writes go to the store and then refresh the cache; deletes evict only what the
 * store actually removed. The clock is an integer number of seconds passed in by the caller.
 */
module CachedBaskets {
  import opened Models
  import opened Baskets

  /** Entries live for 30 minutes from the moment they are set. */
  const CacheExpiration: int := 30 * 60

  const KeyPrefix: string := "basket_"

  /** A cached cart and the instant from which it no longer counts. */
  datatype CacheEntry = CacheEntry(cart: ShoppingCart, expiresAt: int)

  /** Namespaced cache key of a user's cart. */
  function CacheKey(userName: string): (key: string)
    ensures |key| == |KeyPrefix| + |userName|
    ensures key[..|KeyPrefix|] == KeyPrefix && key[|KeyPrefix|..] == userName
  {
    KeyPrefix + userName
  }

  /** Distinct users never share a cache entry. */
  lemma CacheKeyInjective(u: string, v: string)
    ensures CacheKey(u) == CacheKey(v) <==> u == v
  {
  }

  /** An entry counts as present until its expiry instant is reached, and not at that instant. */
  predicate IsLive(cache: map<string, CacheEntry>, key: string, now: int)
    ensures IsLive(cache, key, now) ==> key in cache
    ensures key in cache && cache[key].expiresAt <= now ==> !IsLive(cache, key, now)
    ensures key in cache && now == cache[key].expiresAt - 1 ==> IsLive(cache, key, now)
  {
    key in cache && now < cache[key].expiresAt
  }

  /** The cache lookup: a live entry's cart, otherwise a miss. */
  function TryGetValue(cache: map<string, CacheEntry>, key: string, now: int): (r: Option<ShoppingCart>)
    ensures r.Some? <==> IsLive(cache, key, now)
    ensures r.Some? ==> r.value == cache[key].cart
  {
    if IsLive(cache, key, now) then Some(cache[key].cart) else None
  }

  /** The cache after `cart` is set under `key` with a fresh expiry. */
  function SetEntry(cache: map<string, CacheEntry>, key: string, cart: ShoppingCart, now: int): (c': map<string, CacheEntry>)
    ensures key in c' && c'[key] == CacheEntry(cart, now + CacheExpiration)
    ensures forall t :: now <= t < now + CacheExpiration ==> TryGetValue(c', key, t) == Some(cart)
    ensures forall k :: k != key ==> (k in c' <==> k in cache) && (k in cache ==> c'[k] == cache[k])
  {
    cache[key := CacheEntry(cart, now + CacheExpiration)]
  }

  /**
   * What the read path does with the backing store's answer on a miss: a found cart is
   * cached with a fresh expiry, a null answer leaves the cache as it was.
   */
  function CacheIfFound(cache: map<string, CacheEntry>, key: string, fetched: Option<ShoppingCart>, now: int): (c': map<string, CacheEntry>)
    ensures fetched.None? ==> c' == cache
    ensures fetched.Some? ==> c' == SetEntry(cache, key, fetched.value, now)
    ensures forall k :: k != key ==> (k in c' <==> k in cache) && (k in cache ==> c'[k] == cache[k])
  {
    if fetched.Some? then SetEntry(cache, key, fetched.value, now) else cache
  }

  /**
   * The write-through invariant: every cache entry for a user mirrors the cart the store
   * holds for that user, so the cache is never the sole holder of a cart.
   */
  ghost predicate Mirrors(cache: map<string, CacheEntry>, baskets: map<string, ShoppingCart>)
  {
    forall u {:trigger CacheKey(u)} :: CacheKey(u) in cache ==> u in baskets && cache[CacheKey(u)].cart == baskets[u]
  }

  /**
   * The decorator's read path over a backing store that answers `fetched` on a miss:
   * the value returned and the cache afterwards.
   */
  function ReadThrough(cache: map<string, CacheEntry>, userName: string, fetched: Option<ShoppingCart>, now: int): (r: (Option<ShoppingCart>, map<string, CacheEntry>))
    ensures IsLive(cache, CacheKey(userName), now) ==> r == (Some(cache[CacheKey(userName)].cart), cache)
    ensures !IsLive(cache, CacheKey(userName), now) ==> r == (fetched, CacheIfFound(cache, CacheKey(userName), fetched, now))
  {
    var hit := TryGetValue(cache, CacheKey(userName), now);
    if hit.Some? then (hit, cache) else (fetched, CacheIfFound(cache, CacheKey(userName), fetched, now))
  }

  /**
   * With a backing lookup that returns what it finds, the decorator is coherent: every read
   * returns exactly what the store holds and the cache keeps mirroring the store.
   */
  lemma CorrectedReadIsCoherent(cache: map<string, CacheEntry>, baskets: map<string, ShoppingCart>, userName: string, now: int)
    requires Mirrors(cache, baskets)
    ensures ReadThrough(cache, userName, LookupBasket(baskets, userName), now).0 == LookupBasket(baskets, userName)
    ensures Mirrors(ReadThrough(cache, userName, LookupBasket(baskets, userName), now).1, baskets)
  {
  }

  /**
   * The composed read over the as-written store (whose lookup answers null): after a cart is
   * written through at `storedAt`, a read at `readAt` sees it exactly while the entry is live,
   * and an eviction of its key hides it.
   */
  lemma ComposedReadAfterStore(cache: map<string, CacheEntry>, basket: ShoppingCart, storedAt: int, readAt: int)
    ensures ReadThrough(SetEntry(cache, CacheKey(basket.userName), basket, storedAt), basket.userName, None, readAt).0
            == if readAt < storedAt + CacheExpiration then Some(basket) else None
    ensures ReadThrough(SetEntry(cache, CacheKey(basket.userName), basket, storedAt) - {CacheKey(basket.userName)}, basket.userName, None, readAt).0
            == None
  {
  }

  class CachedBasketRepository {
    const backing: BasketRepository
    var cache: map<string, CacheEntry>

    ghost predicate Valid()
      reads this, backing
    {
      backing.Valid() && Mirrors(cache, backing.baskets)
    }

    /** Wraps `backing` with an empty cache. */
    constructor (backing: BasketRepository)
      requires backing.Valid()
      ensures Valid() && this.backing == backing && cache == map[]
    {
      this.backing := backing;
      cache := map[];
    }

    /**
     * Read-through: a live entry answers without consulting the store; on a miss the store's
     * answer is returned and cached only when it is a cart. Over the as-written store, whose
     * lookup always answers null, only a live entry ever yields a cart.
     */
    method GetBasket(userName: string, now: int) returns (r: Option<ShoppingCart>)
      requires Valid()
      modifies this
      ensures Valid()
      ensures (r, cache) == ReadThrough(old(cache), userName, None, now)
      ensures r == TryGetValue(old(cache), CacheKey(userName), now) && cache == old(cache)
      ensures r.Some? ==> userName in backing.baskets && r.value == backing.baskets[userName]
    {
      var key := CacheKey(userName);
      var cached := TryGetValue(cache, key, now);
      if cached.Some? {
        return cached;
      }
      r := backing.GetBasket(userName);
      cache := CacheIfFound(cache, key, r, now);
    }

    /**
     * Write-through: the store first, then the entry for that user is overwritten with the
     * store's returned cart and a fresh expiry, whatever was cached before.
     */
    method StoreBasket(basket: ShoppingCart, now: int) returns (stored: ShoppingCart)
      requires Valid()
      modifies this, backing
      ensures Valid()
      ensures backing.baskets == Put(old(backing.baskets), basket)
      ensures stored == basket
      ensures cache == SetEntry(old(cache), CacheKey(basket.userName), stored, now)
    {
      var key := CacheKey(basket.userName);
      stored := backing.StoreBasket(basket);
      cache := SetEntry(cache, key, stored, now);
      forall u | CacheKey(u) in cache
        ensures u in backing.baskets && cache[CacheKey(u)].cart == backing.baskets[u]
      {
        CacheKeyInjective(u, basket.userName);
      }
    }

    /** Deletes in the store and evicts the entry only when the store reports a removal. */
    method DeleteBasket(userName: string) returns (removed: bool)
      requires Valid()
      modifies this, backing
      ensures Valid()
      ensures removed <==> userName in old(backing.baskets)
      ensures backing.baskets == Drop(old(backing.baskets), userName)
      ensures cache == if removed then old(cache) - {CacheKey(userName)} else old(cache)
    {
      var key := CacheKey(userName);
      removed := backing.DeleteBasket(userName);
      if removed {
        cache := cache - {key};
      }
      forall u | CacheKey(u) in cache
        ensures u in backing.baskets && cache[CacheKey(u)].cart == backing.baskets[u]
      {
        CacheKeyInjective(u, userName);
      }
    }

    /** The cache layer may drop any entry at any time (capacity or policy eviction). */
    method Evict(key: string)
      requires Valid()
      modifies this
      ensures Valid()
      ensures cache == old(cache) - {key}
    {
      cache := cache - {key};
    }
  }

  /**
   * The stores wired as in the application: after a cart is stored through the decorator,
   * a read returns it while its entry is live and not evicted, and null otherwise, even
   * though the store still holds it.
   */
  method StoreThenRead(repo: CachedBasketRepository, basket: ShoppingCart, storedAt: int, readAt: int, evicted: bool)
    returns (got: Option<ShoppingCart>)
    requires repo.Valid() && storedAt <= readAt
    modifies repo, repo.backing
    ensures repo.Valid()
    ensures got == if !evicted && readAt < storedAt + CacheExpiration then Some(basket) else None
    ensures basket.userName in repo.backing.baskets && repo.backing.baskets[basket.userName] == basket
  {
    var _ := repo.StoreBasket(basket, storedAt);
    if evicted {
      repo.Evict(CacheKey(basket.userName));
    }
    got := repo.GetBasket(basket.userName, readAt);
  }
}
