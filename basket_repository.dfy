/**
 * The in-memory cart store: a dictionary from user name to cart with upsert, delete and
 * a lookup that, as written, never hands back what it finds.
 */
module Baskets {
  import opened Models

  /** The dictionary after an upsert of `basket` under its own user name. */
  function Put(m: map<string, ShoppingCart>, basket: ShoppingCart): (m': map<string, ShoppingCart>)
    ensures basket.userName in m' && m'[basket.userName] == basket
    ensures forall u :: u != basket.userName ==> (u in m' <==> u in m)
    ensures forall u :: u != basket.userName && u in m ==> m'[u] == m[u]
  {
    m[basket.userName := basket]
  }

  /** The dictionary after `userName` has been removed (a no-op when it is absent). */
  function Drop(m: map<string, ShoppingCart>, userName: string): (m': map<string, ShoppingCart>)
    ensures userName !in m'
    ensures forall u :: u != userName ==> (u in m' <==> u in m)
    ensures forall u :: u in m' ==> m'[u] == m[u]
  {
    m - {userName}
  }

  /** What a lookup was evidently meant to return: the cart filed under `userName`, if any. */
  function LookupBasket(m: map<string, ShoppingCart>, userName: string): (r: Option<ShoppingCart>)
    ensures r.Some? <==> userName in m
    ensures r.Some? ==> r.value == m[userName]
  {
    if userName in m then Some(m[userName]) else None
  }

  /** Every cart is filed under its own user name. */
  ghost predicate FiledByOwner(m: map<string, ShoppingCart>)
  {
    forall u :: u in m ==> m[u].userName == u
  }

  class BasketRepository {
    var baskets: map<string, ShoppingCart>

    ghost predicate Valid()
      reads this
    {
      FiledByOwner(baskets)
    }

    constructor ()
      ensures Valid() && baskets == map[]
    {
      baskets := map[];
    }

    /**
     * As written: the cart found by the lookup is wrapped in a result that is discarded, and
     * control falls through to the null return, so every call answers "no cart".
     */
    method GetBasket(userName: string) returns (r: Option<ShoppingCart>)
      ensures r == None
    {
      if userName in baskets {
        var found := Some(baskets[userName]);
      }
      r := None;
    }

    /** Last write wins: the whole entry for the cart's user is replaced; no merge. */
    method StoreBasket(basket: ShoppingCart) returns (stored: ShoppingCart)
      requires Valid()
      modifies this
      ensures Valid()
      ensures baskets == Put(old(baskets), basket)
      ensures stored == basket
    {
      baskets := baskets[basket.userName := basket];
      stored := basket;
    }

    /** Removes the entry for `userName`, reporting whether there was one. */
    method DeleteBasket(userName: string) returns (removed: bool)
      requires Valid()
      modifies this
      ensures Valid()
      ensures removed <==> userName in old(baskets)
      ensures baskets == Drop(old(baskets), userName)
    {
      removed := userName in baskets;
      baskets := baskets - {userName};
    }
  }

  /** Two stores for the same user leave only the second cart. */
  lemma LastWriteWins(m: map<string, ShoppingCart>, first: ShoppingCart, second: ShoppingCart)
    requires first.userName == second.userName
    ensures Put(Put(m, first), second) == Put(m, second)
    ensures LookupBasket(Put(Put(m, first), second), second.userName) == Some(second)
  {
  }

  /** A second delete finds nothing and changes nothing. */
  lemma DeleteIdempotent(m: map<string, ShoppingCart>, userName: string)
    ensures userName !in Drop(m, userName)
    ensures Drop(Drop(m, userName), userName) == Drop(m, userName)
  {
  }

  /** The upsert and the delete keep every cart filed under its own user name. */
  lemma MutationsKeepFiling(m: map<string, ShoppingCart>, basket: ShoppingCart, userName: string)
    requires FiledByOwner(m)
    ensures FiledByOwner(Put(m, basket))
    ensures FiledByOwner(Drop(m, userName))
  {
  }

  /**
   * The defect on a fresh store: right after a cart is stored, the store holds it, yet
   * the lookup answers "no cart", while the intended lookup would return it.
   */
  method StoredCartIsNotReturned(basket: ShoppingCart) returns (held: bool, got: Option<ShoppingCart>, intended: Option<ShoppingCart>)
    ensures held && got == None && intended == Some(basket)
  {
    var repo := new BasketRepository();
    var _ := repo.StoreBasket(basket);
    held := basket.userName in repo.baskets;
    got := repo.GetBasket(basket.userName);
    intended := LookupBasket(repo.baskets, basket.userName);
  }
}
