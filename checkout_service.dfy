/**
 * The checkout coordinator: a counting semaphore of three admission slots taken with a
 * non-blocking try, then validation of the cart, the (cancellable) processing delay, the
 * delete, and the release of the slot on every exit. Threads are replaced by two explicit
 * steps per attempt: Begin (try-acquire and validate) and Finish (delete and release, or
 * cancel and release). Cancellation is an input of each step.
 */
module Checkout {
  import opened Models
  import opened Baskets
  import opened CachedBaskets

  /** Capacity of the admission semaphore. */
  const MaxConcurrentCheckouts: int := 3

  const TooManyRequestsMessage: string := "Too Many Checkout Requests. Please try again later."
  const EmptyCartMessage: string := "Cart is empty or does not exist."
  const CompletedMessage: string := "Checkout completed successfully."

  /** Outcome of one attempt; `items` defaults to empty and `checkoutTime` to null. */
  datatype CheckoutResult = CheckoutResult(success: bool, message: string, items: seq<string>, checkoutTime: Option<int>)

  /** The capacity rejection: a failure with no items and no time. */
  function TooManyRequests(): (r: CheckoutResult)
    ensures !r.success && r.message == TooManyRequestsMessage && r.items == [] && r.checkoutTime.None?
  {
    CheckoutResult(false, TooManyRequestsMessage, [], None)
  }

  /** The validation failure: a failure with no items and no time. */
  function EmptyCart(): (r: CheckoutResult)
    ensures !r.success && r.message == EmptyCartMessage && r.items == [] && r.checkoutTime.None?
  {
    CheckoutResult(false, EmptyCartMessage, [], None)
  }

  /** The completion: a success carrying the validated items and the completion time. */
  function Completed(items: seq<string>, now: int): (r: CheckoutResult)
    ensures r.success && r.message == CompletedMessage && r.items == items && r.checkoutTime == Some(now)
  {
    CheckoutResult(true, CompletedMessage, items, Some(now))
  }

  /** An admitted checkout between validation and its finish: whose cart, and the items read. */
  datatype Pending = Pending(userName: string, items: seq<string>)

  /** The semaphore's free count and the admitted checkouts that hold a slot. */
  datatype Slots = Slots(available: int, inFlight: multiset<Pending>)

  /** No slot is leaked or invented: held slots plus free slots make up the capacity. */
  predicate SlotsValid(s: Slots)
  {
    0 <= s.available <= MaxConcurrentCheckouts && s.available + |s.inFlight| == MaxConcurrentCheckouts
  }

  function InitialSlots(): (s: Slots)
    ensures SlotsValid(s) && s.inFlight == multiset{}
  {
    Slots(MaxConcurrentCheckouts, multiset{})
  }

  /**
   * What a step yields: the cancellation exception propagates, a result is returned,
   * or (Begin only) the checkout is admitted and awaits its Finish.
   */
  datatype Step = Canceled | Returned(result: CheckoutResult) | Admitted(pending: Pending)

  /**
   * Begin of an attempt for `userName`, with `read` the cart the store yields at validation:
   * an already cancelled token throws before anything is acquired; no free slot fails fast;
   * a missing or empty cart releases the slot it took and fails; otherwise the slot stays
   * held by the admitted checkout.
   */
  function Begin(s: Slots, userName: string, canceled: bool, read: Option<ShoppingCart>): (r: (Step, Slots))
    requires SlotsValid(s)
    ensures SlotsValid(r.1)
    ensures r.0.Canceled? <==> canceled
    ensures r.0 == Returned(TooManyRequests()) <==> !canceled && s.available == 0
    ensures r.0 == Returned(EmptyCart()) <==> !canceled && s.available > 0 && (read.None? || |read.value.items| == 0)
    ensures r.0.Admitted? <==> !canceled && s.available > 0 && read.Some? && |read.value.items| > 0
    ensures r.0.Admitted? ==> r.0.pending == Pending(userName, read.value.items)
                              && r.1 == Slots(s.available - 1, s.inFlight + multiset{r.0.pending})
    ensures !r.0.Admitted? ==> r.1 == s
  {
    if canceled then (Canceled, s)
    else if s.available == 0 then (Returned(TooManyRequests()), s)
    else if read.None? || |read.value.items| == 0 then (Returned(EmptyCart()), s)
    else
      var p := Pending(userName, read.value.items);
      (Admitted(p), Slots(s.available - 1, s.inFlight + multiset{p}))
  }

  /**
   * Finish of an admitted checkout: cancellation during the delay throws, otherwise the
   * result carries the items read at validation and the completion time; either way the
   * slot is given back exactly once.
   */
  function Finish(s: Slots, p: Pending, canceled: bool, now: int): (r: (Step, Slots))
    requires SlotsValid(s) && p in s.inFlight
    ensures SlotsValid(r.1)
    ensures r.1.available == s.available + 1 && r.1.inFlight == s.inFlight - multiset{p}
    ensures r.1.inFlight[p] == s.inFlight[p] - 1
    ensures r.0.Canceled? <==> canceled
    ensures !canceled ==> r.0 == Returned(Completed(p.items, now))
  {
    var released := Slots(s.available + 1, s.inFlight - multiset{p});
    if canceled then (Canceled, released) else (Returned(Completed(p.items, now)), released)
  }

  /** Corollary of the result builders: the rejection is distinguishable from every other outcome. */
  lemma OutcomesAreDistinct(items: seq<string>, now: int)
    ensures TooManyRequests() != EmptyCart()
    ensures Completed(items, now).success && !TooManyRequests().success && !EmptyCart().success
  {
  }

  /**
   * Four attempts for users with non-empty carts, the fourth begun before any of the first
   * three finishes: the first three are admitted and the fourth is refused for capacity.
   */
  lemma FourthConcurrentCheckoutIsRejected(carts: seq<ShoppingCart>)
    requires |carts| == 4
    requires forall i :: 0 <= i < 4 ==> |carts[i].items| > 0
    ensures var b0 := Begin(InitialSlots(), carts[0].userName, false, Some(carts[0]));
            var b1 := Begin(b0.1, carts[1].userName, false, Some(carts[1]));
            var b2 := Begin(b1.1, carts[2].userName, false, Some(carts[2]));
            var b3 := Begin(b2.1, carts[3].userName, false, Some(carts[3]));
            b0.0.Admitted? && b1.0.Admitted? && b2.0.Admitted? && b3.0 == Returned(TooManyRequests())
  {
  }

  /** Slots are reusable: once an admitted checkout finishes, a retry with a non-empty cart is admitted. */
  lemma RetryAfterReleaseIsAdmitted(s: Slots, p: Pending, canceled: bool, now: int, cart: ShoppingCart)
    requires SlotsValid(s) && p in s.inFlight && |cart.items| > 0
    ensures Begin(Finish(s, p, canceled, now).1, cart.userName, false, Some(cart)).0.Admitted?
  {
  }

  /** Corollary of `SlotsValid`, which `Begin` and `Finish` preserve: at no instant do more than three checkouts hold a slot. */
  lemma CapacityBound(s: Slots)
    requires SlotsValid(s)
    ensures |s.inFlight| <= MaxConcurrentCheckouts
  {
  }

  class CheckoutService {
    const repo: CachedBasketRepository
    var available: int
    ghost var inFlight: multiset<Pending>

    ghost predicate Valid()
      reads this, repo, repo.backing
    {
      SlotsValid(Slots(available, inFlight)) && repo.Valid()
    }

    /** A fresh service over the cached store, with all three slots free. */
    constructor (repo: CachedBasketRepository)
      requires repo.Valid()
      ensures Valid() && this.repo == repo
      ensures Slots(available, inFlight) == InitialSlots()
    {
      this.repo := repo;
      available := MaxConcurrentCheckouts;
      inFlight := multiset{};
    }

    /**
     * Try-acquire with zero wait, then validate the cart read through the store. Only the
     * admitted path keeps its slot; the store is never written here.
     */
    method BeginCheckout(userName: string, canceled: bool, now: int) returns (step: Step)
      requires Valid()
      modifies this, repo
      ensures Valid()
      ensures (step, Slots(available, inFlight))
              == Begin(old(Slots(available, inFlight)), userName, canceled, TryGetValue(old(repo.cache), CacheKey(userName), now))
      ensures repo.cache == old(repo.cache) && repo.backing.baskets == old(repo.backing.baskets)
    {
      if canceled {
        return Canceled;
      }
      if available == 0 {
        return Returned(TooManyRequests());
      }
      available := available - 1;
      var basket := repo.GetBasket(userName, now);
      if basket.None? || |basket.value.items| == 0 {
        available := available + 1;
        return Returned(EmptyCart());
      }
      var p := Pending(userName, basket.value.items);
      inFlight := inFlight + multiset{p};
      step := Admitted(p);
    }

    /**
     * After the delay: unless cancelled, delete the cart (its reported pre-existence is
     * ignored) and succeed with the items read at validation; release the slot either way.
     */
    method FinishCheckout(p: Pending, canceled: bool, now: int) returns (step: Step)
      requires Valid() && p in inFlight
      modifies this, repo, repo.backing
      ensures Valid()
      ensures (step, Slots(available, inFlight)) == Finish(old(Slots(available, inFlight)), p, canceled, now)
      ensures canceled ==> repo.cache == old(repo.cache) && repo.backing.baskets == old(repo.backing.baskets)
      ensures !canceled ==> repo.backing.baskets == Drop(old(repo.backing.baskets), p.userName)
      ensures !canceled ==> repo.cache == if p.userName in old(repo.backing.baskets)
                                          then old(repo.cache) - {CacheKey(p.userName)} else old(repo.cache)
    {
      if canceled {
        step := Canceled;
      } else {
        var _ := repo.DeleteBasket(p.userName);
        step := Returned(Completed(p.items, now));
      }
      available := available + 1;
      inFlight := inFlight - multiset{p};
    }

    /**
     * One whole attempt with no other attempt interleaved: the cart is read at `readAt`, and
     * the success result is stamped at `completedAt`, after the delay. Whatever the exit, the
     * slot count and the admitted set are as before: a slot taken is released exactly once
     * and a refused attempt releases nothing. Only a successful attempt touches the store or
     * the cache, and then only the checking-out user's cart and cache entry.
     */
    method ProcessCheckout(userName: string, canceledAtEntry: bool, canceledInDelay: bool, readAt: int, completedAt: int)
      returns (outcome: Step)
      requires Valid()
      modifies this, repo, repo.backing
      ensures Valid()
      ensures available == old(available) && inFlight == old(inFlight)
      ensures !outcome.Admitted?
      ensures var read := TryGetValue(old(repo.cache), CacheKey(userName), readAt);
              if canceledAtEntry then outcome == Canceled
              else if old(available) == 0 then outcome == Returned(TooManyRequests())
              else if read.None? || |read.value.items| == 0 then outcome == Returned(EmptyCart())
              else if canceledInDelay then outcome == Canceled
              else outcome == Returned(Completed(read.value.items, completedAt))
      ensures outcome.Returned? && outcome.result.success ==>
                repo.backing.baskets == Drop(old(repo.backing.baskets), userName)
                && repo.cache == old(repo.cache) - {CacheKey(userName)}
      ensures !outcome.Returned? || !outcome.result.success ==>
                repo.backing.baskets == old(repo.backing.baskets) && repo.cache == old(repo.cache)
    {
      var step := BeginCheckout(userName, canceled := canceledAtEntry, now := readAt);
      if !step.Admitted? {
        return step;
      }
      outcome := FinishCheckout(step.pending, canceledInDelay, completedAt);
    }
  }
}
