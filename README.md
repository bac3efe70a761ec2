# Checkout system and monthly report — a Dafny model

This project models two programs.

**CheckoutSystem.** It has three collaborating pieces:

- a per-user cart store (`BasketRepository`), which is an in-memory dictionary from user name to cart;
- a cache-aside decorator (`CachedBasketRepository`) over that store, which keeps a keyed cache of carts with a 30-minute lifetime;
- a checkout coordinator (`CheckoutService`), which admits at most three checkouts at once, fails fast when none is free, validates the cart, deletes it and releases its slot on every exit.

The classes keep the source's mutable state as fields. `BasketRepository.baskets` and `CachedBasketRepository.cache` are maps the methods reassign. `CheckoutService.available` is the semaphore's free count. A ghost multiset `inFlight` holds the admitted checkouts. Each class has an invariant:

- every cart is filed under its own user name;
- every cache entry mirrors the cart the store holds for that user;
- free slots plus admitted checkouts always make three.

Every method keeps its class invariant and states its whole new state. The pure functions beside the classes (`Put`, `Drop`, `SetEntry`, `CacheIfFound`, `ReadThrough`, `Begin`, `Finish`) give the transitions, and the lemmas are stated over them.

The wiring in `CheckoutSystem/Program.cs` is carried over: the decorator wraps the singleton store, and the coordinator uses the decorator. The store's lookup never returns the cart it finds (see Findings). So in this wiring a cart is visible to readers and to checkout only while its cache entry is live. The model keeps that behaviour, and `CachedBaskets.StoreThenRead` and `CachedBaskets.ComposedReadAfterStore` state it.

**MonthlyReportFeature.** The report is a single query. It inner-joins orders to products and then to customers. It keeps a triple when the product's flags contain the category. It groups by (customer name, year, month) in order of first appearance. For each group it sums the quantities and counts distinct product ids. Finally it sorts stably by name, then year, then month. The model spells each stage out as a function on sequences. `MonthlyReportProperties` proves:

- which triples take part;
- that grouping partitions them;
- what each row aggregates;
- that the row totals add up;
- that the rows come out strictly ordered.

Time is an integer number of seconds supplied by the caller. Cancellation is a boolean input of each checkout step.

## Model

| member | source | states |
|---|---|---|
| `Baskets.Put` | CheckoutSystem/Repositories/BasketRepository.cs:35 | the upsert files the cart under its user name; every other entry is unchanged |
| `Baskets.Drop` | CheckoutSystem/Repositories/BasketRepository.cs:44 | after removal the user is absent; every other entry is unchanged |
| `Baskets.LookupBasket` | CheckoutSystem/Repositories/BasketRepository.cs:23-25 | the evidently intended lookup: a cart exactly when the user has one, and it is that cart |
| `Baskets.BasketRepository.constructor` | CheckoutSystem/Repositories/BasketRepository.cs:11 | a new store is empty |
| `Baskets.BasketRepository.GetBasket` | CheckoutSystem/Repositories/BasketRepository.cs:19-29 | as written: the answer is null for every user, even one just stored; the dictionary is not modified |
| `Baskets.BasketRepository.StoreBasket` | CheckoutSystem/Repositories/BasketRepository.cs:31-38 | the dictionary becomes `Put(old, basket)`, last write wins, and the given cart is returned |
| `Baskets.BasketRepository.DeleteBasket` | CheckoutSystem/Repositories/BasketRepository.cs:40-47 | returns true iff the user had a cart; afterwards it is absent and nothing else changed |
| `Baskets.LastWriteWins` | CheckoutSystem/Repositories/BasketRepository.cs:35 | two stores for one user leave only the second cart, no merge |
| `Baskets.DeleteIdempotent` | CheckoutSystem/Repositories/BasketRepository.cs:44 | a second delete finds nothing and changes nothing |
| `Baskets.MutationsKeepFiling` | CheckoutSystem/Repositories/BasketRepository.cs:35-44 | upsert and delete keep every cart filed under its own user name |
| `Baskets.StoredCartIsNotReturned` | CheckoutSystem/Repositories/BasketRepository.cs:23-28 | right after a store the dictionary holds the cart, yet `GetBasket` answers null while the intended lookup returns the cart |
| `CachedBaskets.CacheKey` | CheckoutSystem/Repositories/CachedBasketRepository.cs:29 | the key is the prefix `basket_` followed by the user name |
| `CachedBaskets.CacheKeyInjective` | CheckoutSystem/Repositories/CachedBasketRepository.cs:29 | distinct user names get distinct cache keys (both directions) |
| `CachedBaskets.IsLive` | CheckoutSystem/Repositories/CachedBasketRepository.cs:42 | a cached entry counts up to its absolute expiry instant and not from that instant on |
| `CachedBaskets.TryGetValue` | CheckoutSystem/Repositories/CachedBasketRepository.cs:31-35 | a hit exactly when the entry exists and has not expired, and then it is the cached cart |
| `CachedBaskets.SetEntry` | CheckoutSystem/Repositories/CachedBasketRepository.cs:54 | the entry becomes the cart with expiry now + 30 minutes; lookups hit for the next 30 minutes; other keys are untouched |
| `CachedBaskets.CacheIfFound` | CheckoutSystem/Repositories/CachedBasketRepository.cs:40-43 | a found cart is cached with a fresh expiry; a null answer leaves the cache unchanged; other keys are untouched |
| `CachedBaskets.ReadThrough` | CheckoutSystem/Repositories/CachedBasketRepository.cs:27-46 | a live entry answers and the backing answer is ignored; on a miss the backing answer is returned unchanged and cached only if non-null |
| `CachedBaskets.CorrectedReadIsCoherent` | CheckoutSystem/Repositories/CachedBasketRepository.cs:27-46 | over the corrected lookup, every read returns exactly what the store holds and the cache keeps mirroring the store |
| `CachedBaskets.ComposedReadAfterStore` | CheckoutSystem/Repositories/CachedBasketRepository.cs:31-45 | over the as-written store, a cart written through is read back exactly while its entry is live, and not after an eviction |
| `CachedBaskets.CachedBasketRepository.constructor` | CheckoutSystem/Repositories/CachedBasketRepository.cs:17-25 | wraps the given store with an empty cache |
| `CachedBaskets.CachedBasketRepository.GetBasket` | CheckoutSystem/Repositories/CachedBasketRepository.cs:27-46 | the result is `ReadThrough` with the store's null answer; a returned cart is always the one the store holds; the store is not modified |
| `CachedBaskets.CachedBasketRepository.StoreBasket` | CheckoutSystem/Repositories/CachedBasketRepository.cs:48-58 | the store is written first; the user's entry becomes the store's returned cart with a fresh expiry, whatever was cached; the store's result is returned; the mirror invariant holds |
| `CachedBaskets.CachedBasketRepository.DeleteBasket` | CheckoutSystem/Repositories/CachedBasketRepository.cs:60-73 | returns the store's answer; the user's entry is evicted iff that answer is true, and otherwise stays |
| `CachedBaskets.CachedBasketRepository.Evict` | CheckoutSystem/Repositories/CachedBasketRepository.cs:13 | the cache may drop any entry at any time without breaking the mirror invariant |
| `CachedBaskets.StoreThenRead` | CheckoutSystem/Program.cs:18-26 | with the application's wiring, a stored cart is read back until it expires or is evicted, and null afterwards, while the store still holds it |
| `Checkout.InitialSlots` | CheckoutSystem/Services/CheckoutService.cs:16 | three free slots and no admitted checkout |
| `Checkout.TooManyRequests` | CheckoutSystem/Services/CheckoutService.cs:32-36 | the capacity rejection: not a success, the "Too Many Checkout Requests" message, no items and no checkout time |
| `Checkout.EmptyCart` | CheckoutSystem/Services/CheckoutService.cs:47-51 | the validation failure: not a success, the "Cart is empty or does not exist." message, no items and no checkout time |
| `Checkout.Completed` | CheckoutSystem/Services/CheckoutService.cs:65-71 | the completion: a success with the completion message, the validated items and the given checkout time |
| `Checkout.Begin` | CheckoutSystem/Services/CheckoutService.cs:24-52 | classifies the entry: an already cancelled token, no free slot, an empty or missing cart, or admission. Only admission keeps a slot, and then the items read are recorded. The slot invariant holds |
| `Checkout.Finish` | CheckoutSystem/Services/CheckoutService.cs:54-77 | the slot is given back exactly once; cancellation throws; otherwise the result is success with the items read at validation and the time |
| `Checkout.OutcomesAreDistinct` | CheckoutSystem/Services/CheckoutService.cs:32-71 | a corollary of the result builders' contracts: the capacity rejection differs from the empty-cart failure, and only completion reports success |
| `Checkout.FourthConcurrentCheckoutIsRejected` | CheckoutSystem/Services/CheckoutService.cs:16-37 | with four non-empty carts and no finish in between, three attempts are admitted and the fourth is refused for capacity |
| `Checkout.RetryAfterReleaseIsAdmitted` | CheckoutSystem/Services/CheckoutService.cs:27-75 | once any admitted checkout finishes, a retry with a non-empty cart is admitted |
| `Checkout.CapacityBound` | CheckoutSystem/Services/CheckoutService.cs:16 | a corollary of the slot invariant `SlotsValid`, which `Begin` and `Finish` preserve: at most three checkouts hold a slot at any time |
| `Checkout.CheckoutService.constructor` | CheckoutSystem/Services/CheckoutService.cs:16-22 | a new service has all three slots free |
| `Checkout.CheckoutService.BeginCheckout` | CheckoutSystem/Services/CheckoutService.cs:24-52 | the new slots and the step follow `Begin` on the cart read through the cache; the store and cache are unchanged |
| `Checkout.CheckoutService.FinishCheckout` | CheckoutSystem/Services/CheckoutService.cs:54-77 | the new slots and the step follow `Finish`; unless cancelled the cart is deleted once (its boolean ignored); when cancelled nothing is deleted |
| `Checkout.CheckoutService.ProcessCheckout` | CheckoutSystem/Services/CheckoutService.cs:24-78 | one whole attempt: the outcome follows the source's branch order, with the cart read at entry and the success stamped after the delay, and slots are as before on every exit. Success leaves the store as `Drop(old, userName)` and the cache without exactly that user's entry; every other exit leaves store and cache unchanged |
| `Ordinal.StrLessIrreflexive` | MonthlyReportFeature/Program.cs:41 | no name sorts before itself |
| `Ordinal.StrLessTransitive` | MonthlyReportFeature/Program.cs:41 | the name order is transitive |
| `Ordinal.StrLessTotal` | MonthlyReportFeature/Program.cs:41 | any two distinct names are ordered |
| `Ordinal.StrLessAsymmetric` | MonthlyReportFeature/Program.cs:41 | the name order is asymmetric |
| `MonthlyReport.ProductMatches` | MonthlyReportFeature/Program.cs:10-15 | the pairs built for one order are exactly its products with a matching id, each as many times as that product occurs |
| `MonthlyReport.JoinProducts` | MonthlyReportFeature/Program.cs:9-15 | a pair is present iff its order and product are inputs and `ProductId == Id`; it occurs (occurrences of the order) × (occurrences of the product) times |
| `MonthlyReport.CustomerMatches` | MonthlyReportFeature/Program.cs:16-21 | the triples built for one pair are exactly the customers with a matching id, each as many times as that customer occurs |
| `MonthlyReport.JoinCustomers` | MonthlyReportFeature/Program.cs:16-21 | a triple is present iff its pair was joined, its customer is an input and `CustomerId == Id`; it occurs (occurrences of the pair) × (occurrences of the customer) times |
| `MonthlyReport.WithCategory` | MonthlyReportFeature/Program.cs:23 | a triple is kept iff `(Category & category) == category`, and then every occurrence of it is kept |
| `MonthlyReport.HasCategory` | MonthlyReportFeature/Program.cs:23 | the flags test holds iff every bit of the category is already set in the flags; `None` passes every product, and a real category never passes a product with no flags |
| `MonthlyReport.FilteredLines` | MonthlyReportFeature/Program.cs:9-23 | every triple that takes part has its three parts among the inputs, matching ids on both joins and all the category bits |
| `MonthlyReport.LinesWithKey` | MonthlyReportFeature/Program.cs:24-31 | a group's triples are exactly the triples with that (name, year, month) |
| `MonthlyReport.Distinct` | MonthlyReportFeature/Program.cs:39 | the same ids without repeats; at least one for a non-empty input, never more than the input |
| `MonthlyReport.Summaries` | MonthlyReportFeature/Program.cs:32-40 | one summary per group, in group order |
| `MonthlyReport.Summarize` | MonthlyReportFeature/Program.cs:32-40 | a group's row has the group's key, the filter category, the group's quantity sum and between 1 (for a non-empty group) and the group size distinct products |
| `MonthlyReport.Insert` | MonthlyReportFeature/Program.cs:41-43 | inserting adds exactly one row and loses none |
| `MonthlyReport.SortSummaries` | MonthlyReportFeature/Program.cs:41-43 | the sort is a permutation of its input |
| `MonthlyReport.KeyLess` | MonthlyReportFeature/Program.cs:41-43 | the name decides whenever the names differ, in either direction, and no key is below itself |
| `MonthlyReport.Summarized` | MonthlyReportFeature/Program.cs:24-43 | every row of the grouped, summarised and sorted triples carries the filter category |
| `MonthlyReport.Report` | MonthlyReportFeature/Program.cs:9-44 | every report row carries the requested category |
| `MonthlyReportProperties.FilteredLinesExactly` | MonthlyReportFeature/Program.cs:9-23 | a triple takes part iff its three parts are inputs, both ids match and the category bits are all set; it occurs as often as the product of its order, product and customer occurrences, so repeated records count in every total |
| `MonthlyReportProperties.MultiFlagProductsPass` | MonthlyReportFeature/Program.cs:72-75 | a product flagged HomeAppliances and Electronics passes both filters; HomeAppliances alone fails Electronics; `None` passes everything |
| `MonthlyReportProperties.LinesWithKeyAbsent` | MonthlyReportFeature/Program.cs:24-31 | a key no triple has selects no triple |
| `MonthlyReportProperties.AddToGroupsSpec` | MonthlyReportFeature/Program.cs:24-31 | `AddToGroups`, one element of the `GroupBy` pass: the triple is appended to the group with its key, or opens a new group at the end; no other group changes |
| `MonthlyReportProperties.AddToGroupsKeys` | MonthlyReportFeature/Program.cs:24-31 | one grouping step adds the triple's key at the end iff it is new |
| `MonthlyReportProperties.GroupStepKeys` | MonthlyReportFeature/Program.cs:24-31 | a grouping step keeps group keys unique and equal to the keys seen so far |
| `MonthlyReportProperties.GroupStepLines` | MonthlyReportFeature/Program.cs:24-31 | a grouping step keeps each group equal to the triples seen so far with its key |
| `MonthlyReportProperties.GroupByExact` | MonthlyReportFeature/Program.cs:24-31 | `GroupBy`: groups have unique keys covering exactly the triples' keys; each is non-empty and holds exactly the triples with its key, in order |
| `MonthlyReportProperties.SumQuantityConcat` | MonthlyReportFeature/Program.cs:38 | `SumQuantity`: the total of a concatenation is the sum of the totals, so it does not matter from which end the quantities are added |
| `MonthlyReportProperties.AddToGroupsSum` | MonthlyReportFeature/Program.cs:24-38 | a grouping step adds the triple's quantity to the grand total |
| `MonthlyReportProperties.GroupBySum` | MonthlyReportFeature/Program.cs:24-38 | the group sums add up to the sum over all triples |
| `MonthlyReportProperties.SummariesSum` | MonthlyReportFeature/Program.cs:32-38 | the rows' totals add up to the group sums |
| `MonthlyReportProperties.InsertSum` | MonthlyReportFeature/Program.cs:41-43 | inserting a row adds its total |
| `MonthlyReportProperties.SortSum` | MonthlyReportFeature/Program.cs:41-43 | sorting preserves the sum of totals |
| `MonthlyReportProperties.KeyLessIrreflexive` | MonthlyReportFeature/Program.cs:41-43 | no key sorts before itself |
| `MonthlyReportProperties.KeyLessTransitive` | MonthlyReportFeature/Program.cs:41-43 | the (name, year, month) order is transitive |
| `MonthlyReportProperties.KeyLessTotal` | MonthlyReportFeature/Program.cs:41-43 | any two distinct keys are ordered |
| `MonthlyReportProperties.InsertKeepsStrict` | MonthlyReportFeature/Program.cs:41-43 | inserting a row with a new key into a strictly ascending sequence keeps it strictly ascending |
| `MonthlyReportProperties.SortStrict` | MonthlyReportFeature/Program.cs:41-43 | rows with distinct keys come out strictly ascending by name, year, month |
| `MonthlyReportProperties.UniqueRowKeys` | MonthlyReportFeature/Program.cs:32-37 | rows made from groups with distinct keys have distinct keys |
| `MonthlyReportProperties.SummarizedSorted` | MonthlyReportFeature/Program.cs:24-43 | the grouped, summarised, sorted rows are strictly ascending |
| `MonthlyReportProperties.SummarizedKeysFromLines` | MonthlyReportFeature/Program.cs:24-43 | every row's key is the key of some filtered triple |
| `MonthlyReportProperties.SummarizedKeysCovered` | MonthlyReportFeature/Program.cs:24-43 | every key of a filtered triple has a row |
| `MonthlyReportProperties.SummarizedOneRowPerKey` | MonthlyReportFeature/Program.cs:24-43 | exactly one row per distinct key, strictly ordered |
| `MonthlyReportProperties.RowAggregates` | MonthlyReportFeature/Program.cs:32-40 | any one row carries the filter category, the total of its group's quantities, and its group's distinct product ids, between 1 and the group size |
| `MonthlyReportProperties.SummarizedRowAggregates` | MonthlyReportFeature/Program.cs:32-40 | each row: filter category, total of its group's quantities, distinct product ids between 1 and the group size |
| `MonthlyReportProperties.ReportOneRowPerKey` | MonthlyReportFeature/Program.cs:9-44 | the report has exactly one row per distinct (customer name, year, month) among filtered triples, strictly ascending |
| `MonthlyReportProperties.ReportRowAggregates` | MonthlyReportFeature/Program.cs:9-44 | each report row carries the category, its group's total quantity and its number of distinct products (1 to group size) |
| `MonthlyReportProperties.ReportTotalQuantity` | MonthlyReportFeature/Program.cs:9-44 | the report's totals add up to the quantity of all filtered triples |
| `MonthlyReportProperties.SameNameSameGroup` | MonthlyReportFeature/Program.cs:24-31 | a corollary of `KeyOf` and `LinesWithKey`: customers sharing a name fall in one group for the same month, whatever their ids |

## Findings

| source | as written | input that shows it | evidently intended | confidence | as-written member | corrected member |
|---|---|---|---|---|---|---|
| CheckoutSystem/Repositories/BasketRepository.cs:23-28 | the cart found at line 23 is wrapped in a result at line 25 that is discarded; control reaches `return null` | `StoreBasket(b)` then `GetBasket(b.UserName)` returns null although the dictionary holds `b` | return the cart found | high; not executed | `Baskets.StoredCartIsNotReturned` | `Baskets.LookupBasket` |

The corrected lookup is what `CachedBaskets.CorrectedReadIsCoherent` proves the decorator coherent over. The decorator's read logic (`ReadThrough`, `CacheIfFound`) takes the backing answer as a parameter, so it works with either lookup. The classes keep the as-written lookup, because that is what the wired application does. With the as-written lookup:

- a cart read through the decorator comes only from a live cache entry;
- a checkout whose cart entry has expired or been evicted fails with "Cart is empty or does not exist.".

## Left out

- `CheckoutSystem/Controllers/CartController.cs` (HTTP routing, request validation, status codes) is not part of this model. Its 429 branch looks for "Too many concurrent checkouts". The service's message is "Too Many Checkout Requests. Please try again later.", so capacity rejections become 400 there. The model keeps the service's message unchanged.
- `CheckoutSystem/Program.cs` (dependency injection, web host start-up) is not part of this model. Only the wiring is carried over: the decorator wraps the singleton store, and the coordinator uses the decorator.
- Concurrency is not modelled: dictionary atomicity, semaphore internals, thread interleavings and `Task`/`async`. Try-acquire and release are atomic updates of `available`. An in-flight checkout is a Begin step and a later Finish step, and other steps may run between them.
- The 3000 ms delay is not modelled, and neither is the cancellation-token plumbing. Cancellation is a boolean input: at entry, `Wait(0, token)` throws before acquiring; during the delay, the delete is skipped. The in-memory store and cache ignore the token, so no other step can be cancelled.
- The eviction and size policy of `IMemoryCache` are not modelled. Any entry can be dropped at any time through `Evict`. Expired entries stay in the map and are never returned. An entry is live while `now < expiresAt`, and the clock counts seconds.
- Clock values are opaque integers supplied by the caller. This covers `DateTime.UtcNow` for `CheckoutTime` and the clock for cache expiry. Of an order's date only the year and month are kept. The sample data set and its `DateTime.Now` arithmetic are not modelled; only the flags of the multi-category product appear, in `MultiFlagProductsPass`.
- Logging and the console output loop of the report are not modelled.
- Object aliasing is not modelled. Carts and item lists are values, so the result's `Items` does not share a list with the stored cart, and later mutation of a cart object by a caller is not represented.
- MonthlyReport.KeyLess: names are compared in ordinal (character-code) order, not the culture-sensitive default comparer of `OrderBy`.
- MonthlyReport.SumQuantity: quantities are unbounded integers. The source sums 32-bit `int`s with a checked `Sum`, which throws on overflow; that exception is not modelled.
- MonthlyReport.ProductCategory: the flags are 6 bits, the defined categories. The source enum's underlying `int` could carry further bits.
- MonthlyReport.SortSummaries: its contract states only that the result is a permutation. Strict order is proved by `MonthlyReportProperties.SortStrict` for inputs with distinct keys, which are the only inputs the report gives it. Stability for equal keys holds by construction but is not stated.
