# Category cache and parent walk of products-go, in Dafny

This project models the core of the category data-access layer of `products-go`:

- **The in-memory cache driver** (`inMemory` in `pkg/categories/repositories/cache.go`). It has two maps, `elements` (key → value) and `timeStamps` (key → expiry instant). `Put`, `Get` and `Has` work on `elements` only. `Remember` answers from a stored value unless that key has an expiry before the current instant. Otherwise it calls the callback and, on success only, records `now + seconds` as the expiry and stores the result. A value stored by `Put` alone has no expiry, so `Remember` serves it at every instant.
- **The caching decorator** `CacheCategoryRepository`. `MainCategories`, `SubCategories`, `Find` and `All` go through `Remember` under the keys `"MainCategories %d-%d"`, `"SubCategories %s"`, `"Find %s"` and `"All"`. `FindMany`, `Store`, `Remove`, `Update` and `Total` call the wrapped repository directly and leave the cache alone, so a cached `Find` keeps being served after an `Update` until it expires.
- **The category entity** (`pkg/categories/category.go`). `NewCategory` derives `IsMainCategory` from the parent id. `AddMultimediaItem` appends to the multimedia list. `RemoveMultimediaItem` reports whether an item with the given id is present.
- **`FindMainCategory`** of the store-backed repository (`pkg/categories/repositories/dynamodb.go`). It follows parent ids until it reaches a category without a parent. A field counter caps the walk at 10 hops, and a deferred reset sets the counter back to 0.

Modules: `Results` (Go's `(value, error)` returns as `Result`, `Outcome` and `Error`), `Format` (`%d` formatting and its inverse), `Categories`, `Cache` and `DynamoDB`. `CacheScenarios` replays the cases of `cache_test.go` and the staleness window through the contracts alone.

Modelling choices:
- **Time** is an explicit `now: int` in nanoseconds. A TTL is in seconds, and the recorded expiry is `now + seconds * 1_000_000_000`. An entry is stale when its expiry is strictly before `now`.
- **The callback** is a function value `() -> Result<V>`. `Remember` also returns a ghost flag that is set at the point where the callback is invoked.
- **The wrapped repository** is given by its answers. Each decorator call receives, as a parameter, the answer the wrapped repository would give now. The ghost sequence `calls` records, in order, each call that reaches the wrapped repository, as a `RepositoryCall` naming the operation and its arguments.
- **The cached value** is the datatype `CachedValue`: a list of categories, or the possibly nil result of `Find`.
- **`Find` of the store-backed repository** is the lookup function `find` in `FindMainCategory`. It answers with an error, no category, or a category.
- **`Category`** is a class. `multimedia` is a `var` because the core assigns it. The other fields are `const`, since nothing in the core writes them after construction.

Behaviour of the code worth knowing:
- **Values with no recorded expiry.** A value stored by `Put` alone has no recorded expiry, and `Remember` serves it at every instant (cache.go:57-70; cache_test.go:95-107).
- **`Get` on a missing key** returns a not-found error that carries the key (cache.go:46-54).
- **Cached values of the wrong shape.** A failed type assertion on a cached value panics in Go (cache.go:102, 115, 128, 156). The model returns `Err(TypeMismatch(key))` instead, so the failure is still visible to the caller.
- **A nil category from `Find`.** The store-backed `Find` (dynamodb.go:136-153) returns a non-nil category whenever it succeeds. So the "does not have a valid parent" branch of `FindMainCategory` (dynamodb.go:115-117) is unreachable with that `Find`. The model keeps the general lookup `find`, which may answer "no category", so that this branch is modelled and proved too.

## Model

| member | source | states |
|---|---|---|
| `Format.NatToDecimal` | pkg/categories/repositories/cache.go:93 | `%d` of a natural number is a non-empty string of decimal digits |
| `Format.IntToDecimal` | pkg/categories/repositories/cache.go:93 | `%d` of an integer is non-empty, starts with '-' exactly for negatives, and has no other '-' |
| `Format.DecimalRoundTrip` | pkg/categories/repositories/cache.go:93 | the integer printed with `%d` reads back unchanged |
| `Format.DecimalInjective` | pkg/categories/repositories/cache.go:93 | two integers print the same exactly when they are equal |
| `Cache.Key` | pkg/categories/repositories/cache.go:92-149 | the four signatures `"MainCategories %d-%d"`, `"SubCategories %s"`, `"Find %s"` and `"All"`: each operation's keys, and only those, start with its own prefix (or are exactly "All"); KeyRoundTrip and KeyInjective state that keys never collide |
| `Cache.MainCategoriesKeyRoundTrip` | pkg/categories/repositories/cache.go:93 | the `"MainCategories %d-%d"` key reads back as its (limit, offset) pair, negative values included |
| `Cache.KeyRoundTrip` | pkg/categories/repositories/cache.go:92-149 | each of the four key formats reads back as the call it was built from |
| `Cache.KeyInjective` | pkg/categories/repositories/cache.go:92-149 | two memoized calls share a cache entry exactly when they are the same operation with the same arguments: distinct pages, ids or operations never collide |
| `Cache.Expiry` | pkg/categories/repositories/cache.go:78 | the recorded instant `now + seconds`: after `now` for a positive TTL, at `now` for zero, before `now` for a negative one |
| `Cache.Serves` | pkg/categories/repositories/cache.go:57-70 | Remember answers from the store exactly when a value is present and no expiry before `now` is recorded: a served key is present, a present key with no expiry is always served, and a served key's expiry is not before `now` |
| `Cache.RememberedEntryLifetime` | pkg/categories/repositories/cache.go:58-83 | an entry recorded by Remember at `now` with `seconds` is served exactly at instants up to `now + seconds`; Remember's contract restates this on its own post-state |
| `Cache.NonPositiveTtlExpiresAtOnce` | pkg/categories/repositories/cache.go:63-79 | with a TTL of zero or less the entry is stale at every later instant |
| `Cache.OtherKeysUnaffected` | pkg/categories/repositories/cache.go:79-81 | storing under one key does not change whether any other key is served |
| `Cache.InMemory.constructor` | pkg/categories/repositories/cache.go:35-40 | a new driver has no values and no expiries |
| `Cache.InMemory.Put` | pkg/categories/repositories/cache.go:42-44 | `elements[key]` becomes the value, `timeStamps` and other keys are unchanged; Get then returns the value |
| `Cache.InMemory.Get` | pkg/categories/repositories/cache.go:46-54 | the stored value exactly when the key is in `elements`, else the not-found error for that key; expiries play no part |
| `Cache.InMemory.Has` | pkg/categories/repositories/cache.go:86-90 | true exactly when Get succeeds, whatever the expiry |
| `Cache.InMemory.Remember` | pkg/categories/repositories/cache.go:56-84 | the callback is invoked exactly when the entry is missing or its expiry is before `now`; if not invoked, the stored value is returned and nothing changes; if it fails, its error is returned and both maps are unchanged; if it succeeds, its result is returned and stored and the expiry becomes `now + seconds`, so afterwards the key is served exactly up to that instant (never after `now` when `seconds <= 0`); whether any other key is served is unchanged |
| `Cache.AsList` | pkg/categories/repositories/cache.go:102 | the list assertion succeeds exactly on a cached list and otherwise reports a type mismatch for the key |
| `Cache.AsCategory` | pkg/categories/repositories/cache.go:128 | the category assertion succeeds exactly on a cached Find result and otherwise reports a type mismatch for the key |
| `Cache.CacheCategoryRepository.constructor` | pkg/categories/repositories/cache.go:22-28 | the decorator keeps the given cache and TTL; no call has reached the wrapped repository yet |
| `Cache.CacheCategoryRepository.MainCategories` | pkg/categories/repositories/cache.go:92-103 | served from the `"MainCategories %d-%d"` entry with no repository call while fresh; otherwise exactly one call `MainCategories(limit, offset)` reaches the repository, and its answer is returned, stored with expiry `now + ttl` on success, nothing stored on failure |
| `Cache.CacheCategoryRepository.SubCategories` | pkg/categories/repositories/cache.go:105-116 | the same memoization under `"SubCategories %s"`; a miss makes the call `SubCategories(categoryId)` |
| `Cache.CacheCategoryRepository.Find` | pkg/categories/repositories/cache.go:118-129 | the same memoization under `"Find %s"`, a nil category included; a miss makes the call `Find(id)` |
| `Cache.CacheCategoryRepository.All` | pkg/categories/repositories/cache.go:147-157 | the same memoization under the single key `"All"`; a miss makes the call `All()` |
| `Cache.CacheCategoryRepository.FindMany` | pkg/categories/repositories/cache.go:131-133 | exactly the call `FindMany(ids)` reaches the repository, its answer is returned, cache unchanged |
| `Cache.CacheCategoryRepository.Store` | pkg/categories/repositories/cache.go:135-137 | exactly the call `Store(category)` reaches the repository, its error is returned, cache unchanged |
| `Cache.CacheCategoryRepository.Remove` | pkg/categories/repositories/cache.go:139-141 | exactly the call `Remove(id)` reaches the repository, its error is returned, cache unchanged |
| `Cache.CacheCategoryRepository.Update` | pkg/categories/repositories/cache.go:143-145 | exactly the call `Update(id, category)` reaches the repository, its error is returned, cache unchanged, so a cached Find is still served until it expires |
| `Cache.CacheCategoryRepository.Total` | pkg/categories/repositories/cache.go:159-161 | exactly the call `Total()` reaches the repository, its answer is returned, cache unchanged |
| `Categories.HasParent` | pkg/categories/category.go:32 | the category has no parent exactly when the parent id is nil or empty, the test shared with dynamodb.go:119 |
| `Categories.MainCategoryFlag` | pkg/categories/category.go:30-34 | the flag is "y" or "n", and "y" exactly when the parent id is nil or empty |
| `Categories.NewCategory` | pkg/categories/category.go:28-50 | a fresh category with IsMainCategory derived from the parent id, the given id and creation instant, every other argument copied unchanged, and a nil error |
| `Categories.Category.constructor` | pkg/categories/category.go:36-47 | every field of the struct literal holds the given value |
| `Categories.Category.AddMultimediaItem` | pkg/categories/category.go:52-54 | the list is one longer, the item is last, and the earlier items are kept in order |
| `Categories.Category.RemoveMultimediaItem` | pkg/categories/category.go:56-69 | true exactly when some item has the given id; the category is not modified (the method has no `modifies` clause) |
| `Categories.RemovalLeavesItemInPlace` | pkg/categories/category.go:57-68 | a category whose only item has id "a" still holds that item after a removal of "a" that reports success |
| `Categories.Category.RemoveMultimediaItemStored` | pkg/categories/category.go:56-68 | with the filtered list stored back: true exactly when the id was present, the list becomes the original without that id, and no item with it remains |
| `Categories.WithoutItem` | pkg/categories/category.go:60-66 | the list the loop builds from the items with another id: no longer than the original, and no item in it has the removed id |
| `Categories.WithoutItemMembers` | pkg/categories/category.go:60-66 | an item survives the filter exactly when it was in the list with another id |
| `Categories.WithoutItemRemovesAll` | pkg/categories/category.go:60-66 | the filtered list has no item with the id, is no longer than the original, and equals it when the id was absent |
| `DynamoDB.MainCategoryWalk` | pkg/categories/repositories/dynamodb.go:106-130 | a successful walk always ends at a category without a parent |
| `DynamoDB.WalkSkipsHops` | pkg/categories/repositories/dynamodb.go:123-129 | following parents only advances the counter while it stays within 10 |
| `DynamoDB.WalkReachesRoot` | pkg/categories/repositories/dynamodb.go:119-129 | from a zero counter, a parentless category reached within 10 hops is the answer |
| `DynamoDB.WalkPropagatesLookupError` | pkg/categories/repositories/dynamodb.go:107-113 | a failed Find within 10 hops is returned unchanged |
| `DynamoDB.WalkReportsMissingCategory` | pkg/categories/repositories/dynamodb.go:115-117 | a nil category within 10 hops gives the "does not have a valid parent" error |
| `DynamoDB.WalkGivesUp` | pkg/categories/repositories/dynamodb.go:123-127 | when the first eleven categories all have parents, the walk fails with the counter at 11 |
| `DynamoDB.SelfParentGivesUp` | pkg/categories/repositories/dynamodb.go:123-127 | a category that is its own parent cannot loop forever: the walk fails with the counter at 11 |
| `DynamoDB.MainFlagAgreesWithWalk` | pkg/categories/category.go:30-34 | for a category built by NewCategory, IsMainCategory is "y" exactly when the walk from its id returns the category itself |
| `DynamoDB.DynamoDBCategoryRepository.constructor` | pkg/categories/repositories/dynamodb.go:17-24 | the table name is "categories" and the counter starts at 0 |
| `DynamoDB.DynamoDBCategoryRepository.ResetRetries` | pkg/categories/repositories/dynamodb.go:132-134 | the counter is 0 |
| `DynamoDB.DynamoDBCategoryRepository.FindMainCategory` | pkg/categories/repositories/dynamodb.go:106-130 | the answer is the walk from the id at the current counter, and the counter is 0 afterwards, on success and on failure |

## Left out

- I/O. All key-value store requests and attribute marshaling (`Query`, `Scan`, `GetItem`, `BatchGetItem`, `PutItem`, `DeleteItem`) are out. The wrapped repository appears only through the answers passed to the decorator, and the store-backed `Find` only as the lookup `find`.
- The other read and write operations of `DynamoDBCategoryRepository` (`MainCategories`, `SubCategories`, `All`, `Total`, `Find`, `FindMany`, `Store`, `Remove`, `Update`). Each is a single store request; these are I/O.
- The product package, the service wrappers and the test files. The test files appear only as the client methods in `CacheScenarios`.
- Wall-clock time, uuid generation and RFC 3339 formatting. They are parameters: `now`, the category `id` and `createdAt`.
- Cache.InMemory.Remember: the source reads the clock a second time, after the callback, to compute the expiry. The model uses the single instant `now` for both readings, as if the callback took no time.
- Cache.Expiry: Go's `time.Duration` is 64-bit, so `seconds * time.Second` overflows beyond about 292 years. Time arithmetic here is unbounded.
- Slices as values. `Multimedia` and the cached category lists are sequences. Go slices that share a backing array are not modelled: two categories built by `NewCategory` from one slice can overwrite each other's appended item when the slice has spare capacity. In-place writes by a caller to a list returned from the cache (the stored slice itself) are not modelled either.
- Concurrency on the two maps. The source has no locking, and the model is sequential.
- Other implementations of the `cache` interface. The decorator holds the in-memory driver directly.
- Nil pointers. Category fields that are nil pointers are `None`. Dereferencing a nil id or a nil multimedia item panics in Go; the model assumes ids are present.
- The fields of `persistence.MultimediaItem` and `banners.Banner` other than the item id. Both types come from an external package and appear as opaque content.
- `FindMany` in cache.go names its result type as unqualified `[]*Category`. The model takes it to be the category list the interface declares.

## Findings

| source | as written | input that shows it | evidently intended | confidence | as-written member | corrected member |
|---|---|---|---|---|---|---|
| pkg/categories/category.go:57-68 | the filtered list is built in the local `newList` and never stored, so the category keeps the item; `newList` would also start with `len(Multimedia)` nil entries | a category whose only item has id "a": `RemoveMultimediaItem("a")` returns true and `Multimedia` still holds the item | store the filtered list (started empty) back into `Multimedia` | high; not executed | `Categories.RemovalLeavesItemInPlace` | `Categories.Category.RemoveMultimediaItemStored` |
