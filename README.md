# Verified model of the `ProductService` cache contract

`ProductService` (in `belajar.springredis`) is a Spring bean whose three
methods share one cache named `"products"`, declared by annotations:

- `getProduct(id)` is `@Cacheable` with key `#id`. It is a read-through: on a
  miss the body runs, builds `Product(id, "example", 1000)` and the result is
  stored under `id`. On a hit the stored product is returned and the body
  (with its log line) does not run.
- `save(product)` is `@CachePut` with key `#product.id`. It is a
  write-through: the body returns its argument, which then replaces any entry
  for `product.id`.
- `remove(id)` is `@CacheEvict` with key `#id`. It drops the entry for `id`.
  Evicting an absent key does nothing.

What is modelled is the contract these annotations declare. Spring's cache
interceptor, which carries that contract out, is not modelled. Per key, the
contract is a state machine: Absent, then Present after a load or a put,
overwritten by a later put, and Absent again after an evict.

The project has four modules:

- `Wrappers` (`wrappers.dfy`): `Option`.
- `Products` (`products.dfy`): the `Product` entity and the loader
  `LoadProduct`, the body of `getProduct`. `Long` is Java's 64-bit `long`.
- `ProductCache` (`product_cache.dfy`): the contract on values.
  - `Apply` is one intercepted call.
  - `Run` replays a history of calls.
  - `KeyState` is an independent reference definition of the per-key state
    machine. It follows one key at a time and never builds a cache.
  - The lemmas relate `Run` to `KeyState` and state the hit, miss, put and
    evict properties.
- `Service` (`product_service.dfy`): the class `ProductService`.
  - Its `cache` field is a `map<string, Product>` that its methods update in
    place.
  - A ghost `loaderCalls` counts how often the body of `getProduct` ran.
  - A ghost `history` of calls, replayed from the cache the service started
    with, ties the object to `Run`.
  - Three client methods replay the repository's `cacheable`, `cachePut` and
    `cacheEvict` tests, each on a fresh service.

The repository declares a `Product` class, but that file is not part of
this model. Lombok generates the class's builder, getters and `equals`. The
datatype's fields (`id`, `name`, `price`, and an optional `ttl`) come from the
builder calls in `src/test/java/belajar/springredis/RedisTest.java`.
Equality `==` on the datatype stands for `Product.equals`.

Some invariants follow from the key expressions. `#id` and `#product.id`
always name the product's own id, and the loader sets `id` to its argument.
So every cached product is stored under its own id (`KeysMatchIds`). As a
result, `getProduct(id)` returns a product whose id is `id` on a hit as well as
on a miss.

In the `cacheable` test, line 351 asserts `product == product2` a second
time, where a check on `product3` was evidently meant.
`Service.CacheableScenario` states instead that the product for `"002"` has
id `"002"` and differs from the one for `"001"`.

## Model

| member | source | states |
|---|---|---|
| `Products.LoadProduct` | src/main/java/belajar/springredis/ProductService.java:16 | the loaded product carries the requested id, so it is stored under its own id; it is a function of the id alone |
| `ProductCache.Apply` | src/main/java/belajar/springredis/ProductService.java:13-28 | one call touches only its own key (`#id` / `#product.id`); the loader runs exactly on a get that misses; a hit returns the stored product and leaves the cache unchanged; a miss returns the loader's product; a put returns its argument; an evict leaves no entry for its key; after a get or a put the cache holds under the key exactly what the call returned; entries stay stored under their own ids |
| `ProductCache.Run` | src/main/java/belajar/springredis/ProductService.java:13-28 | a history of calls yields one result per call, at most one loader run per call, and keeps every entry stored under its own id |
| `ProductCache.RunFollowsKeyState` | src/main/java/belajar/springredis/ProductService.java:13-28 | after any history, the entry for each key is what the per-key state machine gives: the last put's product, nothing after the last evict, or the old entry or the loader's product after a get (most recent write wins) |
| `ProductCache.EntryDependsOnlyOnOwnKey` | src/main/java/belajar/springredis/ProductService.java:13-25 | the entry for a key after a history equals its entry after only that key's calls: calls on other keys never affect it |
| `ProductCache.PresentKeyIsNeverReloaded` | src/main/java/belajar/springredis/ProductService.java:13-17 | once a key is present and no evict of it follows, it stays present and the loader never runs for it again |
| `ProductCache.WithoutEvictionEachKeyLoadsOnce` | src/main/java/belajar/springredis/ProductService.java:13-23 | in a history without evictions no entry is lost, the loader runs at most once per key and only for keys absent at the start, and every loaded key is still cached at the end |
| `ProductCache.GetReturnsItsKey` | src/main/java/belajar/springredis/ProductService.java:13-22 | starting from a cache whose entries are under their own ids, every get in a history returns a product whose id is the requested id |
| `ProductCache.KeyStateKeepsSave` | src/main/java/belajar/springredis/ProductService.java:13-23 | in the per-key state machine, a put's product stays the entry for its key while the later calls on that key are only gets |
| `ProductCache.GetSeesSaveUntilEvicted` | src/main/java/belajar/springredis/ProductService.java:13-23 | after `save(p)` and any calls that neither evict nor overwrite `p.id`, a get of `p.id` returns `p`, runs no loader and adds no key |
| `ProductCache.HitAfterLoad` | src/main/java/belajar/springredis/ProductService.java:13-17 | a get right after a get of the same id is a hit: no loader run, same product, cache unchanged |
| `ProductCache.GetAfterSave` | src/main/java/belajar/springredis/ProductService.java:13-22 | a get right after `save(p)` returns `p` without running the loader, because both use the "products" cache and the keys `#id` and `#product.id` agree |
| `ProductCache.LoadAfterRemove` | src/main/java/belajar/springredis/ProductService.java:13-28 | a get right after `remove(id)` is a miss that runs the loader and returns the loader's product |
| `ProductCache.ReloadAfterRemoveIsEqual` | src/main/java/belajar/springredis/ProductService.java:13-28 | get, remove, get of one id yields equal products when the first get was a miss |
| `Service.ProductService.constructor` | src/main/java/belajar/springredis/ProductService.java:11 | a new service holds the given starting cache, an empty history and no loader runs |
| `Service.ProductService.GetProduct` | src/main/java/belajar/springredis/ProductService.java:13-17 | on a hit returns the stored product, cache and loader count unchanged; on a miss returns `LoadProduct(id)`, stores it under `id` and counts one loader run; always returns a product with the requested id; agrees with `Apply` |
| `Service.ProductService.Save` | src/main/java/belajar/springredis/ProductService.java:19-23 | returns its argument and leaves the cache with that product under its id, overwriting any earlier entry; other entries and the loader count unchanged |
| `Service.ProductService.Remove` | src/main/java/belajar/springredis/ProductService.java:25-28 | the cache afterwards is the old cache without `id`; a no-op when `id` was absent; loader count unchanged |
| `Service.CacheableScenario` | src/test/java/belajar/springredis/RedisTest.java:342-352 | two gets of "001" return equal products with id "001"; a get of "002" returns a different product with id "002"; the body checks that the loader ran once, then twice |
| `Service.CachePutScenario` | src/test/java/belajar/springredis/RedisTest.java:354-361 | `save` of product P003 then a get of "P003" returns the saved product; the body checks that the loader never ran |
| `Service.CacheEvictScenario` | src/test/java/belajar/springredis/RedisTest.java:363-372 | get "004", remove "004", get "004": both products have id "004" and are equal; the body checks that the loader ran twice |

## Left out

- Spring's cache interceptor, its `CacheManager` and the Redis-backed cache
  implementation are not modelled. The model starts from what the
  annotations declare. Key prefixing in Redis (`products::<id>`) and
  serialisation of a `Product` are library behaviour. The model assumes a
  stored product reads back equal.
- Null values are not modelled. A `null` id makes the cache key `#id` or
  `#product.id` null, and Spring rejects a null key with an exception. A
  `null` product fails too, because its `id` cannot be read. A product with a
  non-null id but a `null` `name` or `price` is accepted by `save`, cached,
  and returned by a later `getProduct`. The model cannot represent such a
  product, because Dafny's `string` and `Long` cannot be null.
- The model assumes that `Product.equals` compares fields, as Lombok
  generates it. The tests compare, with `assertEquals`, products read back
  from Redis; datatype equality is that field-wise comparison.
- The missing-cache and store-failure paths are not modelled. These include a
  cache manager without a "products" cache and an unreachable Redis. They
  are configuration and I/O, and the source handles none of them.
- Time-to-live: the cache's expiry comes from configuration that is not part
  of this model and needs wall-clock time. The `ttl` field of `Product` is
  carried as data only. Its expiry belongs to the repository
  (`ProdustRepository`), which is not modelled.
- Concurrency: `@Cacheable` here has no `sync` attribute, so there is no
  single-flight loading. The model is sequential.
- Logging (`log.info` at lines 15, 21 and 27): the ghost `loaderCalls` stands
  for whether the `getProduct` body, with its log line, ran. The log lines of
  `save` and `remove` always run and have no counterpart.
- Service.ProductService.constructor: takes the starting contents of the
  cache, which may come from earlier runs, but requires that every entry sits
  under its own product's id (`KeysMatchIds`), as the annotations store them.
  Entries written to the "products" cache by other code are not modelled.
  `Valid()` replays the history from that starting cache. The client
  scenarios start from an empty cache. The repository's tests share one Redis
  instance, whose cache may already hold entries from earlier runs.
- `OrderPublisher` (a scheduled writer of random UUIDs to a Redis stream) and
  the Redis data-structure tests are I/O against the store and are not
  modelled.
