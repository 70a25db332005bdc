/**
 `ProductService` with its cache layer: one object owning the "products"
 cache, whose three methods update the cache in place as their annotations
 declare. A ghost history of the intercepted calls ties the object to the
 value-level model in `ProductCache`.
 */
module Service {
  import opened Wrappers
  import opened Products
  import opened ProductCache

  class ProductService {
    /** The "products" cache shared by all three methods. */
    var cache: Cache
    /** What the cache held when the service was created. */
    ghost var start: Cache
    /** The calls made on this service so far, oldest first. */
    ghost var history: seq<Op>
    /** How many times the body of `getProduct` (and its log line) has run. */
    ghost var loaderCalls: nat

    /**
     The cache is what replaying the history on the starting cache gives, the
     loader has run once per miss in it, and every entry is stored under
     its own product's id.
     */
    ghost predicate Valid()
      reads this
    {
      && cache == Run(start, history).cache
      && loaderCalls == |Run(start, history).loads|
      && KeysMatchIds(cache)
    }

    /**
     A service over a "products" cache that already holds `init`, for
     instance entries left by earlier runs; those entries were stored by
     these same annotations, so each sits under its own product's id.
     */
    constructor (init: Cache)
      requires KeysMatchIds(init)
      ensures Valid()
      ensures cache == init && start == init && history == [] && loaderCalls == 0
    {
      cache := init;
      start := init;
      history := [];
      loaderCalls := 0;
    }

    /** Records `op` in the history; `o` is what `op` did to the cache. */
    ghost method Record(op: Op, o: Outcome)
      requires Valid()
      requires o == Apply(cache, op)
      modifies this`history, this`loaderCalls
      ensures history == old(history) + [op]
      ensures Run(start, history).cache == o.cache
      ensures loaderCalls == old(loaderCalls) + (if o.loaded then 1 else 0)
      ensures loaderCalls == |Run(start, history).loads|
    {
      assert (history + [op])[..|history|] == history;
      history := history + [op];
      loaderCalls := loaderCalls + (if o.loaded then 1 else 0);
    }

    /**
     `@Cacheable(value = "products", key = "#id")`: a hit returns the stored
     product without running the body; a miss runs the body once and stores
     its product under `id`.
     */
    method GetProduct(id: string) returns (p: Product)
      requires Valid()
      modifies this
      ensures Valid()
      ensures p.id == id
      ensures old(id in cache) ==> p == old(cache[id]) && cache == old(cache) && loaderCalls == old(loaderCalls)
      ensures old(id !in cache) ==> p == LoadProduct(id) && cache == old(cache)[id := p]
      ensures old(id !in cache) ==> loaderCalls == old(loaderCalls) + 1
      ensures history == old(history) + [Get(id)]
      ensures Apply(old(cache), Get(id)) == Outcome(cache, Some(p), loaderCalls != old(loaderCalls))
    {
      ghost var o := Apply(cache, Get(id));
      Record(Get(id), o);
      if id in cache {
        p := cache[id];
      } else {
        p := LoadProduct(id);
        cache := cache[id := p];
      }
    }

    /**
     `@CachePut(value = "products", key = "#product.id")`: the body runs and
     its result, the argument itself, replaces any entry for `product.id`.
     */
    method Save(product: Product) returns (r: Product)
      requires Valid()
      modifies this
      ensures Valid()
      ensures r == product
      ensures cache == old(cache)[product.id := product]
      ensures loaderCalls == old(loaderCalls)
      ensures history == old(history) + [Op.Save(product)]
    {
      ghost var o := Apply(cache, Op.Save(product));
      Record(Op.Save(product), o);
      r := product;
      cache := cache[r.id := r];
    }

    /** `@CacheEvict(value = "products", key = "#id")`: drops the entry for `id`, if any. */
    method Remove(id: string)
      requires Valid()
      modifies this
      ensures Valid()
      ensures cache == old(cache) - {id}
      ensures loaderCalls == old(loaderCalls)
      ensures history == old(history) + [Op.Remove(id)]
    {
      ghost var o := Apply(cache, Op.Remove(id));
      Record(Op.Remove(id), o);
      cache := cache - {id};
    }
  }

  /**
   Two gets of "001" return equal products and run the loader once; a get of
   "002" is a separate miss.
   */
  method CacheableScenario() returns (p: Product, p2: Product, p3: Product)
    ensures p.id == "001" && p2 == p
    ensures p3.id == "002" && p3 != p
  {
    var service := new ProductService(map[]);
    p := service.GetProduct("001");
    p2 := service.GetProduct("001");
    assert service.loaderCalls == 1;
    p3 := service.GetProduct("002");
    assert service.loaderCalls == 2;
  }

  /** A saved product is what the next get of its id returns, without the loader. */
  method CachePutScenario() returns (p: Product, p2: Product)
    ensures p == Product("P003", "asal", 100, None)
    ensures p2 == p
  {
    var service := new ProductService(map[]);
    p := Product("P003", "asal", 100, None);
    var saved := service.Save(p);
    p2 := service.GetProduct("P003");
    assert service.loaderCalls == 0;
  }

  /** Get, remove, get: the second get runs the loader again and returns an equal product. */
  method CacheEvictScenario() returns (p: Product, p2: Product)
    ensures p.id == "004"
    ensures p2 == p
  {
    var service := new ProductService(map[]);
    p := service.GetProduct("004");
    service.Remove("004");
    p2 := service.GetProduct("004");
    assert service.loaderCalls == 2;
  }
}
