/**
 The contract that the three cache annotations of `ProductService` declare,
 stated on values. All three operations share the one cache named
 "products"; `getProduct` and `remove` use the key `#id` and `save` uses the
 key `#product.id`. Per key, the annotations fix a small state machine:
 Absent, then Present after a load (read-through miss) or a put
 (write-through), overwritten by a later put, and Absent again after an evict.
 */
module ProductCache {
  import opened Wrappers
  import opened Products

  /** The "products" cache: at most one entry per key. */
  type Cache = map<string, Product>

  /** One intercepted call on `ProductService`. */
  datatype Op =
    | Get(id: string)          // getProduct(id), @Cacheable
    | Save(product: Product)   // save(product), @CachePut
    | Remove(id: string)       // remove(id), @CacheEvict
  {
    /** The cache key the call's annotation computes: `#id` or `#product.id`. */
    function Key(): string
    {
      match this
      case Get(id) => id
      case Save(p) => p.id
      case Remove(id) => id
    }
  }

  /** The entry for `k`, or `None` when the cache misses. */
  function Lookup(c: Cache, k: string): Option<Product>
  {
    if k in c then Some(c[k]) else None
  }

  /** Every entry is stored under its own product's id. */
  predicate KeysMatchIds(c: Cache)
  {
    forall k :: k in c ==> c[k].id == k
  }

  /**
   What one call does: the new cache, what the call returns (`None` for the
   void `remove`), and whether the body of `getProduct` ran.
   */
  datatype Outcome = Outcome(cache: Cache, result: Option<Product>, loaded: bool)

  /** One intercepted call, as the annotation on its method declares it. */
  function Apply(c: Cache, op: Op): (o: Outcome)
    // the call touches no entry but its own key's
    ensures forall k :: k != op.Key() ==> Lookup(o.cache, k) == Lookup(c, k)
    // the loader runs exactly on a read-through miss
    ensures o.loaded <==> op.Get? && op.id !in c
    // a hit returns the stored product and leaves the cache as it was
    ensures op.Get? && op.id in c ==> o.cache == c && o.result == Some(c[op.id])
    // a miss returns what the loader builds
    ensures op.Get? && op.id !in c ==> o.result == Some(LoadProduct(op.id))
    // a put returns its argument, whatever was stored before
    ensures op.Save? ==> o.result == Some(op.product)
    // an evict leaves no entry for its key
    ensures op.Remove? ==> op.Key() !in o.cache && o.result == None
    // a get or a put leaves the cache holding exactly what it returned
    ensures !op.Remove? ==> o.result == Lookup(o.cache, op.Key())
    // no call stores a product under a key other than its id
    ensures KeysMatchIds(c) ==> KeysMatchIds(o.cache)
  {
    match op
    case Get(id) =>
      if id in c then Outcome(c, Some(c[id]), false)
      else
        var p := LoadProduct(id);
        Outcome(c[id := p], Some(p), true)
    case Save(p) => Outcome(c[p.id := p], Some(p), false)
    case Remove(id) => Outcome(c - {id}, None, false)
  }

  /**
   What a sequence of calls does: the final cache, each call's result in
   order, and the keys for which the loader ran, in order.
   */
  datatype Trace = Trace(cache: Cache, results: seq<Option<Product>>, loads: seq<string>)

  function Run(c: Cache, ops: seq<Op>): (t: Trace)
    ensures |t.results| == |ops|
    ensures |t.loads| <= |ops|
    ensures KeysMatchIds(c) ==> KeysMatchIds(t.cache)
    decreases |ops|
  {
    if ops == [] then Trace(c, [], [])
    else
      var before := Run(c, ops[..|ops| - 1]);
      var last := ops[|ops| - 1];
      var o := Apply(before.cache, last);
      Trace(o.cache, before.results + [o.result],
            before.loads + (if o.loaded then [last.Key()] else []))
  }

  /**
   The per-key state machine, read from the most recent call backwards: the
   entry for `k` after `ops`, starting from `init`, is fixed by the last call
   on key `k`. A put leaves its product, an evict leaves nothing, and a get
   leaves what was there or, on a miss, what the loader builds. Calls on other
   keys do not matter.
   */
  function KeyState(init: Option<Product>, ops: seq<Op>, k: string): Option<Product>
    decreases |ops|
  {
    if ops == [] then init
    else
      var last := ops[|ops| - 1];
      var before := KeyState(init, ops[..|ops| - 1], k);
      if last.Key() != k then before
      else
        match last
        case Save(p) => Some(p)
        case Remove(_) => None
        case Get(_) => if before.Some? then before else Some(LoadProduct(k))
  }

  /** The calls of `ops` whose key is `k`, in order. */
  function OnKey(ops: seq<Op>, k: string): (r: seq<Op>)
    ensures |r| <= |ops|
    ensures forall i :: 0 <= i < |r| ==> r[i].Key() == k
    decreases |ops|
  {
    if ops == [] then []
    else OnKey(ops[..|ops| - 1], k) + (if ops[|ops| - 1].Key() == k then [ops[|ops| - 1]] else [])
  }

  /** The cache's entry for every key follows the per-key state machine. */
  lemma {:induction false} RunFollowsKeyState(c: Cache, ops: seq<Op>, k: string)
    ensures Lookup(Run(c, ops).cache, k) == KeyState(Lookup(c, k), ops, k)
    decreases |ops|
  {
    if ops != [] {
      RunFollowsKeyState(c, ops[..|ops| - 1], k);
    }
  }

  /** The per-key state machine ignores calls on other keys. */
  lemma {:induction false} KeyStateOnKey(init: Option<Product>, ops: seq<Op>, k: string)
    ensures KeyState(init, ops, k) == KeyState(init, OnKey(ops, k), k)
    decreases |ops|
  {
    if ops != [] {
      var prefix, last := ops[..|ops| - 1], ops[|ops| - 1];
      KeyStateOnKey(init, prefix, k);
      var filtered := OnKey(prefix, k);
      if last.Key() == k {
        assert OnKey(ops, k) == filtered + [last];
        assert (filtered + [last])[..|filtered|] == filtered;
      } else {
        assert OnKey(ops, k) == filtered;
      }
    }
  }

  /**
   Each call touches only its own key: the entry for `k` after a history is
   the same whether or not the calls on other keys are made.
   */
  lemma EntryDependsOnlyOnOwnKey(c: Cache, ops: seq<Op>, k: string)
    ensures Lookup(Run(c, ops).cache, k) == Lookup(Run(c, OnKey(ops, k)).cache, k)
  {
    RunFollowsKeyState(c, ops, k);
    RunFollowsKeyState(c, OnKey(ops, k), k);
    KeyStateOnKey(Lookup(c, k), ops, k);
  }

  /**
   The per-key state machine after a put of `p`: as long as the later calls
   on `p.id` are all gets, the entry for `p.id` stays `p`.
   */
  lemma {:induction false} KeyStateKeepsSave(init: Option<Product>, p: Product, later: seq<Op>)
    requires forall i :: 0 <= i < |later| && later[i].Key() == p.id ==> later[i].Get?
    ensures KeyState(init, [Op.Save(p)] + later, p.id) == Some(p)
    decreases |later|
  {
    var ops := [Op.Save(p)] + later;
    if later == [] {
      assert ops[..0] == [];
    } else {
      var prefix := later[..|later| - 1];
      assert ops[..|ops| - 1] == [Op.Save(p)] + prefix;
      assert ops[|ops| - 1] == later[|later| - 1];
      KeyStateKeepsSave(init, p, prefix);
    }
  }

  /**
   A later get sees a put until an evict: after `save(p)`, any calls that
   neither evict nor overwrite `p.id` (calls on other keys, gets of
   `p.id`), a get of `p.id` returns `p` without running the loader.
   */
  lemma GetSeesSaveUntilEvicted(c: Cache, p: Product, later: seq<Op>)
    requires forall i :: 0 <= i < |later| && later[i].Key() == p.id ==> later[i].Get?
    ensures var ops := [Op.Save(p)] + later + [Get(p.id)];
            var t := Run(c, ops);
            t.results[|ops| - 1] == Some(p) && Run(c, ops[..|ops| - 1]).cache.Keys == t.cache.Keys
            && t.loads == Run(c, ops[..|ops| - 1]).loads
  {
    var ops := [Op.Save(p)] + later + [Get(p.id)];
    var before := ops[..|ops| - 1];
    assert before == [Op.Save(p)] + later;
    RunFollowsKeyState(c, before, p.id);
    KeyStateKeepsSave(Lookup(c, p.id), p, later);
    assert Lookup(Run(c, before).cache, p.id) == Some(p);
  }

  /**
   Once a key is present, no later call reloads it until it is evicted: the
   loader never runs for it, and it stays present.
   */
  lemma {:induction false} PresentKeyIsNeverReloaded(c: Cache, ops: seq<Op>, k: string)
    requires k in c
    requires forall i :: 0 <= i < |ops| ==> ops[i] != Remove(k)
    ensures k in Run(c, ops).cache
    ensures k !in Run(c, ops).loads
    decreases |ops|
  {
    if ops != [] {
      var prefix := ops[..|ops| - 1];
      PresentKeyIsNeverReloaded(c, prefix, k);
      var o := Apply(Run(c, prefix).cache, ops[|ops| - 1]);
      assert Lookup(o.cache, k).Some?;
    }
  }

  /**
   Without evictions the loader runs at most once per key, only for keys the
   cache did not hold at the start, and every loaded key stays cached.
   */
  lemma {:induction false} WithoutEvictionEachKeyLoadsOnce(c: Cache, ops: seq<Op>)
    requires forall i :: 0 <= i < |ops| ==> !ops[i].Remove?
    ensures c.Keys <= Run(c, ops).cache.Keys
    ensures forall i :: 0 <= i < |Run(c, ops).loads| ==> Run(c, ops).loads[i] !in c
    ensures forall i :: 0 <= i < |Run(c, ops).loads| ==> Run(c, ops).loads[i] in Run(c, ops).cache
    ensures forall i, j :: 0 <= i < j < |Run(c, ops).loads| ==> Run(c, ops).loads[i] != Run(c, ops).loads[j]
    decreases |ops|
  {
    if ops != [] {
      var prefix, last := ops[..|ops| - 1], ops[|ops| - 1];
      WithoutEvictionEachKeyLoadsOnce(c, prefix);
      var before := Run(c, prefix);
      var o := Apply(before.cache, last);
      assert before.cache.Keys <= o.cache.Keys by {
        forall k | k in before.cache ensures k in o.cache {
          assert Lookup(before.cache, k).Some?;
        }
      }
      if o.loaded {
        assert Run(c, ops).loads == before.loads + [last.Key()];
        assert last.Key() in o.cache;
      } else {
        assert Run(c, ops).loads == before.loads;
      }
    }
  }

  /**
   Every `getProduct(id)` in a history returns a product whose id is `id`,
   on a hit as well as on a miss.
   */
  lemma {:induction false} GetReturnsItsKey(c: Cache, ops: seq<Op>, i: nat)
    requires KeysMatchIds(c)
    requires i < |ops| && ops[i].Get?
    ensures Run(c, ops).results[i].Some?
    ensures Run(c, ops).results[i].value.id == ops[i].id
    decreases |ops|
  {
    var prefix := ops[..|ops| - 1];
    if i < |prefix| {
      GetReturnsItsKey(c, prefix, i);
      assert Run(c, ops).results[i] == Run(c, prefix).results[i];
    } else {
      var o := Apply(Run(c, prefix).cache, ops[i]);
      assert Lookup(o.cache, ops[i].id).Some?;
    }
  }

  /** Read-through: a get right after a get is a hit with the same product. */
  lemma HitAfterLoad(c: Cache, id: string)
    ensures var first := Apply(c, Get(id));
            var second := Apply(first.cache, Get(id));
            !second.loaded && second.result == first.result && second.cache == first.cache
  {
  }

  /** Write-through: a get right after a put is a hit that returns the saved product. */
  lemma GetAfterSave(c: Cache, p: Product)
    ensures var put := Apply(c, Save(p));
            var get := Apply(put.cache, Get(p.id));
            !get.loaded && get.result == Some(p) && get.cache == put.cache
  {
  }

  /** Evict: a get right after an evict is a miss that runs the loader. */
  lemma LoadAfterRemove(c: Cache, id: string)
    ensures var evict := Apply(c, Remove(id));
            var get := Apply(evict.cache, Get(id));
            get.loaded && get.result == Some(LoadProduct(id))
  {
  }

  /**
   The loader depends on the id alone: get, remove, get yields equal products
   when the first get was a miss.
   */
  lemma ReloadAfterRemoveIsEqual(c: Cache, id: string)
    requires id !in c
    ensures var first := Apply(c, Get(id));
            var evict := Apply(first.cache, Remove(id));
            var second := Apply(evict.cache, Get(id));
            first.loaded && second.loaded && second.result == first.result
  {
  }
}
