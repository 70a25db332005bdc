/**
 The product entity of the caching demo and the loader that the body of
 `ProductService.getProduct` runs on a cache miss.
 */
module Products {
  import opened Wrappers

  /** Java's `long`, the range of the boxed `Long` fields `price` and `ttl`. */
  newtype Long = x: int | -0x8000_0000_0000_0000 <= x < 0x8000_0000_0000_0000

  /**
   A product. Identity is `id`, which is also the cache key; `ttl` is unset
   (`None`) unless the builder sets it.
   */
  datatype Product = Product(id: string, name: string, price: Long, ttl: Option<Long>)

  /** The name and price every loaded product gets. */
  const LoadedName: string := "example"
  const LoadedPrice: Long := 1000

  /**
   The body of `getProduct(id)`: builds a product for `id` with the fixed
   name and price and no time-to-live. It depends on `id` alone, so loading
   the same id twice yields equal products.
   */
  function LoadProduct(id: string): (p: Product)
    ensures p.id == id
  {
    Product(id, LoadedName, LoadedPrice, None)
  }
}
