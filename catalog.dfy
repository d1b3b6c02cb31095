/** The product cache of PaymentManager, `[String: Product]`: what a
    successful lookup does to it (requestProducts) and what the readers
    (getProduct, getAllProducts) see. */
module Catalog {
  import opened PaymentValues

  type Cache = map<string, Product>

  /** Every entry is stored under its own product id. */
  predicate WellKeyed(cache: Cache) {
    forall id :: id in cache ==> cache[id].id == id
  }

  function IdsOf(fetched: seq<Product>): (ids: set<string>) {
    set p | p in fetched :: p.id
  }

  /** The cache after `products[product.id] = product` for each fetched product in turn:
      fetched ids are added or overwritten, nothing is removed. */
  function Merge(cache: Cache, fetched: seq<Product>): (merged: Cache)
    ensures merged.Keys == cache.Keys + IdsOf(fetched)
    ensures WellKeyed(cache) ==> WellKeyed(merged)
  {
    if fetched == [] then cache
    else
      var p := fetched[|fetched| - 1];
      assert fetched == fetched[..|fetched| - 1] + [p];
      Merge(cache, fetched[..|fetched| - 1])[p.id := p]
  }

  /** An entry whose id was not fetched keeps its old product. */
  lemma {:induction false} MergeKeepsUnfetched(cache: Cache, fetched: seq<Product>, id: string)
    requires id in cache && id !in IdsOf(fetched)
    ensures Merge(cache, fetched)[id] == cache[id]
    decreases |fetched|
  {
    if fetched != [] {
      var prefix := fetched[..|fetched| - 1];
      assert fetched == prefix + [fetched[|fetched| - 1]];
      MergeKeepsUnfetched(cache, prefix, id);
    }
  }

  /** A fetched product is stored under its id unless a later fetched product has the same id. */
  lemma {:induction false} MergeStoresLatest(cache: Cache, fetched: seq<Product>, i: nat)
    requires i < |fetched|
    requires forall j :: i < j < |fetched| ==> fetched[j].id != fetched[i].id
    ensures Merge(cache, fetched)[fetched[i].id] == fetched[i]
    decreases |fetched|
  {
    if i < |fetched| - 1 {
      MergeStoresLatest(cache, fetched[..|fetched| - 1], i);
    }
  }

  /** Merging is applying the fetched products, taken as a cache of their own, over the old cache. */
  lemma {:induction false} MergeIsUnion(cache: Cache, fetched: seq<Product>)
    ensures Merge(cache, fetched) == cache + Merge(map[], fetched)
    decreases |fetched|
  {
    if fetched != [] {
      var p := fetched[|fetched| - 1];
      var prefix := fetched[..|fetched| - 1];
      MergeIsUnion(cache, prefix);
      assert (cache + Merge(map[], prefix))[p.id := p] == cache + Merge(map[], prefix)[p.id := p];
    }
  }

  /** Fetching the same products twice leaves the cache as fetching them once. */
  lemma MergeIdempotent(cache: Cache, fetched: seq<Product>)
    ensures Merge(Merge(cache, fetched), fetched) == Merge(cache, fetched)
  {
    var latest := Merge(map[], fetched);
    MergeIsUnion(cache, fetched);
    MergeIsUnion(cache + latest, fetched);
    assert (cache + latest) + latest == cache + latest;
  }

  /** getAllProducts: one PaymentProduct per cache entry (the array's order is the dictionary's, unspecified). */
  function Listing(cache: Cache): (listed: set<PaymentProduct>) {
    set id | id in cache :: FromProduct(cache[id])
  }

  /** In a well-keyed cache no two entries translate to the same record, so the listing has one element per entry. */
  lemma {:induction false} ListingSize(cache: Cache)
    ensures WellKeyed(cache) ==> |Listing(cache)| == |cache|
    decreases |cache|
  {
    if !WellKeyed(cache) {
    } else if cache == map[] {
      assert Listing(cache) == {};
    } else {
      var id :| id in cache;
      var rest := cache - {id};
      ListingSize(rest);
      forall x | x in Listing(cache) ensures x in Listing(rest) + {FromProduct(cache[id])} {
        var k :| k in cache && x == FromProduct(cache[k]);
        if k != id {
          assert k in rest && rest[k] == cache[k];
        }
      }
      assert Listing(cache) == Listing(rest) + {FromProduct(cache[id])};
      assert FromProduct(cache[id]) !in Listing(rest);
      assert cache.Keys == rest.Keys + {id};
    }
  }
}
