/** PaymentManager: the product cache it updates in place, and its public
    operations run one at a time, each with StoreKit's answer as an input and
    its effects appended to `emitted`. */
module Manager {
  import opened Wrappers
  import opened PaymentValues
  import opened Events
  import Catalog
  import Entitlements
  import opened Outcomes

  class PaymentManager {
    /** The cached StoreKit products, by product id. */
    var products: map<string, Product>
    /** Every delegate callback, completion call and StoreKit call so far, in order. */
    var emitted: seq<Event>

    ghost predicate Valid()
      reads this
    {
      Catalog.WellKeyed(products)
    }

    constructor ()
      ensures Valid() && products == map[] && emitted == []
    {
      products := map[];
      emitted := [];
    }

    /** requestProducts: on success each fetched product is stored under its id (merged, never
        cleared) and reported to the delegate; on failure the cache is left as it was. */
    method RequestProducts(productIds: seq<string>, response: FetchResponse)
      requires Valid()
      modifies this
      ensures Valid()
      ensures products == if response.Fetched? then Catalog.Merge(old(products), response.products) else old(products)
      ensures emitted == old(emitted) + FetchTrace(productIds, response)
    {
      match response
      case Fetched(fetched) =>
        var i := 0;
        while i < |fetched|
          invariant 0 <= i <= |fetched|
          invariant products == Catalog.Merge(old(products), fetched[..i])
          invariant emitted == old(emitted)
        {
          assert fetched[..i + 1][..i] == fetched[..i];
          products := products[fetched[i].id := fetched[i]];
          i := i + 1;
        }
        assert fetched[..i] == fetched;
        emitted := emitted + FetchTrace(productIds, response);
      case FetchFailed(_) =>
        emitted := emitted + FetchTrace(productIds, response);
    }

    /** purchaseProduct: fails at once for an uncached id, otherwise submits the cached product. */
    method PurchaseProduct(productId: string, appAccountToken: Option<Uuid>, outcome: PurchaseOutcome)
      modifies this`emitted
      ensures emitted == old(emitted) + PurchaseTrace(products, productId, appAccountToken, outcome)
    {
      if productId !in products {
        emitted := emitted + [Completed(false, Some("Product not found: " + productId))];
        return;
      }
      var product := products[productId];
      emitted := emitted + [PurchaseSubmitted(product, PurchaseOptions(appAccountToken))];
      emitted := emitted + PurchaseEvents(productId, outcome);
    }

    /** restorePurchases: sync, then report the verified current entitlements. */
    method RestorePurchases(sync: SyncResponse, entitlements: seq<VerificationResult>)
      modifies this`emitted
      ensures emitted == old(emitted) + RestoreTrace(sync, entitlements)
    {
      emitted := emitted + [SyncRequested];
      match sync
      case Synced =>
        var restored := CollectCurrentEntitlements(entitlements);
        emitted := emitted + [DidRestorePurchases(restored), Completed(true, None)];
      case SyncFailed(description) =>
        emitted := emitted + [Completed(false, Some(description))];
    }

    /** getProduct: the cached product's record, or nothing for an uncached id. */
    function GetProduct(productId: string): (r: Option<PaymentProduct>)
      reads this
      ensures r.Some? <==> productId in products
      ensures r.Some? ==> r.value == FromProduct(products[productId])
      ensures r.Some? && Valid() ==> r.value.productId == productId
    {
      if productId in products then Some(FromProduct(products[productId])) else None
    }

    /** getAllProducts: one record per cached product. */
    function GetAllProducts(): (r: set<PaymentProduct>)
      reads this
      ensures forall id :: id in products ==> FromProduct(products[id]) in r
      ensures Valid() ==> forall x :: x in r ==> x.productId in products && x == FromProduct(products[x.productId])
      ensures Valid() ==> |r| == |products|
    {
      Catalog.ListingSize(products);
      Catalog.Listing(products)
    }

    /** checkPurchaseStatus: found exactly when there is a verified entitlement for the product. */
    method CheckPurchaseStatus(productId: string, entitlements: seq<VerificationResult>)
      modifies this`emitted
      ensures var found := Entitlements.FirstEntitlement(entitlements, productId);
              emitted == old(emitted) + [StatusReported(found.Some?, found)]
    {
      var found := FindCurrentEntitlement(productId, entitlements);
      if found.Some? {
        emitted := emitted + [StatusReported(true, found)];
      } else {
        emitted := emitted + [StatusReported(false, None)];
      }
    }

    /** collectCurrentEntitlements: the verified entries' records, appended in stream order. */
    method CollectCurrentEntitlements(entitlements: seq<VerificationResult>) returns (transactions: seq<PaymentTransaction>)
      ensures transactions == Entitlements.VerifiedTransactions(entitlements)
    {
      transactions := [];
      for i := 0 to |entitlements|
        invariant transactions == Entitlements.VerifiedTransactions(entitlements[..i])
      {
        assert entitlements[..i + 1][..i] == entitlements[..i];
        match entitlements[i]
        case Verified(transaction) =>
          transactions := transactions + [FromTransaction(transaction)];
        case Unverified(_, _) =>
      }
      assert entitlements[..|entitlements|] == entitlements;
    }

    /** findCurrentEntitlement: the first verified entry for the product, skipping unverified ones. */
    method FindCurrentEntitlement(productId: string, entitlements: seq<VerificationResult>)
      returns (found: Option<PaymentTransaction>)
      ensures found == Entitlements.FirstEntitlement(entitlements, productId)
    {
      for i := 0 to |entitlements|
        invariant Entitlements.FirstEntitlement(entitlements[i..], productId)
                  == Entitlements.FirstEntitlement(entitlements, productId)
      {
        assert entitlements[i..][1..] == entitlements[i + 1..];
        match entitlements[i]
        case Verified(transaction) =>
          if transaction.productID == productId {
            return Some(FromTransaction(transaction));
          }
        case Unverified(_, _) =>
      }
      return None;
    }

    /** One turn of the Transaction.updates loop. */
    method HandleUpdate(update: VerificationResult)
      modifies this`emitted
      ensures emitted == old(emitted) + UpdateEvents(update)
    {
      match update
      case Verified(transaction) =>
        emitted := emitted + [DidFinishPurchase(transaction.productID, FromTransaction(transaction))];
        emitted := emitted + [TransactionFinished(transaction.id)];
      case Unverified(_, error) =>
        emitted := emitted + [DidFailPurchase("unknown", "Unverified transaction: " + error)];
    }

    /** The Transaction.updates loop over the updates that arrive while it runs. */
    method ListenForUpdates(updates: seq<VerificationResult>)
      modifies this`emitted
      ensures emitted == old(emitted) + ListenerTrace(updates)
    {
      for i := 0 to |updates|
        invariant emitted == old(emitted) + ListenerTrace(updates[..i])
      {
        ListenerTraceStep(updates, i);
        HandleUpdate(updates[i]);
      }
      assert updates[..|updates|] == updates;
    }
  }

  /** After a successful fetch has merged `fetched` into the cache, getProduct returns for each
      fetched id the record the delegate received for it (the last one, when an id repeats). */
  lemma FetchThenGet(m: PaymentManager, before: Catalog.Cache, productIds: seq<string>, fetched: seq<Product>, i: nat)
    requires m.products == Catalog.Merge(before, fetched)
    requires i < |fetched| && forall j :: i < j < |fetched| ==> fetched[j].id != fetched[i].id
    ensures m.GetProduct(fetched[i].id) == Some(FetchTrace(productIds, Fetched(fetched))[1].products[i])
  {
    Catalog.MergeStoresLatest(before, fetched, i);
  }

  /** A client of the contracts above: fetch one subscription, buy it, check its status,
      then try to buy a product that was never fetched. */
  method PurchaseScenario(price: Decimal, date: Date)
  {
    var manager := new PaymentManager();
    var sub := Product("id.bundle.sub", "Bundle", "Monthly bundle", price, "$4.99", AutoRenewable);
    manager.RequestProducts(["id.bundle.sub"], Fetched([sub]));
    Catalog.MergeStoresLatest(map[], [sub], 0);
    assert manager.GetProduct("id.bundle.sub") == Some(FromProduct(sub));
    assert manager.emitted[1] == DidUpdateProducts([FromProduct(sub)]);

    var t := Transaction(1000, "id.bundle.sub", date, false, None, None);
    var before := |manager.emitted|;
    manager.PurchaseProduct("id.bundle.sub", None, Success(Verified(t)));
    assert manager.emitted[before + 1] == DidFinishPurchase("id.bundle.sub", FromTransaction(t));
    assert manager.emitted[before + 2] == Completed(true, None);
    assert manager.emitted[before + 3] == TransactionFinished(1000);

    manager.CheckPurchaseStatus("id.bundle.sub", [Verified(t)]);
    assert manager.emitted[|manager.emitted| - 1] == StatusReported(true, Some(FromTransaction(t)));

    assert Catalog.IdsOf([sub]) == {"id.bundle.sub"};
    assert "missing.sku" !in manager.products;
    before := |manager.emitted|;
    manager.PurchaseProduct("missing.sku", None, Pending);
    assert manager.emitted[before..] == [Completed(false, Some("Product not found: " + "missing.sku"))];
  }
}
