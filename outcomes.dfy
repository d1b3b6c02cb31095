/** The decision logic of PaymentManager with StoreKit's answers as inputs:
    for each operation, the events it emits (delegate callbacks, completion
    calls, StoreKit calls) as a function of what StoreKit returned. */
module Outcomes {
  import opened Wrappers
  import opened PaymentValues
  import opened Events
  import Catalog
  import Entitlements

  /** What Product.products(for:) gave back: the products, or the thrown error's description. */
  datatype FetchResponse = Fetched(products: seq<Product>) | FetchFailed(description: string)

  /** What AppStore.sync() gave back. */
  datatype SyncResponse = Synced | SyncFailed(description: string)

  /** What product.purchase(options:) gave back: a Product.PurchaseResult, or a thrown error. */
  datatype PurchaseOutcome =
    | Success(verification: VerificationResult)
    | UserCancelled
    | Pending
    | UnknownResult
    | Threw(description: string)

  predicate IsVerifiedPurchase(outcome: PurchaseOutcome) {
    outcome.Success? && outcome.verification.Verified?
  }

  /** The purchase options: the account token when one is given, nothing else. */
  function PurchaseOptions(token: Option<Uuid>): (options: set<PurchaseOption>)
    ensures token.None? <==> options == {}
    ensures token.Some? ==> AppAccountToken(token.value) in options && |options| == 1
  {
    match token
    case Some(t) => {AppAccountToken(t)}
    case None => {}
  }

  /** requestProducts: the lookup, then either the merged products reported to the
      delegate and success, or failure with the error's description. */
  function FetchTrace(productIds: seq<string>, response: FetchResponse): (evs: seq<Event>)
    ensures |evs| >= 2 && evs[0] == ProductsRequested(set id | id in productIds)
    ensures CountOn(evs, Completion) == 1 && evs[|evs| - 1].Completed?
    ensures evs[|evs| - 1].success <==> response.Fetched?
    ensures CountOn(evs, Delegate) == (if response.Fetched? then 1 else 0)
    ensures response.Fetched? ==>
              evs[1] == DidUpdateProducts(FromProducts(response.products)) && evs[|evs| - 1].message.None?
    ensures response.FetchFailed? ==> evs[|evs| - 1].message == Some(response.description)
  {
    var request := ProductsRequested(set id | id in productIds);
    match response
    case Fetched(products) =>
      CountOnShort(request, DidUpdateProducts(FromProducts(products)), Completed(true, None));
      [request, DidUpdateProducts(FromProducts(products)), Completed(true, None)]
    case FetchFailed(description) =>
      CountOnShort(request, Completed(false, Some(description)), request);
      [request, Completed(false, Some(description))]
  }

  /** The texts of the purchase outcomes that are not a verified transaction. */
  const UnverifiedPrefix: string := "Unverified transaction: "
  const UnverifiedMessage: string := "Unverified transaction"
  const CancelledMessage: string := "User cancelled"
  const PendingMessage: string := "Purchase pending"
  const UnknownMessage: string := "Unknown result"

  /** A verified purchase: the delegate is told of the finished purchase, the caller of success,
      and only then is the transaction finished. */
  function VerifiedPurchaseEvents(productId: string, t: Transaction): (evs: seq<Event>)
    ensures CountOn(evs, Delegate) == 1 && CountOn(evs, Completion) == 1
    ensures CountOn(evs, StoreRequest) == 0 && CountOn(evs, Finish) == 1
  {
    var evs := [DidFinishPurchase(productId, FromTransaction(t)), Completed(true, None), TransactionFinished(t.id)];
    CountOnShort(evs[0], evs[1], evs[2]);
    evs
  }

  /** A failed purchase the delegate hears of: the delegate gets `error`, the caller `message`. */
  function NotifiedFailureEvents(productId: string, error: string, message: string): (evs: seq<Event>)
    ensures CountOn(evs, Delegate) == 1 && CountOn(evs, Completion) == 1
    ensures CountOn(evs, StoreRequest) == 0 && CountOn(evs, Finish) == 0
  {
    var evs := [DidFailPurchase(productId, error), Completed(false, Some(message))];
    CountOnShort(evs[0], evs[1], evs[1]);
    evs
  }

  /** A failed purchase only the caller hears of. */
  function SilentFailureEvents(message: string): (evs: seq<Event>)
    ensures CountOn(evs, Delegate) == 0 && CountOn(evs, Completion) == 1
    ensures CountOn(evs, StoreRequest) == 0 && CountOn(evs, Finish) == 0
  {
    var evs := [Completed(false, Some(message))];
    CountOnShort(evs[0], evs[0], evs[0]);
    evs
  }

  /** The events that follow the submission of a purchase, by what StoreKit returned. */
  function PurchaseEvents(productId: string, outcome: PurchaseOutcome): (evs: seq<Event>)
    ensures CountOn(evs, Completion) == 1
    ensures CountOn(evs, StoreRequest) == 0
    ensures CountOn(evs, Delegate) == (if outcome.Pending? || outcome.UnknownResult? then 0 else 1)
    ensures CountOn(evs, Finish) == (if IsVerifiedPurchase(outcome) then 1 else 0)
  {
    match outcome
    case Success(Verified(t)) => VerifiedPurchaseEvents(productId, t)
    case Success(Unverified(_, error)) =>
      NotifiedFailureEvents(productId, UnverifiedPrefix + error, UnverifiedMessage)
    case UserCancelled => NotifiedFailureEvents(productId, CancelledMessage, CancelledMessage)
    case Pending => SilentFailureEvents(PendingMessage)
    case UnknownResult => SilentFailureEvents(UnknownMessage)
    case Threw(description) => NotifiedFailureEvents(productId, description, description)
  }

  /** The order of a purchase's events: the completion reports success exactly on a verified
      transaction and carries a message exactly on failure; the delegate, when told, is told first
      and about the requested product; finish() comes last, after the delegate and the completion. */
  lemma PurchaseEventsShape(productId: string, outcome: PurchaseOutcome)
    ensures var evs := PurchaseEvents(productId, outcome);
            forall i :: 0 <= i < |evs| && evs[i].Completed? ==>
              (evs[i].success <==> IsVerifiedPurchase(outcome)) && (evs[i].success <==> evs[i].message.None?)
    ensures var evs := PurchaseEvents(productId, outcome);
            !outcome.Pending? && !outcome.UnknownResult? ==>
              (evs[0].DidFinishPurchase? || evs[0].DidFailPurchase?) && evs[0].productId == productId &&
              (evs[0].DidFinishPurchase? <==> IsVerifiedPurchase(outcome))
    ensures var evs := PurchaseEvents(productId, outcome);
            IsVerifiedPurchase(outcome) ==>
              |evs| == 3 && evs[1] == Completed(true, None) &&
              evs[0].transaction == FromTransaction(outcome.verification.transaction) &&
              evs[2] == TransactionFinished(outcome.verification.transaction.id)
  {
  }

  /** The texts each failing outcome produces. */
  lemma PurchaseMessages(productId: string, outcome: PurchaseOutcome)
    ensures var evs := PurchaseEvents(productId, outcome);
            outcome.Success? && outcome.verification.Unverified? ==>
              evs[0].error == "Unverified transaction: " + outcome.verification.error &&
              evs[1].message == Some("Unverified transaction")
    ensures var evs := PurchaseEvents(productId, outcome);
            outcome.UserCancelled? ==> evs[0].error == "User cancelled" && evs[1].message == Some("User cancelled")
    ensures var evs := PurchaseEvents(productId, outcome);
            outcome.Threw? ==> evs[0].error == outcome.description && evs[1].message == Some(outcome.description)
    ensures outcome.Pending? ==> PurchaseEvents(productId, outcome)[0].message == Some("Purchase pending")
    ensures outcome.UnknownResult? ==> PurchaseEvents(productId, outcome)[0].message == Some("Unknown result")
  {
  }

  /** purchaseProduct: an uncached id fails at once and reaches neither StoreKit nor the delegate;
      a cached one submits the cached product with its options and then classifies the result. */
  function PurchaseTrace(cache: Catalog.Cache, productId: string, token: Option<Uuid>, outcome: PurchaseOutcome)
    : (evs: seq<Event>)
    ensures CountOn(evs, Completion) == 1
    ensures CountOn(evs, StoreRequest) == (if productId in cache then 1 else 0)
    ensures productId !in cache ==>
              CountOn(evs, Delegate) == 0 && CountOn(evs, Finish) == 0 &&
              evs[0] == Completed(false, Some("Product not found: " + productId))
    ensures productId in cache ==>
              evs[0] == PurchaseSubmitted(cache[productId], PurchaseOptions(token)) &&
              evs[1..] == PurchaseEvents(productId, outcome)
  {
    if productId !in cache then
      [Completed(false, Some("Product not found: " + productId))]
    else
      var evs := [PurchaseSubmitted(cache[productId], PurchaseOptions(token))] + PurchaseEvents(productId, outcome);
      CountOnAppend([evs[0]], PurchaseEvents(productId, outcome), Completion);
      CountOnAppend([evs[0]], PurchaseEvents(productId, outcome), StoreRequest);
      evs
  }

  /** restorePurchases: the sync, then either the verified entitlements reported to the
      delegate exactly once (even when there are none) and success, or failure. */
  function RestoreTrace(sync: SyncResponse, entitlements: seq<VerificationResult>): (evs: seq<Event>)
    ensures |evs| >= 2 && evs[0] == SyncRequested
    ensures CountOn(evs, Completion) == 1 && evs[|evs| - 1].Completed?
    ensures evs[|evs| - 1].success <==> sync.Synced?
    ensures CountOn(evs, Delegate) == (if sync.Synced? then 1 else 0)
    ensures sync.Synced? ==>
              evs[1] == DidRestorePurchases(Entitlements.VerifiedTransactions(entitlements)) &&
              evs[|evs| - 1].message.None?
    ensures sync.SyncFailed? ==> evs[|evs| - 1].message == Some(sync.description)
  {
    match sync
    case Synced =>
      var restored := DidRestorePurchases(Entitlements.VerifiedTransactions(entitlements));
      CountOnShort(SyncRequested, restored, Completed(true, None));
      [SyncRequested, restored, Completed(true, None)]
    case SyncFailed(description) =>
      CountOnShort(SyncRequested, Completed(false, Some(description)), SyncRequested);
      [SyncRequested, Completed(false, Some(description))]
  }

  /** One turn of the Transaction.updates loop: a verified update is reported under its own
      product id and then finished; an unverified one is reported as a failure of "unknown". */
  function UpdateEvents(update: VerificationResult): (evs: seq<Event>)
    ensures CountOn(evs, Delegate) == 1 && CountOn(evs, Completion) == 0 && CountOn(evs, StoreRequest) == 0
    ensures CountOn(evs, Finish) == (if update.Verified? then 1 else 0)
    ensures update.Verified? ==>
              evs[0] == DidFinishPurchase(update.transaction.productID, FromTransaction(update.transaction)) &&
              evs[|evs| - 1] == TransactionFinished(update.transaction.id)
    ensures update.Unverified? ==> evs[0].DidFailPurchase? && evs[0].productId == "unknown"
  {
    match update
    case Verified(t) => [DidFinishPurchase(t.productID, FromTransaction(t)), TransactionFinished(t.id)]
    case Unverified(_, error) => [DidFailPurchase("unknown", "Unverified transaction: " + error)]
  }

  /** The listener over a finite run of updates: one turn per update, in order. */
  function ListenerTrace(updates: seq<VerificationResult>): (evs: seq<Event>) {
    if updates == [] then []
    else ListenerTrace(updates[..|updates| - 1]) + UpdateEvents(updates[|updates| - 1])
  }

  /** The listener tells the delegate once per update, and never calls a completion or asks StoreKit for anything. */
  lemma {:induction false} ListenerCounts(updates: seq<VerificationResult>)
    ensures var evs := ListenerTrace(updates);
            CountOn(evs, Delegate) == |updates| && CountOn(evs, Completion) == 0 && CountOn(evs, StoreRequest) == 0
    decreases |updates|
  {
    if updates != [] {
      var prefix := updates[..|updates| - 1];
      var step := UpdateEvents(updates[|updates| - 1]);
      ListenerCounts(prefix);
      CountOnAppend(ListenerTrace(prefix), step, Delegate);
      CountOnAppend(ListenerTrace(prefix), step, Completion);
      CountOnAppend(ListenerTrace(prefix), step, StoreRequest);
    }
  }

  /** Running the listener one update further appends that update's turn. */
  lemma ListenerTraceStep(updates: seq<VerificationResult>, i: nat)
    requires i < |updates|
    ensures ListenerTrace(updates[..i + 1]) == ListenerTrace(updates[..i]) + UpdateEvents(updates[i])
  {
    assert updates[..i + 1][..i] == updates[..i];
  }

  /** The listener reports, in order, exactly the records collectCurrentEntitlements would keep
      from the same results, and calls finish() once for each verified update, in order, with
      that update's own transaction id. */
  lemma {:induction false} ListenerDeliversVerified(updates: seq<VerificationResult>)
    ensures FinishedPurchases(ListenerTrace(updates)) == Entitlements.VerifiedTransactions(updates)
    ensures FinishedIds(ListenerTrace(updates)) == Entitlements.VerifiedIds(updates)
    ensures CountOn(ListenerTrace(updates), Finish) == |Entitlements.VerifiedTransactions(updates)|
    decreases |updates|
  {
    if updates != [] {
      var prefix := updates[..|updates| - 1];
      var last := updates[|updates| - 1];
      ListenerDeliversVerified(prefix);
      FinishedPurchasesAppend(ListenerTrace(prefix), UpdateEvents(last));
      FinishedIdsAppend(ListenerTrace(prefix), UpdateEvents(last));
      UpdateFinished(last);
    }
  }

  /** What one turn contributes to the finished purchases and the finished ids. */
  lemma UpdateFinished(update: VerificationResult)
    ensures FinishedPurchases(UpdateEvents(update)) ==
              if update.Verified? then [FromTransaction(update.transaction)] else []
    ensures FinishedIds(UpdateEvents(update)) == if update.Verified? then [update.transaction.id] else []
  {
    var step := UpdateEvents(update);
    if update.Verified? {
      assert step[..1] == [step[0]] && step[..1][..0] == [];
    } else {
      assert step[..0] == [];
    }
  }
}
