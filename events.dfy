/** What PaymentManager does that can be observed from outside: delegate
    callbacks, calls of the caller's completion handler, and calls into
    StoreKit. Each operation of the model appends its events to a trace. */
module Events {
  import opened Wrappers
  import opened PaymentValues

  /** Product.PurchaseOption; the framework only ever sets the account token. */
  datatype PurchaseOption = AppAccountToken(token: Uuid)

  datatype Event =
      // PaymentManagerDelegate callbacks
    | DidFinishPurchase(productId: string, transaction: PaymentTransaction)
    | DidFailPurchase(productId: string, error: string)
    | DidUpdateProducts(products: seq<PaymentProduct>)
    | DidRestorePurchases(transactions: seq<PaymentTransaction>)
      // completion handlers: (Bool, String?) and, for checkPurchaseStatus, (Bool, PaymentTransaction?)
    | Completed(success: bool, message: Option<string>)
    | StatusReported(found: bool, entitlement: Option<PaymentTransaction>)
      // calls into StoreKit
    | ProductsRequested(ids: set<string>)
    | PurchaseSubmitted(product: Product, options: set<PurchaseOption>)
    | SyncRequested
    | TransactionFinished(transactionId: UInt64)

  /** Who an event is addressed to; Finish is Transaction.finish(). */
  datatype Channel = Delegate | Completion | StoreRequest | Finish

  function ChannelOf(e: Event): (ch: Channel) {
    match e
    case DidFinishPurchase(_, _) => Delegate
    case DidFailPurchase(_, _) => Delegate
    case DidUpdateProducts(_) => Delegate
    case DidRestorePurchases(_) => Delegate
    case Completed(_, _) => Completion
    case StatusReported(_, _) => Completion
    case ProductsRequested(_) => StoreRequest
    case PurchaseSubmitted(_, _) => StoreRequest
    case SyncRequested => StoreRequest
    case TransactionFinished(_) => Finish
  }

  /** How many events of a trace go to channel `ch`. */
  function CountOn(evs: seq<Event>, ch: Channel): (n: nat)
    ensures n <= |evs|
  {
    if evs == [] then 0
    else CountOn(evs[..|evs| - 1], ch) + (if ChannelOf(evs[|evs| - 1]) == ch then 1 else 0)
  }

  /** A count of zero means no event of the trace goes to that channel. */
  lemma {:induction false} CountOnZero(evs: seq<Event>, ch: Channel)
    ensures CountOn(evs, ch) == 0 <==> forall i :: 0 <= i < |evs| ==> ChannelOf(evs[i]) != ch
    decreases |evs|
  {
    if evs != [] {
      var prefix := evs[..|evs| - 1];
      CountOnZero(prefix, ch);
      assert forall i :: 0 <= i < |prefix| ==> prefix[i] == evs[i];
    }
  }

  lemma {:induction false} CountOnAppend(a: seq<Event>, b: seq<Event>, ch: Channel)
    ensures CountOn(a + b, ch) == CountOn(a, ch) + CountOn(b, ch)
    decreases |b|
  {
    if b == [] {
      assert a + b == a;
    } else {
      assert (a + b)[..|a + b| - 1] == a + b[..|b| - 1];
      CountOnAppend(a, b[..|b| - 1], ch);
    }
  }

  function Tally(e: Event, ch: Channel): (n: nat) {
    if ChannelOf(e) == ch then 1 else 0
  }

  /** Counting over the short traces the operations emit. */
  lemma CountOnShort(a: Event, b: Event, c: Event)
    ensures CountOn([a], Delegate) == Tally(a, Delegate)
    ensures CountOn([a], Completion) == Tally(a, Completion)
    ensures CountOn([a], StoreRequest) == Tally(a, StoreRequest)
    ensures CountOn([a], Finish) == Tally(a, Finish)
    ensures CountOn([a, b], Delegate) == Tally(a, Delegate) + Tally(b, Delegate)
    ensures CountOn([a, b], Completion) == Tally(a, Completion) + Tally(b, Completion)
    ensures CountOn([a, b], StoreRequest) == Tally(a, StoreRequest) + Tally(b, StoreRequest)
    ensures CountOn([a, b], Finish) == Tally(a, Finish) + Tally(b, Finish)
    ensures CountOn([a, b, c], Delegate) == Tally(a, Delegate) + Tally(b, Delegate) + Tally(c, Delegate)
    ensures CountOn([a, b, c], Completion) == Tally(a, Completion) + Tally(b, Completion) + Tally(c, Completion)
    ensures CountOn([a, b, c], StoreRequest) == Tally(a, StoreRequest) + Tally(b, StoreRequest) + Tally(c, StoreRequest)
    ensures CountOn([a, b, c], Finish) == Tally(a, Finish) + Tally(b, Finish) + Tally(c, Finish)
  {
    assert [a, b][..1] == [a] && [a][..0] == [];
    assert [a, b, c][..2] == [a, b];
  }

  /** The transactions of the DidFinishPurchase events of a trace, in trace order. */
  function FinishedPurchases(evs: seq<Event>): (ts: seq<PaymentTransaction>)
    ensures |ts| <= |evs|
  {
    if evs == [] then []
    else
      var e := evs[|evs| - 1];
      FinishedPurchases(evs[..|evs| - 1]) + (if e.DidFinishPurchase? then [e.transaction] else [])
  }

  lemma {:induction false} FinishedPurchasesAppend(a: seq<Event>, b: seq<Event>)
    ensures FinishedPurchases(a + b) == FinishedPurchases(a) + FinishedPurchases(b)
    decreases |b|
  {
    if b == [] {
      assert a + b == a;
    } else {
      assert (a + b)[..|a + b| - 1] == a + b[..|b| - 1];
      FinishedPurchasesAppend(a, b[..|b| - 1]);
    }
  }

  /** The ids of the TransactionFinished events of a trace, in trace order. */
  function FinishedIds(evs: seq<Event>): (ids: seq<UInt64>)
    ensures |ids| == CountOn(evs, Finish)
  {
    if evs == [] then []
    else
      var e := evs[|evs| - 1];
      FinishedIds(evs[..|evs| - 1]) + (if e.TransactionFinished? then [e.transactionId] else [])
  }

  lemma {:induction false} FinishedIdsAppend(a: seq<Event>, b: seq<Event>)
    ensures FinishedIds(a + b) == FinishedIds(a) + FinishedIds(b)
    decreases |b|
  {
    if b == [] {
      assert a + b == a;
    } else {
      assert (a + b)[..|a + b| - 1] == a + b[..|b| - 1];
      FinishedIdsAppend(a, b[..|b| - 1]);
    }
  }
}
