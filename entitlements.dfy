/** The two scans of Transaction.currentEntitlements: collecting the verified
    transactions (collectCurrentEntitlements, used by restorePurchases) and
    finding the first verified one for a product (findCurrentEntitlement,
    used by checkPurchaseStatus). The stream is given as a finite sequence. */
module Entitlements {
  import opened Wrappers
  import opened PaymentValues

  /** The records of the verified entries of a stream, in stream order; unverified entries are dropped. */
  function VerifiedTransactions(stream: seq<VerificationResult>): (ts: seq<PaymentTransaction>)
    ensures |ts| <= |stream|
  {
    if stream == [] then []
    else
      var last := stream[|stream| - 1];
      VerifiedTransactions(stream[..|stream| - 1])
        + (if last.Verified? then [FromTransaction(last.transaction)] else [])
  }

  /** The ids of the verified entries of a stream, in stream order. */
  function VerifiedIds(stream: seq<VerificationResult>): (ids: seq<UInt64>)
    ensures |ids| == |VerifiedTransactions(stream)|
  {
    if stream == [] then []
    else
      var last := stream[|stream| - 1];
      VerifiedIds(stream[..|stream| - 1]) + (if last.Verified? then [last.transaction.id] else [])
  }

  /** Scanning two streams one after the other collects the two results one after the other. */
  lemma {:induction false} VerifiedTransactionsAppend(a: seq<VerificationResult>, b: seq<VerificationResult>)
    ensures VerifiedTransactions(a + b) == VerifiedTransactions(a) + VerifiedTransactions(b)
    decreases |b|
  {
    if b == [] {
      assert a + b == a;
    } else {
      assert (a + b)[..|a + b| - 1] == a + b[..|b| - 1];
      VerifiedTransactionsAppend(a, b[..|b| - 1]);
    }
  }

  /** A record is collected exactly when some verified entry of the stream translates to it. */
  lemma {:induction false} VerifiedTransactionsMembers(stream: seq<VerificationResult>, x: PaymentTransaction)
    ensures x in VerifiedTransactions(stream) <==>
              exists i :: 0 <= i < |stream| && stream[i].Verified? && x == FromTransaction(stream[i].transaction)
    decreases |stream|
  {
    if stream != [] {
      var prefix := stream[..|stream| - 1];
      VerifiedTransactionsMembers(prefix, x);
      if x in VerifiedTransactions(prefix) {
        var i :| 0 <= i < |prefix| && prefix[i].Verified? && x == FromTransaction(prefix[i].transaction);
        assert stream[i] == prefix[i];
      }
      if exists i :: 0 <= i < |stream| && stream[i].Verified? && x == FromTransaction(stream[i].transaction) {
        var i :| 0 <= i < |stream| && stream[i].Verified? && x == FromTransaction(stream[i].transaction);
        if i < |prefix| {
          assert prefix[i] == stream[i];
        }
      }
    }
  }

  /** Nothing is dropped exactly when every entry is verified. */
  lemma {:induction false} AllKeptIffAllVerified(stream: seq<VerificationResult>)
    ensures |VerifiedTransactions(stream)| == |stream| <==> forall i :: 0 <= i < |stream| ==> stream[i].Verified?
    decreases |stream|
  {
    if stream != [] {
      var prefix := stream[..|stream| - 1];
      AllKeptIffAllVerified(prefix);
      assert forall i :: 0 <= i < |prefix| ==> prefix[i] == stream[i];
    }
  }

  /** The record of the first verified entry for `productId`, if any. */
  function FirstEntitlement(stream: seq<VerificationResult>, productId: string): (found: Option<PaymentTransaction>)
    ensures found.Some? ==> found.value.productId == productId
  {
    if stream == [] then None
    else if stream[0].Verified? && stream[0].transaction.productID == productId then
      Some(FromTransaction(stream[0].transaction))
    else FirstEntitlement(stream[1..], productId)
  }

  /** Nothing is found exactly when no verified entry is for `productId`; unverified entries never count. */
  lemma {:induction false} FirstEntitlementNone(stream: seq<VerificationResult>, productId: string)
    ensures FirstEntitlement(stream, productId).None? <==>
              forall i :: 0 <= i < |stream| && stream[i].Verified? ==> stream[i].transaction.productID != productId
    decreases |stream|
  {
    if stream != [] {
      FirstEntitlementNone(stream[1..], productId);
      assert forall i :: 1 <= i < |stream| ==> stream[i] == stream[1..][i - 1];
    }
  }

  /** The verified entry for `productId` that comes before every other one is the one found. */
  lemma {:induction false} FirstEntitlementAt(stream: seq<VerificationResult>, productId: string, i: nat)
    requires i < |stream| && stream[i].Verified? && stream[i].transaction.productID == productId
    requires forall j :: 0 <= j < i && stream[j].Verified? ==> stream[j].transaction.productID != productId
    ensures FirstEntitlement(stream, productId) == Some(FromTransaction(stream[i].transaction))
    decreases i
  {
    if i > 0 {
      FirstEntitlementAt(stream[1..], productId, i - 1);
    }
  }

  /** The first record of `ts` for `productId`, if any. */
  function FirstFor(ts: seq<PaymentTransaction>, productId: string): (found: Option<PaymentTransaction>) {
    if ts == [] then None
    else if ts[0].productId == productId then Some(ts[0])
    else FirstFor(ts[1..], productId)
  }

  /** Finding agrees with collecting: the entitlement found is the first collected record for the product. */
  lemma {:induction false} FirstEntitlementAmongCollected(stream: seq<VerificationResult>, productId: string)
    ensures FirstEntitlement(stream, productId) == FirstFor(VerifiedTransactions(stream), productId)
    decreases |stream|
  {
    if stream != [] {
      var head, tail := stream[..1], stream[1..];
      assert stream == head + tail;
      VerifiedTransactionsAppend(head, tail);
      assert head[..0] == [];
      FirstEntitlementAmongCollected(tail, productId);
      var collected := VerifiedTransactions(stream);
      if stream[0].Verified? {
        assert VerifiedTransactions(head) == [FromTransaction(stream[0].transaction)];
        assert collected[1..] == VerifiedTransactions(tail);
      } else {
        assert VerifiedTransactions(head) == [];
        assert collected == VerifiedTransactions(tail);
      }
    }
  }
}
