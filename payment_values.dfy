/** StoreKit's values as they reach PaymentManager, and their translation
    into the framework's PaymentProduct and PaymentTransaction records
    (PaymentProduct.init and PaymentTransaction.init). */
module PaymentValues {
  import opened Wrappers
  import DecimalText

  type UInt64 = n: nat | n < 0x1_0000_0000_0000_0000

  /** Opaque stand-ins: the framework copies these without looking inside. */
  datatype Decimal = Decimal(significand: int, exponent: int)
  datatype Date = Date(sinceReferenceDate: int)
  datatype Uuid = Uuid(bits: nat)

  /** StoreKit's product kinds; UnlistedType is any kind beyond the four the framework names. */
  datatype ProductType =
    | Consumable
    | NonConsumable
    | AutoRenewable
    | NonRenewable
    | UnlistedType(rawValue: string)

  /** StoreKit's revocation reasons; UnlistedReason is any reason beyond the two the framework names. */
  datatype RevocationReason =
    | DeveloperIssue
    | Other
    | UnlistedReason(rawValue: int)

  /** A StoreKit product, as returned by a product lookup. */
  datatype Product = Product(
    id: string,
    displayName: string,
    description: string,
    price: Decimal,
    displayPrice: string,
    productType: ProductType)

  /** A StoreKit transaction. */
  datatype Transaction = Transaction(
    id: UInt64,
    productID: string,
    purchaseDate: Date,
    isUpgraded: bool,
    revocationDate: Option<Date>,
    revocationReason: Option<RevocationReason>)

  /** StoreKit's signature check on a transaction; `error` is the text of the verification error. */
  datatype VerificationResult =
    | Verified(transaction: Transaction)
    | Unverified(transaction: Transaction, error: string)

  /** The framework's own product record. */
  datatype PaymentProduct = PaymentProduct(
    productId: string,
    displayName: string,
    productDescription: string,
    price: Decimal,
    displayPrice: string,
    productType: string)

  /** The framework's own transaction record. */
  datatype PaymentTransaction = PaymentTransaction(
    transactionId: string,
    productId: string,
    purchaseDate: Date,
    isUpgraded: bool,
    revocationDate: Option<Date>,
    revocationReason: Option<string>)

  const ProductTypeNames: set<string> :=
    {"consumable", "nonConsumable", "autoRenewable", "nonRenewable", "unknown"}

  const RevocationReasonNames: set<string> := {"developerIssue", "other", "unknown"}

  /** The name PaymentProduct gives a product kind; every kind it does not list is "unknown". */
  function TypeName(t: ProductType): (name: string)
    ensures name in ProductTypeNames
    ensures name == "unknown" <==> t.UnlistedType?
  {
    match t
    case Consumable => "consumable"
    case NonConsumable => "nonConsumable"
    case AutoRenewable => "autoRenewable"
    case NonRenewable => "nonRenewable"
    case UnlistedType(_) => "unknown"
  }

  /** The four listed kinds get four different names. */
  lemma TypeNameInjective(s: ProductType, t: ProductType)
    requires !s.UnlistedType? && TypeName(s) == TypeName(t)
    ensures s == t
  {
  }

  /** The name PaymentTransaction gives a revocation reason; every reason it does not list is "unknown". */
  function ReasonName(r: RevocationReason): (name: string)
    ensures name in RevocationReasonNames
    ensures name == "unknown" <==> r.UnlistedReason?
  {
    match r
    case DeveloperIssue => "developerIssue"
    case Other => "other"
    case UnlistedReason(_) => "unknown"
  }

  /** PaymentProduct.init: copies the descriptive fields and names the kind. */
  function FromProduct(p: Product): (r: PaymentProduct)
    ensures r.productId == p.id
    ensures r.displayName == p.displayName && r.productDescription == p.description
    ensures r.price == p.price && r.displayPrice == p.displayPrice
    ensures r.productType in ProductTypeNames
    ensures r.productType == "unknown" <==> p.productType.UnlistedType?
  {
    PaymentProduct(p.id, p.displayName, p.description, p.price, p.displayPrice, TypeName(p.productType))
  }

  /** PaymentTransaction.init: the id becomes decimal text, the reason (if any) its name. */
  function FromTransaction(t: Transaction): (r: PaymentTransaction)
    ensures DecimalText.AllDigits(r.transactionId) && DecimalText.Value(r.transactionId) == t.id
    ensures r.productId == t.productID
    ensures r.purchaseDate == t.purchaseDate && r.isUpgraded == t.isUpgraded
    ensures r.revocationDate == t.revocationDate
    ensures r.revocationReason.None? <==> t.revocationReason.None?
    ensures r.revocationReason.Some? ==>
              r.revocationReason.value in RevocationReasonNames &&
              (r.revocationReason.value == "unknown" <==> t.revocationReason.value.UnlistedReason?)
  {
    DecimalText.ValueOfRender(t.id);
    PaymentTransaction(
      DecimalText.Render(t.id),
      t.productID,
      t.purchaseDate,
      t.isUpgraded,
      t.revocationDate,
      match t.revocationReason
      case Some(reason) => Some(ReasonName(reason))
      case None => None)
  }

  /** Transactions with different ids get different transactionId strings. */
  lemma TransactionIdsDistinct(s: Transaction, t: Transaction)
    requires s.id != t.id
    ensures FromTransaction(s).transactionId != FromTransaction(t).transactionId
  {
    if FromTransaction(s).transactionId == FromTransaction(t).transactionId {
      DecimalText.RenderInjective(s.id, t.id);
    }
  }

  /** The products of a lookup, translated one by one and kept in order. */
  function FromProducts(ps: seq<Product>): (rs: seq<PaymentProduct>)
    ensures |rs| == |ps|
    ensures forall i :: 0 <= i < |ps| ==> rs[i] == FromProduct(ps[i])
  {
    seq(|ps|, i requires 0 <= i < |ps| => FromProduct(ps[i]))
  }
}
