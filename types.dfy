/** The canonical records every platform parser produces and the store keeps. */
module Types {
  import opened Wrappers

  /** Identifiers the store assigns on first persistence (opaque keys). */
  type Id = nat

  /** Instants, as milliseconds since the epoch. */
  type Millis = int

  datatype Platform = Android | IOS

  datatype CancellationReason =
    | Refunded
    | CustomerCancelled
    | DeveloperCancelled
    | SubscriptionReplaced
    | RejectedPriceIncrease
    | BillingError
    | ProductNotAvailable
    | UnknownReason

  datatype PeriodType = Intro | Normal | Trial

  datatype SubscriptionState = Active | Expired | GracePeriod | RetryPeriod | Paused

  datatype SubscriptionStatus =
    | StatusUnknown
    | StatusActive
    | StatusExpired
    | StatusCancelled
    | StatusRefunded
    | StatusTrial
    | StatusGracePeriod
    | StatusRetryPeriod
    | StatusPaused

  datatype RefundReason = Issue | SubscriptionReplace | Other

  datatype ProductType = Consumable | RenewableSubscription

  /** The event handed to the webhook: "no_change", "purchase", "refund", ... */
  datatype PurchaseEventType =
    | NoChange
    | NewPurchase
    | Refund
    | Renewal
    | RenewalRetry
    | GracePeriodExpire
    | ProductChange
    | Replace
    | Cancel
    | Uncancel
    | Expire

  /** A catalog entry, as the SKU lookup returns it. */
  datatype Product = Product(id: Id, price: int, currency: string)

  /** One normalised order (one link of a renewal chain for subscriptions). */
  datatype Purchase = Purchase(
    id: Option<Id>,
    linkedPurchaseId: Option<Id>,
    originalPurchaseId: Option<Id>,
    receiptId: Option<Id>,
    userId: Option<string>,
    productId: Option<Id>,
    isSandbox: bool,
    isRefunded: bool,
    quantity: int,
    platform: Platform,
    orderId: string,
    productSku: string,
    productType: Option<ProductType>,
    purchaseDate: Millis,
    receiptDate: Millis,
    refundDate: Option<Millis>,
    refundReason: Option<RefundReason>,
    price: Option<int>,
    currency: Option<string>,
    convertedPrice: Option<int>,
    convertedCurrency: Option<string>,
    isSubscription: bool,
    isTrial: Option<bool>,
    isIntroOfferPeriod: Option<bool>,
    isSubscriptionActive: Option<bool>,
    isSubscriptionRenewable: Option<bool>,
    isSubscriptionRetryPeriod: Option<bool>,
    isSubscriptionGracePeriod: Option<bool>,
    isSubscriptionPaused: Option<bool>,
    isTrialConversion: Option<bool>,
    originalOrderId: Option<string>,
    linkedOrderId: Option<string>,
    subscriptionPeriodType: Option<PeriodType>,
    subscriptionState: Option<SubscriptionState>,
    subscriptionStatus: Option<SubscriptionStatus>,
    subscriptionGroup: Option<string>,
    subscriptionRenewalProductSku: Option<string>,
    cancellationReason: Option<CancellationReason>,
    expirationDate: Option<Millis>,
    gracePeriodEndDate: Option<Millis>,
    token: Option<string>,
    linkedToken: Option<string>)

  /** A validated token, keyed by the hash of that token. The raw provider
      payload kept beside it is opaque and not modelled. */
  datatype Receipt = Receipt(
    id: Option<Id>,
    hash: string,
    userId: Option<string>,
    platform: Platform,
    token: string,
    receiptDate: Millis)

  /** A parser's output: one receipt and its purchases, newest first. */
  datatype ParsedReceipt = ParsedReceipt(receipt: Receipt, purchases: seq<Purchase>)

  datatype PurchaseEvent = PurchaseEvent(eventType: PurchaseEventType, data: Purchase)
}
