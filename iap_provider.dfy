/** The platform-independent classifiers shared by both parsers and by the
    reconciliation: period type, state and status of a subscription, the
    equality used to skip no-op writes, and the event type of a change. */
module IAPProvider {
  import opened Wrappers
  import opened Types

  // ---------------------------------------------------------------------------
  // Subscription classifiers: strict first-match-wins chains
  // ---------------------------------------------------------------------------

  /** getSubscriptionPeriodType: trial over intro over normal. */
  function PeriodTypeOf(p: Purchase): (r: PeriodType)
    ensures r == Trial <==> IsTrue(p.isTrial)
    ensures r == Intro <==> !IsTrue(p.isTrial) && IsTrue(p.isIntroOfferPeriod)
    ensures r == Normal <==> !IsTrue(p.isTrial) && !IsTrue(p.isIntroOfferPeriod)
  {
    if IsTrue(p.isTrial) then Trial
    else if IsTrue(p.isIntroOfferPeriod) then Intro
    else Normal
  }

  /** getSubscriptionState: active over grace over retry, else expired;
      it never yields Paused. */
  function StateOf(p: Purchase): (r: SubscriptionState)
    ensures r != Paused
    ensures r == Active <==> IsTrue(p.isSubscriptionActive)
    ensures r == GracePeriod <==>
      !IsTrue(p.isSubscriptionActive) && IsTrue(p.isSubscriptionGracePeriod)
    ensures r == RetryPeriod <==>
      !IsTrue(p.isSubscriptionActive) && !IsTrue(p.isSubscriptionGracePeriod)
      && IsTrue(p.isSubscriptionRetryPeriod)
    ensures r == Expired <==>
      !IsTrue(p.isSubscriptionActive) && !IsTrue(p.isSubscriptionGracePeriod)
      && !IsTrue(p.isSubscriptionRetryPeriod)
  {
    if IsTrue(p.isSubscriptionActive) then Active
    else if IsTrue(p.isSubscriptionGracePeriod) then GracePeriod
    else if IsTrue(p.isSubscriptionRetryPeriod) then RetryPeriod
    else Expired
  }

  /** A refund counts for the status unless it was caused by a replacement. */
  predicate RefundCounts(p: Purchase)
  {
    p.isRefunded && p.refundReason != Some(SubscriptionReplace)
  }

  predicate GraceSignal(p: Purchase)
  {
    p.subscriptionState == Some(GracePeriod) || IsTrue(p.isSubscriptionGracePeriod)
  }

  predicate RetrySignal(p: Purchase)
  {
    p.subscriptionState == Some(RetryPeriod) || IsTrue(p.isSubscriptionRetryPeriod)
  }

  predicate ExpirySignal(p: Purchase)
  {
    p.subscriptionState == Some(Expired)
    || (!IsTrue(p.isSubscriptionActive) && !IsTrue(p.isSubscriptionRenewable))
  }

  /** `now < expirationDate`; a missing date never lies in the future. */
  predicate ExpiresAfter(p: Purchase, now: Millis)
  {
    p.expirationDate.Some? && now < p.expirationDate.value
  }

  /** A subscription that none of the first five rules of the status chain
      (not a subscription, refunded, paused, grace, retry, expired) decides. */
  predicate Live(p: Purchase)
  {
    p.isSubscription && !RefundCounts(p) && p.subscriptionState != Some(Paused)
    && !GraceSignal(p) && !RetrySignal(p) && !ExpirySignal(p)
  }

  /** getSubscriptionStatus, with the wall clock as `now`. Each ensures names
      the exact set of purchases that receive one status. */
  function StatusOf(p: Purchase, now: Millis): (r: Option<SubscriptionStatus>)
    ensures r.None? <==> !p.isSubscription
    ensures r == Some(StatusRefunded) <==> p.isSubscription && RefundCounts(p)
    ensures r == Some(StatusPaused) <==>
      p.isSubscription && !RefundCounts(p) && p.subscriptionState == Some(Paused)
    ensures r == Some(StatusGracePeriod) <==>
      p.isSubscription && !RefundCounts(p) && p.subscriptionState != Some(Paused)
      && GraceSignal(p)
    ensures r == Some(StatusRetryPeriod) <==>
      p.isSubscription && !RefundCounts(p) && p.subscriptionState != Some(Paused)
      && !GraceSignal(p) && RetrySignal(p)
    ensures r == Some(StatusTrial) <==>
      Live(p) && p.subscriptionPeriodType == Some(Trial) && IsTrue(p.isSubscriptionRenewable)
    ensures r == Some(StatusCancelled) <==>
      Live(p) && p.subscriptionPeriodType != Some(Trial)
      && IsTrue(p.isSubscriptionActive) && !IsTrue(p.isSubscriptionRenewable)
      && ExpiresAfter(p, now)
    ensures r == Some(StatusActive) <==>
      Live(p) && p.subscriptionPeriodType != Some(Trial)
      && IsTrue(p.isSubscriptionRenewable) && p.subscriptionState == Some(Active)
    ensures r == Some(StatusUnknown) <==>
      Live(p) && p.subscriptionPeriodType != Some(Trial)
      && IsTrue(p.isSubscriptionRenewable) && p.subscriptionState != Some(Active)
    ensures r == Some(StatusExpired) <==>
      p.isSubscription && !RefundCounts(p) && p.subscriptionState != Some(Paused)
      && !GraceSignal(p) && !RetrySignal(p)
      && (ExpirySignal(p)
          || (p.subscriptionPeriodType == Some(Trial) && !IsTrue(p.isSubscriptionRenewable))
          || (IsTrue(p.isSubscriptionActive) && !IsTrue(p.isSubscriptionRenewable)
              && !ExpiresAfter(p, now)))
  {
    if !p.isSubscription then None
    else if RefundCounts(p) then Some(StatusRefunded)
    else if p.subscriptionState == Some(Paused) then Some(StatusPaused)
    else if GraceSignal(p) then Some(StatusGracePeriod)
    else if RetrySignal(p) then Some(StatusRetryPeriod)
    else if ExpirySignal(p) then Some(StatusExpired)
    else if p.subscriptionPeriodType == Some(Trial) then
      (if !IsTrue(p.isSubscriptionRenewable) then Some(StatusExpired) else Some(StatusTrial))
    else if IsTrue(p.isSubscriptionActive) && !IsTrue(p.isSubscriptionRenewable) then
      (if ExpiresAfter(p, now) then Some(StatusCancelled) else Some(StatusExpired))
    else if p.subscriptionState == Some(Active) then Some(StatusActive)
    else Some(StatusUnknown)
  }

  /** Both parsers store the state computed from the flags before they compute
      the status. For such a purchase the status is never "paused", the grace
      flag beats every status below it, and "active" or "cancelled" imply the
      active flag; the "unknown" fallback is unreachable. */
  lemma {:induction false} ClassifiedStatus(p: Purchase, now: Millis)
    requires p.isSubscription && p.subscriptionState == Some(StateOf(p))
    ensures StatusOf(p, now) != Some(StatusPaused)
    ensures !RefundCounts(p) && IsTrue(p.isSubscriptionGracePeriod) ==>
      StatusOf(p, now) == Some(StatusGracePeriod)
    ensures StatusOf(p, now) in {Some(StatusActive), Some(StatusCancelled)} ==>
      IsTrue(p.isSubscriptionActive)
    ensures StatusOf(p, now) != Some(StatusUnknown)
  {
  }

  /** A purchase whose period type, state and status are the ones the
      classifiers compute from it. */
  predicate Classified(p: Purchase, now: Millis)
  {
    p.subscriptionPeriodType == Some(PeriodTypeOf(p))
    && p.subscriptionState == Some(StateOf(p))
    && p.subscriptionStatus == StatusOf(p, now)
  }

  /** The last three assignments of both parsers' subscription path: period
      type, then state, then status, each computed from the purchase as it
      stands. The result is classified and differs from `p` in those three
      fields only. */
  function Classify(p: Purchase, now: Millis): (q: Purchase)
    ensures Classified(q, now)
    ensures q == p.(subscriptionPeriodType := q.subscriptionPeriodType,
                    subscriptionState := q.subscriptionState,
                    subscriptionStatus := q.subscriptionStatus)
  {
    var withPeriod := p.(subscriptionPeriodType := Some(PeriodTypeOf(p)));
    var withState := withPeriod.(subscriptionState := Some(StateOf(withPeriod)));
    withState.(subscriptionStatus := StatusOf(withState, now))
  }

  /** Classifying a classified purchase changes nothing. */
  lemma ClassifyIdempotent(p: Purchase, now: Millis)
    requires Classified(p, now)
    ensures Classify(p, now) == p
  {
  }

  // ---------------------------------------------------------------------------
  // Equality used to decide whether a write is needed
  // ---------------------------------------------------------------------------

  /** compareDates: two missing dates are equal, one missing date differs,
      otherwise the instants are compared. */
  function CompareDates(left: Option<Millis>, right: Option<Millis>): (r: bool)
    ensures r <==> left == right
  {
    if left.None? && right.Some? then false
    else if left.Some? && right.None? then false
    else if left.Some? && right.Some? then left.value == right.value
    else true
  }

  /** The fields purchasesEqual does not look at, blanked. */
  function Erase(p: Purchase): Purchase
  {
    p.(userId := None, quantity := 0, originalPurchaseId := None,
       linkedPurchaseId := None, isTrialConversion := None, token := None)
  }

  /** purchasesEqual: equality on every field except userId, quantity,
      originalPurchaseId, linkedPurchaseId, isTrialConversion and token. */
  predicate PurchasesEqual(left: Purchase, right: Purchase)
  {
    left.id == right.id
    && left.receiptId == right.receiptId
    && left.productId == right.productId
    && left.isSandbox == right.isSandbox
    && left.isRefunded == right.isRefunded
    && left.platform == right.platform
    && left.orderId == right.orderId
    && left.productSku == right.productSku
    && left.productType == right.productType
    && CompareDates(Some(left.purchaseDate), Some(right.purchaseDate))
    && left.price == right.price
    && left.currency == right.currency
    && left.convertedPrice == right.convertedPrice
    && left.convertedCurrency == right.convertedCurrency
    && CompareDates(Some(left.receiptDate), Some(right.receiptDate))
    && CompareDates(left.refundDate, right.refundDate)
    && left.refundReason == right.refundReason
    && left.isSubscription == right.isSubscription
    && left.isTrial == right.isTrial
    && left.isIntroOfferPeriod == right.isIntroOfferPeriod
    && left.isSubscriptionActive == right.isSubscriptionActive
    && left.isSubscriptionRenewable == right.isSubscriptionRenewable
    && left.isSubscriptionRetryPeriod == right.isSubscriptionRetryPeriod
    && left.isSubscriptionGracePeriod == right.isSubscriptionGracePeriod
    && left.isSubscriptionPaused == right.isSubscriptionPaused
    && left.originalOrderId == right.originalOrderId
    && left.linkedOrderId == right.linkedOrderId
    && left.subscriptionPeriodType == right.subscriptionPeriodType
    && left.subscriptionState == right.subscriptionState
    && left.subscriptionStatus == right.subscriptionStatus
    && left.subscriptionGroup == right.subscriptionGroup
    && left.subscriptionRenewalProductSku == right.subscriptionRenewalProductSku
    && left.cancellationReason == right.cancellationReason
    && CompareDates(left.expirationDate, right.expirationDate)
    && CompareDates(left.gracePeriodEndDate, right.gracePeriodEndDate)
    && left.linkedToken == right.linkedToken
  }

  /** purchasesEqual is equality up to the fields it skips: user, quantity,
      the purchase links, the trial-conversion flag and the token. */
  lemma PurchasesEqualSkips(left: Purchase, right: Purchase)
    ensures PurchasesEqual(left, right) <==> Erase(left) == Erase(right)
  {
    if PurchasesEqual(left, right) {
      assert Erase(left) == Erase(right);
    }
  }

  // ---------------------------------------------------------------------------
  // Event type of a reconciliation
  // ---------------------------------------------------------------------------

  /** The first rule of getPurchaseEventType: treat the change as a new purchase. */
  predicate IsFreshPurchase(before: Option<Purchase>, after: Purchase)
  {
    !after.isSubscription || before.None?
    || before.value.originalOrderId != after.originalOrderId
    || (before.value.subscriptionStatus == Some(StatusExpired)
        && after.subscriptionStatus == Some(StatusActive))
  }

  predicate NewlyRefunded(before: Purchase, after: Purchase)
  {
    !before.isRefunded && after.isRefunded
  }

  /** Same chain, no new refund and the same SKU: the status rules decide. */
  predicate Continuing(before: Option<Purchase>, after: Purchase)
  {
    !IsFreshPurchase(before, after) && !NewlyRefunded(before.value, after)
    && before.value.productSku == after.productSku
  }

  predicate StatusChanged(before: Option<Purchase>, after: Purchase)
  {
    Continuing(before, after) && before.value.subscriptionStatus != after.subscriptionStatus
  }

  /** The renewal SKU is newly set and names another product. */
  predicate RenewalSkuChanged(before: Purchase, after: Purchase)
  {
    !Present(before.subscriptionRenewalProductSku) && Present(after.subscriptionRenewalProductSku)
    && after.productSku != after.subscriptionRenewalProductSku.value
  }

  /** getPurchaseEventType, comparing the snapshot taken before the write with
      the purchase as written. */
  function EventTypeOf(before: Option<Purchase>, after: Purchase): (r: PurchaseEventType)
    ensures r == NewPurchase <==> IsFreshPurchase(before, after)
    ensures r == Refund <==> !IsFreshPurchase(before, after) && NewlyRefunded(before.value, after)
    ensures r == Replace <==>
      !IsFreshPurchase(before, after) && !NewlyRefunded(before.value, after)
      && before.value.productSku != after.productSku
    ensures r == Renewal <==>
      Continuing(before, after) && before.value.subscriptionStatus == after.subscriptionStatus
      && before.value.orderId != after.orderId
    ensures r == RenewalRetry <==>
      StatusChanged(before, after) && after.subscriptionStatus == Some(StatusRetryPeriod)
    ensures r == Cancel <==>
      StatusChanged(before, after) && after.subscriptionStatus == Some(StatusCancelled)
    ensures r == GracePeriodExpire <==>
      StatusChanged(before, after) && after.subscriptionStatus == Some(StatusExpired)
      && IsTrue(before.value.isSubscriptionGracePeriod)
    ensures r == Expire <==>
      StatusChanged(before, after) && after.subscriptionStatus == Some(StatusExpired)
      && !IsTrue(before.value.isSubscriptionGracePeriod)
    ensures r == Uncancel <==>
      StatusChanged(before, after) && before.value.subscriptionStatus == Some(StatusCancelled)
      && after.subscriptionStatus == Some(StatusActive)
    ensures r == ProductChange <==>
      StatusChanged(before, after)
      && after.subscriptionStatus !in {Some(StatusRetryPeriod), Some(StatusCancelled), Some(StatusExpired)}
      && !(before.value.subscriptionStatus == Some(StatusCancelled)
           && after.subscriptionStatus == Some(StatusActive))
      && RenewalSkuChanged(before.value, after)
  {
    if IsFreshPurchase(before, after) then NewPurchase
    else if NewlyRefunded(before.value, after) then Refund
    else if before.value.productSku != after.productSku then Replace
    else if before.value.subscriptionStatus != after.subscriptionStatus then
      (if after.subscriptionStatus == Some(StatusRetryPeriod) then RenewalRetry
       else if after.subscriptionStatus == Some(StatusCancelled) then Cancel
       else if after.subscriptionStatus == Some(StatusExpired) then
         (if IsTrue(before.value.isSubscriptionGracePeriod) then GracePeriodExpire else Expire)
       else if before.value.subscriptionStatus == Some(StatusCancelled)
               && after.subscriptionStatus == Some(StatusActive) then Uncancel
       else if RenewalSkuChanged(before.value, after) then ProductChange
       else NoChange)
    else if before.value.orderId != after.orderId then Renewal
    else NoChange
  }

  /** Comparing a subscription with an unchanged copy of itself raises no
      event. */
  lemma {:induction false} EventTypeOfUnchanged(p: Purchase)
    requires p.isSubscription
    ensures EventTypeOf(Some(p), p) == NoChange
  {
  }

  /** The next order of the same chain, otherwise unchanged, is a renewal. */
  lemma EventTypeOfNextOrder(p: Purchase, orderId: string)
    requires p.isSubscription && orderId != p.orderId
    ensures EventTypeOf(Some(p), p.(orderId := orderId)) == Renewal
  {
  }
}
