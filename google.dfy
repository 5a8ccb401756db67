/** The Google parser: a Play Developer API purchase resource becomes one
    receipt and exactly one purchase. */
module Google {
  import opened Wrappers
  import opened Types
  import opened Text
  import opened IAPProvider

  /** The fields of a `SubscriptionPurchase` or `ProductPurchase` resource
      the parser reads; `kind` tells the two apart. Millisecond timestamps
      are already parsed. `hasCancelSurveyResult` is the truthiness of the
      `cancelSurveyResult` object. */
  datatype ReceiptData = ReceiptData(
    kind: string,
    orderId: string,
    purchaseTimeMillis: Millis,
    startTimeMillis: Millis,
    expiryTimeMillis: Option<Millis>,
    quantity: int,
    purchaseType: Option<int>,
    paymentState: Option<int>,
    autoRenewing: Option<bool>,
    cancelReason: Option<int>,
    hasCancelSurveyResult: bool,
    linkedPurchaseToken: Option<string>)

  const SubscriptionKind: string := "androidpublisher#subscriptionPurchase"

  /** `purchaseType && purchaseType === 0`: 0 short-circuits to the falsy 0,
      any other value fails the comparison, so the flag is never truthy. */
  function SandboxFlag(purchaseType: Option<int>): (r: bool)
    ensures !r
  {
    purchaseType.Some? && purchaseType.value != 0 && purchaseType.value == 0
  }

  // ---------------------------------------------------------------------------
  // Order-id suffix
  // ---------------------------------------------------------------------------

  /** JavaScript `n - 1` on a number that may be NaN. */
  function Decrement(n: Option<int>): Option<int>
  {
    if n.None? then None else Some(n.value - 1)
  }

  /** The original and linked order ids of a Google order id: the part
      before the first "..", and, when there is a second part, the original
      id followed by ".." and the second part's value minus one. */
  function OrderIdLinks(orderId: string): (string, Option<string>)
  {
    var parts := Split(orderId);
    (parts[0],
     if |parts| > 1 then Some(parts[0] + Sep + NumberToString(Decrement(ParseInt(parts[1]))))
     else None)
  }

  /** The original order id is the order id up to its first "..": it holds
      no separator and the order id is it alone or it followed by "..". */
  lemma OriginalIsFirstPart(orderId: string)
    ensures var original := OrderIdLinks(orderId).0;
      NoSep(original)
      && (OrderIdLinks(orderId).1.None? <==> orderId == original)
      && (OrderIdLinks(orderId).1.Some? ==>
            |orderId| >= |original| + 2 && orderId[..|original| + 2] == original + Sep)
  {
    var parts := Split(orderId);
    SplitGlues(orderId);
    SplitPartsNoSep(orderId);
    if |parts| > 1 {
      assert orderId == parts[0] + (Sep + Join(parts[1..]));
      assert (parts[0] + (Sep + Join(parts[1..])))[..|parts[0]| + 2] == parts[0] + Sep;
      assert |Sep + Join(parts[1..])| >= 2;
    }
  }

  /** An order id without "..", the first purchase of a chain, has no
      linked order. */
  lemma NoSuffixNoLink(orderId: string)
    requires NoSep(orderId)
    ensures OrderIdLinks(orderId) == (orderId, None)
  {
    SplitNoSep(orderId);
  }

  /** The suffix round trip: for an id `x` with no ".." and no trailing dot,
      and any counter `n`, "x..n" links to "x..(n-1)". */
  lemma SuffixLinksToPrevious(x: string, n: int)
    requires NoSep(x) && !EndsWithDot(x)
    ensures OrderIdLinks(x + Sep + IntToString(n)) == (x, Some(x + Sep + IntToString(n - 1)))
  {
    IntToStringNoDot(n);
    SplitAtFirstSep(x, IntToString(n));
    SplitNoSep(IntToString(n));
    ParseIntToString(n);
  }

  /** The example "GPA.1..2": original "GPA.1", linked "GPA.1..1". */
  lemma OrderIdVector()
    ensures OrderIdLinks("GPA.1..2") == ("GPA.1", Some("GPA.1..1"))
  {
    assert NoSep("GPA.1") by {
      assert forall i :: 0 <= i < 4 ==> "GPA.1"[i + 1] != '.' || "GPA.1"[i] != '.';
    }
    SuffixLinksToPrevious("GPA.1", 2);
    assert "GPA.1" + Sep + IntToString(2) == "GPA.1..2";
    assert "GPA.1" + Sep + IntToString(1) == "GPA.1..1";
  }

  /** "X..0" links to "X..-1": the counter is not checked for zero. */
  lemma OrderIdZeroCounter()
    ensures OrderIdLinks("X..0") == ("X", Some("X..-1"))
  {
    SuffixLinksToPrevious("X", 0);
    assert "X" + Sep + IntToString(0) == "X..0";
    assert IntToString(-1) == "-1";
    assert "X" + Sep + IntToString(-1) == "X..-1";
  }

  // ---------------------------------------------------------------------------
  // Purchases
  // ---------------------------------------------------------------------------

  /** processPurchaseTransaction: a one-time product; the fields the source
      leaves undefined are `None`. */
  function ProcessPurchaseTransaction(data: ReceiptData, sku: string): (p: Purchase)
    ensures !p.isSubscription && !p.isRefunded && !p.isSandbox
    ensures p.refundDate.None? && p.refundReason.None?
    ensures p.receiptDate == p.purchaseDate == data.purchaseTimeMillis
    ensures p.orderId == data.orderId && p.productSku == sku && p.quantity == data.quantity
    ensures p.platform == Android && p.subscriptionStatus.None?
  {
    Purchase(
      id := None, linkedPurchaseId := None, originalPurchaseId := None, receiptId := None,
      userId := None, productId := None,
      isSandbox := SandboxFlag(data.purchaseType), isRefunded := false,
      quantity := data.quantity, platform := Android, orderId := data.orderId,
      productSku := sku, productType := None,
      purchaseDate := data.purchaseTimeMillis, receiptDate := data.purchaseTimeMillis,
      refundDate := None, refundReason := None,
      price := None, currency := None, convertedPrice := None, convertedCurrency := None,
      isSubscription := false,
      isTrial := None, isIntroOfferPeriod := None, isSubscriptionActive := None,
      isSubscriptionRenewable := None, isSubscriptionRetryPeriod := None,
      isSubscriptionGracePeriod := None, isSubscriptionPaused := None,
      isTrialConversion := None, originalOrderId := None, linkedOrderId := None,
      subscriptionPeriodType := None, subscriptionState := None, subscriptionStatus := None,
      subscriptionGroup := None, subscriptionRenewalProductSku := None,
      cancellationReason := None, expirationDate := None, gracePeriodEndDate := None,
      token := None, linkedToken := None)
  }

  /** The cancel-reason table: a cancel survey means the customer cancelled,
      whatever `cancelReason` says; codes 1, 2 and 3 are billing error,
      replacement and developer cancellation. */
  function CancellationReasonOf(data: ReceiptData): (r: Option<CancellationReason>)
    ensures r == Some(CustomerCancelled) <==> data.hasCancelSurveyResult
    ensures r == Some(BillingError) <==> !data.hasCancelSurveyResult && data.cancelReason == Some(1)
    ensures r == Some(SubscriptionReplaced) <==>
      !data.hasCancelSurveyResult && data.cancelReason == Some(2)
    ensures r == Some(DeveloperCancelled) <==>
      !data.hasCancelSurveyResult && data.cancelReason == Some(3)
    ensures r.None? <==> !data.hasCancelSurveyResult && data.cancelReason !in {Some(1), Some(2), Some(3)}
  {
    if data.hasCancelSurveyResult then Some(CustomerCancelled)
    else if data.cancelReason == Some(1) then Some(BillingError)
    else if data.cancelReason == Some(2) then Some(SubscriptionReplaced)
    else if data.cancelReason == Some(3) then Some(DeveloperCancelled)
    else None
  }

  /** `new Date() < expirationDate`; a missing expiry is an invalid date. */
  predicate ActiveAt(data: ReceiptData, now: Millis)
  {
    data.expiryTimeMillis.Some? && now < data.expiryTimeMillis.value
  }

  /** The subscription record as first built, before the cancellation,
      grace and classification assignments. */
  function SubscriptionRecord(data: ReceiptData, sku: string, now: Millis): Purchase
  {
    var links := OrderIdLinks(data.orderId);
    var active := ActiveAt(data, now);
    Purchase(
      id := None, linkedPurchaseId := None, originalPurchaseId := None, receiptId := None,
      userId := None, productId := None,
      isSandbox := SandboxFlag(data.purchaseType), isRefunded := false,
      quantity := 1, platform := Android, orderId := data.orderId,
      productSku := sku, productType := None,
      purchaseDate := data.startTimeMillis, receiptDate := data.startTimeMillis,
      refundDate := None, refundReason := None,
      price := None, currency := None, convertedPrice := None, convertedCurrency := None,
      isSubscription := true,
      isTrial := Some(data.paymentState == Some(2)),
      isIntroOfferPeriod := Some(data.paymentState == Some(2)),
      isSubscriptionActive := Some(active),
      isSubscriptionRenewable := data.autoRenewing,
      isSubscriptionRetryPeriod := if active then data.autoRenewing else Some(false),
      isSubscriptionGracePeriod := Some(false), isSubscriptionPaused := None,
      isTrialConversion := Some(false),
      originalOrderId := Some(links.0), linkedOrderId := links.1,
      subscriptionPeriodType := None, subscriptionState := None, subscriptionStatus := None,
      subscriptionGroup := None, subscriptionRenewalProductSku := None,
      cancellationReason := None, expirationDate := data.expiryTimeMillis,
      gracePeriodEndDate := None, token := None, linkedToken := data.linkedPurchaseToken)
  }

  /** `paymentState == 0 && isSubscriptionActive && isSubscriptionRenewable`:
      the last operand's value when the first two hold. */
  function GraceFlag(p: Purchase, paymentState: Option<int>): Option<bool>
  {
    if paymentState == Some(0) && IsTrue(p.isSubscriptionActive) then p.isSubscriptionRenewable
    else Some(false)
  }

  /** The grace flag, and the expiry as grace end when it is set. */
  function WithGrace(p: Purchase, paymentState: Option<int>): (q: Purchase)
    ensures q == p.(isSubscriptionGracePeriod := q.isSubscriptionGracePeriod,
                    gracePeriodEndDate := q.gracePeriodEndDate)
  {
    var grace := GraceFlag(p, paymentState);
    var q := p.(isSubscriptionGracePeriod := grace);
    if IsTrue(grace) then q.(gracePeriodEndDate := p.expirationDate) else q
  }

  /** processSubscriptionTransaction: the record, then the cancellation
      reason, the grace flag and end, and the classification, in the
      source's order. */
  function ProcessSubscriptionTransaction(data: ReceiptData, sku: string, now: Millis): Purchase
  {
    var p := SubscriptionRecord(data, sku, now);
    var withReason := p.(cancellationReason := CancellationReasonOf(data));
    Classify(WithGrace(withReason, data.paymentState), now)
  }

  /** The fields every Google subscription shares, and its order ids. */
  lemma SubscriptionFields(data: ReceiptData, sku: string, now: Millis)
    ensures var p := ProcessSubscriptionTransaction(data, sku, now);
      && p.isSubscription && p.quantity == 1 && !p.isRefunded && !p.isSandbox
      && p.refundDate.None? && p.refundReason.None?
      && p.receiptDate == p.purchaseDate == data.startTimeMillis
      && p.orderId == data.orderId && p.productSku == sku && p.platform == Android
      && p.expirationDate == data.expiryTimeMillis
      && p.linkedToken == data.linkedPurchaseToken
      && p.originalOrderId == Some(OrderIdLinks(data.orderId).0)
      && p.linkedOrderId == OrderIdLinks(data.orderId).1
      && p.cancellationReason == CancellationReasonOf(data)
  {
  }

  /** Trial, renewal and activity flags: trial and intro iff payment state 2;
      renewable is `autoRenewing`; active iff unexpired; retry is active and
      auto-renewing; grace is payment state 0, active and auto-renewing, and
      only then is the expiry recorded as the grace end. */
  lemma SubscriptionFlags(data: ReceiptData, sku: string, now: Millis)
    ensures var p := ProcessSubscriptionTransaction(data, sku, now);
      && (IsTrue(p.isTrial) <==> data.paymentState == Some(2))
      && p.isIntroOfferPeriod == p.isTrial
      && p.isSubscriptionRenewable == data.autoRenewing
      && (IsTrue(p.isSubscriptionActive) <==> ActiveAt(data, now))
      && (IsTrue(p.isSubscriptionRetryPeriod) <==> ActiveAt(data, now) && IsTrue(data.autoRenewing))
      && (IsTrue(p.isSubscriptionGracePeriod) <==>
            data.paymentState == Some(0) && ActiveAt(data, now) && IsTrue(data.autoRenewing))
      && p.gracePeriodEndDate == (if IsTrue(p.isSubscriptionGracePeriod) then data.expiryTimeMillis else None)
  {
  }

  /** The stored period type, state and status are the classifiers' verdicts
      on the finished purchase. */
  lemma SubscriptionClassified(data: ReceiptData, sku: string, now: Millis)
    ensures Classified(ProcessSubscriptionTransaction(data, sku, now), now)
  {
  }

  /** An active, auto-renewing subscription whose payment state is not 0 has
      the retry flag set and the grace flag clear, so its status is
      "retry_period". */
  lemma ActiveRenewingIsRetry(data: ReceiptData, sku: string, now: Millis)
    requires ActiveAt(data, now) && data.autoRenewing == Some(true) && data.paymentState != Some(0)
    ensures ProcessSubscriptionTransaction(data, sku, now).subscriptionStatus == Some(StatusRetryPeriod)
  {
    SubscriptionFlags(data, sku, now);
    SubscriptionClassified(data, sku, now);
  }

  // ---------------------------------------------------------------------------
  // parseReceipt
  // ---------------------------------------------------------------------------

  /** parseReceipt: the subscription path iff `kind` names a subscription
      purchase; the receipt carries the purchase's receipt date. */
  function ParseReceipt(data: ReceiptData, token: string, hash: string, sku: string, now: Millis)
    : (r: ParsedReceipt)
    ensures |r.purchases| == 1
    ensures r.purchases[0].isSubscription <==> data.kind == SubscriptionKind
    ensures r.receipt == Receipt(None, hash, None, Android, token, r.purchases[0].receiptDate)
    ensures r.purchases[0] == if data.kind == SubscriptionKind then ProcessSubscriptionTransaction(data, sku, now)
                              else ProcessPurchaseTransaction(data, sku)
  {
    var purchase :=
      if data.kind == SubscriptionKind then ProcessSubscriptionTransaction(data, sku, now)
      else ProcessPurchaseTransaction(data, sku);
    ParsedReceipt(Receipt(None, hash, None, Android, token, purchase.receiptDate), [purchase])
  }

  /** The purchase parseReceipt returns: the resource's order, for the SKU,
      on Android, never refunded nor sandbox; a subscription is dated at its
      start, has quantity 1 and is classified, and a one-time product is
      dated at its purchase, keeps its quantity and has no status. */
  lemma ParseReceiptPurchase(data: ReceiptData, token: string, hash: string, sku: string, now: Millis)
    ensures var p := ParseReceipt(data, token, hash, sku, now).purchases[0];
      && p.orderId == data.orderId && p.productSku == sku && p.platform == Android
      && !p.isRefunded && !p.isSandbox
      && (data.kind == SubscriptionKind ==>
            p.receiptDate == data.startTimeMillis && p.quantity == 1 && Classified(p, now)
            && p.subscriptionStatus.Some?)
      && (data.kind != SubscriptionKind ==>
            p.receiptDate == data.purchaseTimeMillis && p.quantity == data.quantity
            && p.subscriptionStatus.None?)
  {
    if data.kind == SubscriptionKind {
      SubscriptionFields(data, sku, now);
      SubscriptionClassified(data, sku, now);
    }
  }
}
