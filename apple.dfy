/** The Apple parser: a verifyReceipt response becomes one receipt and one
    purchase per transaction. */
module Apple {
  import opened Wrappers
  import opened Types
  import opened Seqs
  import opened Sorting
  import opened IAPProvider

  /** One entry of `receipt.in_app` or `latest_receipt_info`. A string field
      Apple may omit is an `Option`; `Some` stands for a non-empty value.
      Millisecond timestamps are already parsed. */
  datatype Transaction = Transaction(
    transactionId: string,
    originalTransactionId: string,
    webOrderLineItemId: string,
    productId: string,
    purchaseDateMs: Millis,
    quantity: int,
    expiresDate: Option<string>,
    expiresDateMs: Option<Millis>,
    cancellationDateMs: Option<Millis>,
    cancellationReason: Option<string>,
    isTrialPeriod: Option<string>,
    isInIntroOfferPeriod: Option<string>,
    subscriptionGroupIdentifier: Option<string>)

  /** One entry of `pending_renewal_info`. */
  datatype RenewalInfo = RenewalInfo(
    originalTransactionId: string,
    productId: string,
    autoRenewStatus: Option<string>,
    isInBillingRetryPeriod: Option<string>,
    autoRenewProductId: Option<string>,
    gracePeriodExpiresDateMs: Option<Millis>,
    expirationIntent: Option<string>)

  /** The parts of a successful verifyReceipt body the parser reads, except
      `receipt.in_app`, which is passed beside it because the parser sorts it
      in place. An absent `pending_renewal_info` is the empty sequence. */
  datatype VerifyReceiptResponse = VerifyReceiptResponse(
    environment: string,
    receiptCreationDateMs: Millis,
    latestReceiptInfo: Option<seq<Transaction>>,
    pendingRenewalInfo: seq<RenewalInfo>)

  /** The ways the parser rejects: spreading an absent `latest_receipt_info`
      and reading the first entry of an empty combined list. */
  datatype ParseError = MissingLatestReceiptInfo | NoTransactions

  /** isSubscription: a transaction with an `expires_date`. */
  predicate IsSubscription(t: Transaction)
  {
    Present(t.expiresDate)
  }

  predicate IsSandbox(response: VerifyReceiptResponse)
  {
    response.environment == "Sandbox"
  }

  // ---------------------------------------------------------------------------
  // sortTransactionsDesc
  // ---------------------------------------------------------------------------

  /** The key of sortTransactionsDesc: `b - a` on purchase times sorts
      newest first. */
  function PurchaseMs(t: Transaction): int
  {
    t.purchaseDateMs
  }

  /** The sort test: purchase times 1000, 3000, 2000 come out as 3000, 2000, 1000. */
  lemma SortVector(t1: Transaction, t2: Transaction, t3: Transaction)
    requires t1.purchaseDateMs == 1000 && t2.purchaseDateMs == 3000 && t3.purchaseDateMs == 2000
    ensures SortDesc([t1, t2, t3], PurchaseMs) == [t2, t3, t1]
  {
    assert SortDesc([t2, t3], PurchaseMs) == [t2, t3] by {
      SortDescOfSorted([t2, t3], PurchaseMs);
    }
    SortDescCons(t1, [t2, t3], PurchaseMs);
    assert InsertDesc(t1, [t2, t3], PurchaseMs) == [t2, t3, t1] by {
      assert [t2, t3][1..] == [t3] && [t3][1..] == [];
      assert InsertDesc(t1, [t3], PurchaseMs) == [t3, t1];
    }
    assert [t1] + [t2, t3] == [t1, t2, t3];
  }

  // ---------------------------------------------------------------------------
  // mergeTransactions
  // ---------------------------------------------------------------------------

  function TransactionIds(s: seq<Transaction>): set<string>
  {
    set t | t in s :: t.transactionId
  }

  /** The `latest_receipt_info` entries kept by the date filter. */
  function KeptLatest(receiptCreationDateMs: Millis, includeNewer: bool): Transaction -> bool
  {
    (t: Transaction) => includeNewer || t.purchaseDateMs <= receiptCreationDateMs
  }

  /** The `in_app` entries whose id is not among `ids`. */
  function NotListed(ids: set<string>): Transaction -> bool
  {
    (t: Transaction) => t.transactionId !in ids
  }

  /** mergeTransactions over the `in_app` list as the caller passed it. The
      `in_app` entries are first sorted, which decides the order of entries
      bought at the same instant. */
  function Merge(inApp: seq<Transaction>, latest: seq<Transaction>,
                 receiptCreationDateMs: Millis, includeNewer: bool): seq<Transaction>
  {
    var additional := Filter(SortDesc(inApp, PurchaseMs), NotListed(TransactionIds(latest)));
    var kept := Filter(latest, KeptLatest(receiptCreationDateMs, includeNewer));
    SortDesc(kept + additional, PurchaseMs)
  }

  /** The merge is sorted newest first and holds exactly the kept
      `latest_receipt_info` entries plus the `in_app` entries whose id is not
      in `latest_receipt_info` (even when the entry there was filtered out). */
  lemma {:induction false} MergeContents(inApp: seq<Transaction>, latest: seq<Transaction>,
                                         receiptCreationDateMs: Millis, includeNewer: bool)
    ensures SortedDesc(Merge(inApp, latest, receiptCreationDateMs, includeNewer), PurchaseMs)
    ensures multiset(Merge(inApp, latest, receiptCreationDateMs, includeNewer))
         == multiset(Filter(latest, KeptLatest(receiptCreationDateMs, includeNewer)))
          + multiset(Filter(inApp, NotListed(TransactionIds(latest))))
    ensures forall t ::
      t in Merge(inApp, latest, receiptCreationDateMs, includeNewer) <==>
        (t in latest && (includeNewer || t.purchaseDateMs <= receiptCreationDateMs))
        || (t in inApp && t.transactionId !in TransactionIds(latest))
  {
    var g := NotListed(TransactionIds(latest));
    var h := KeptLatest(receiptCreationDateMs, includeNewer);
    var m := Merge(inApp, latest, receiptCreationDateMs, includeNewer);
    var sortedInApp := SortDesc(inApp, PurchaseMs);
    var merged := Filter(latest, h) + Filter(sortedInApp, g);
    SortDescSpec(merged, PurchaseMs);
    assert multiset(Filter(sortedInApp, g)) == multiset(Filter(inApp, g)) by {
      SortDescSpec(inApp, PurchaseMs);
      FilterCount(sortedInApp, g);
      FilterCount(inApp, g);
    }
    assert multiset(m) == multiset(Filter(latest, h)) + multiset(Filter(inApp, g));
    forall t
      ensures t in m <==> (t in latest && h(t)) || (t in inApp && g(t))
    {
      FilterMembers(latest, h);
      FilterMembers(inApp, g);
      calc {
        t in m;
        t in multiset(m);
        t in multiset(Filter(latest, h)) || t in multiset(Filter(inApp, g));
        t in Filter(latest, h) || t in Filter(inApp, g);
      }
    }
  }

  /** The transactions of the merge tests: `in_app` holds "100" and "300",
      `latest_receipt_info` holds "200", "300" and "400", bought at 100000,
      300000, 200000, 300000 and 400000. */
  predicate MergeSamples(i100: Transaction, i300: Transaction,
                         l200: Transaction, l300: Transaction, l400: Transaction)
  {
    i100.transactionId == "100" && i100.purchaseDateMs == 100000
    && i300.transactionId == "300" && i300.purchaseDateMs == 300000
    && l200.transactionId == "200" && l200.purchaseDateMs == 200000
    && l300.transactionId == "300" && l300.purchaseDateMs == 300000
    && l400.transactionId == "400" && l400.purchaseDateMs == 400000
  }

  /** The `in_app` side of the merge tests: only "100" is not listed in
      `latest_receipt_info`. */
  lemma MergeVectorInApp(i100: Transaction, i300: Transaction,
                         l200: Transaction, l300: Transaction, l400: Transaction)
    requires MergeSamples(i100, i300, l200, l300, l400)
    ensures Filter(SortDesc([i100, i300], PurchaseMs), NotListed(TransactionIds([l200, l300, l400])))
         == [i100]
  {
    var latest := [l200, l300, l400];
    assert TransactionIds(latest) == {"200", "300", "400"} by {
      assert latest[0] in latest && latest[1] in latest && latest[2] in latest;
    }
    assert SortDesc([i100, i300], PurchaseMs) == [i300, i100] by {
      SortDescCons(i100, [i300], PurchaseMs);
      SortDescOfSorted([i300], PurchaseMs);
      assert [i300][1..] == [];
      assert [i100] + [i300] == [i100, i300];
    }
    assert [i300, i100][1..] == [i100] && [i100][1..] == [];
  }

  /** The merge test without newer entries: [300, 200, 100], with "300"
      taken from `latest_receipt_info` and "400", bought after the receipt,
      left out. */
  lemma MergeVectorOld(i100: Transaction, i300: Transaction,
                       l200: Transaction, l300: Transaction, l400: Transaction)
    requires MergeSamples(i100, i300, l200, l300, l400)
    ensures Merge([i100, i300], [l200, l300, l400], 300000, false) == [l300, l200, i100]
  {
    var latest := [l200, l300, l400];
    MergeVectorInApp(i100, i300, l200, l300, l400);
    assert Filter(latest, KeptLatest(300000, false)) == [l200, l300] by {
      var h := KeptLatest(300000, false);
      assert latest[1..] == [l300, l400] && [l300, l400][1..] == [l400] && [l400][1..] == [];
      assert Filter([l400], h) == [];
      assert Filter([l300, l400], h) == [l300];
    }
    assert [l200, l300] + [i100] == [l200] + [l300, i100];
    assert SortDesc([l300, i100], PurchaseMs) == [l300, i100] by {
      SortDescOfSorted([l300, i100], PurchaseMs);
    }
    SortDescCons(l200, [l300, i100], PurchaseMs);
    InsertPastOne(l200, l300, i100, PurchaseMs);
  }

  /** The merge test with newer entries: [400, 300, 200, 100]. */
  lemma MergeVectorNewer(i100: Transaction, i300: Transaction,
                         l200: Transaction, l300: Transaction, l400: Transaction)
    requires MergeSamples(i100, i300, l200, l300, l400)
    ensures Merge([i100, i300], [l200, l300, l400], 300000, true) == [l400, l300, l200, i100]
  {
    var latest := [l200, l300, l400];
    MergeVectorInApp(i100, i300, l200, l300, l400);
    assert Filter(latest, KeptLatest(300000, true)) == latest by {
      var h := KeptLatest(300000, true);
      assert latest[1..] == [l300, l400] && [l300, l400][1..] == [l400] && [l400][1..] == [];
      assert Filter([l400], h) == [l400];
      assert Filter([l300, l400], h) == [l300, l400];
    }
    assert latest + [i100] == [l200] + ([l300] + [l400, i100]);
    assert SortDesc([l400, i100], PurchaseMs) == [l400, i100] by {
      SortDescOfSorted([l400, i100], PurchaseMs);
    }
    assert SortDesc([l300] + [l400, i100], PurchaseMs) == [l400, l300, i100] by {
      SortDescCons(l300, [l400, i100], PurchaseMs);
      InsertPastOne(l300, l400, i100, PurchaseMs);
    }
    SortDescCons(l200, [l300] + [l400, i100], PurchaseMs);
    InsertPastTwo(l200, l400, l300, i100, PurchaseMs);
  }

  /** The in-place part of mergeTransactions: `in_app` is left sorted, and
      the merge is returned. */
  method MergeTransactions(inApp: array<Transaction>, latest: seq<Transaction>,
                           receiptCreationDateMs: Millis, includeNewer: bool)
    returns (merged: seq<Transaction>)
    modifies inApp
    ensures inApp[..] == SortDesc(old(inApp[..]), PurchaseMs)
    ensures merged == Merge(old(inApp[..]), latest, receiptCreationDateMs, includeNewer)
  {
    SortInPlace(inApp, PurchaseMs);
    var additional := Filter(inApp[..], NotListed(TransactionIds(latest)));
    var kept := Filter(latest, KeptLatest(receiptCreationDateMs, includeNewer));
    merged := SortDesc(kept + additional, PurchaseMs);
  }

  // ---------------------------------------------------------------------------
  // Order discovery and cancellation reason
  // ---------------------------------------------------------------------------

  function IsOriginalOf(t: Transaction): Transaction -> bool
  {
    (o: Transaction) => o.transactionId == t.originalTransactionId
  }

  /** getOriginalOrder: the first transaction whose id is the original id. */
  function OriginalOrder(t: Transaction, others: seq<Transaction>): (r: Option<Transaction>)
    ensures r.None? <==> forall i :: 0 <= i < |others| ==> others[i].transactionId != t.originalTransactionId
    ensures r.Some? ==>
      exists k :: 0 <= k < |others| && others[k] == r.value
                  && r.value.transactionId == t.originalTransactionId
                  && forall j :: 0 <= j < k ==> others[j].transactionId != t.originalTransactionId
  {
    Find(others, IsOriginalOf(t))
  }

  /** An earlier link of the same chain: same original id, another id, and
      bought no later. */
  predicate IsPrior(t: Transaction, o: Transaction)
  {
    o.originalTransactionId == t.originalTransactionId && o.transactionId != t.transactionId
    && o.purchaseDateMs <= t.purchaseDateMs
  }

  function PriorTo(t: Transaction): Transaction -> bool
  {
    (o: Transaction) => IsPrior(t, o)
  }

  /** The head of the prior transactions in the sorted combined list. */
  function LinkedOrder(t: Transaction, sorted: seq<Transaction>): Option<Transaction>
  {
    var prior := Filter(sorted, PriorTo(t));
    if |prior| > 0 then Some(prior[0]) else None
  }

  /** On a list sorted newest first, the linked order is its newest prior
      transaction. */
  lemma {:induction false} NewestPrior(t: Transaction, sorted: seq<Transaction>)
    requires SortedDesc(sorted, PurchaseMs)
    ensures LinkedOrder(t, sorted).None? <==> forall o :: o in sorted ==> !IsPrior(t, o)
    ensures LinkedOrder(t, sorted).Some? ==>
      var l := LinkedOrder(t, sorted).value;
      l in sorted && IsPrior(t, l)
      && forall o :: o in sorted && IsPrior(t, o) ==> o.purchaseDateMs <= l.purchaseDateMs
  {
    var f := PriorTo(t);
    FindIsFirstOfFilter(sorted, f);
    var r := Find(sorted, f);
    if r.Some? {
      var k :| 0 <= k < |sorted| && sorted[k] == r.value && f(sorted[k])
               && forall j :: 0 <= j < k ==> !f(sorted[j]);
      forall o | o in sorted && IsPrior(t, o)
        ensures o.purchaseDateMs <= r.value.purchaseDateMs
      {
        var m :| 0 <= m < |sorted| && sorted[m] == o;
        assert k <= m;
      }
    } else {
      forall o | o in sorted ensures !IsPrior(t, o) {
        var m :| 0 <= m < |sorted| && sorted[m] == o;
      }
    }
  }

  /** The linked order is the newest prior transaction of the combined list,
      and there is none exactly when no transaction is prior. */
  lemma LinkedOrderIsNewestPrior(t: Transaction, combined: seq<Transaction>)
    ensures LinkedOrder(t, SortDesc(combined, PurchaseMs)).None? <==> forall o :: o in combined ==> !IsPrior(t, o)
    ensures LinkedOrder(t, SortDesc(combined, PurchaseMs)).Some? ==>
      var l := LinkedOrder(t, SortDesc(combined, PurchaseMs)).value;
      l in combined && IsPrior(t, l)
      && forall o :: o in combined && IsPrior(t, o) ==> o.purchaseDateMs <= l.purchaseDateMs
  {
    SortedMembers(combined, PurchaseMs);
    SortDescSpec(combined, PurchaseMs);
    NewestPrior(t, SortDesc(combined, PurchaseMs));
  }

  function RenewsChainOf(t: Transaction): RenewalInfo -> bool
  {
    (r: RenewalInfo) => r.originalTransactionId == t.originalTransactionId && r.productId == t.productId
  }

  /** The renewal entry of the same chain and product. */
  function RenewalFor(t: Transaction, pending: seq<RenewalInfo>): Option<RenewalInfo>
  {
    Find(pending, RenewsChainOf(t))
  }

  predicate Intent(renewal: Option<RenewalInfo>, code: string)
  {
    renewal.Some? && renewal.value.expirationIntent == Some(code)
  }

  /** getCancellationReason: a code table over Apple's `expiration_intent`. */
  function CancellationReasonOf(p: Purchase, renewal: Option<RenewalInfo>): (r: Option<CancellationReason>)
    ensures r == Some(Refunded) <==> p.isRefunded
    ensures r == Some(CustomerCancelled) <==> !p.isRefunded && Intent(renewal, "1")
    ensures r == Some(BillingError) <==>
      !p.isRefunded && !IsTrue(p.isSubscriptionActive) && !IsTrue(p.isSubscriptionRetryPeriod)
      && Intent(renewal, "2")
    ensures r == Some(RejectedPriceIncrease) <==>
      !p.isRefunded && !IsTrue(p.isSubscriptionActive) && Intent(renewal, "3")
    ensures r == Some(ProductNotAvailable) <==>
      !p.isRefunded && !IsTrue(p.isSubscriptionActive) && Intent(renewal, "4")
    ensures r == Some(UnknownReason) <==>
      !p.isRefunded && !IsTrue(p.isSubscriptionActive) && Intent(renewal, "5")
    ensures r !in {Some(DeveloperCancelled), Some(SubscriptionReplaced)}
  {
    if p.isRefunded then Some(Refunded)
    else if Intent(renewal, "1") then Some(CustomerCancelled)
    else if !IsTrue(p.isSubscriptionActive) && !IsTrue(p.isSubscriptionRetryPeriod)
            && Intent(renewal, "2") then Some(BillingError)
    else if !IsTrue(p.isSubscriptionActive) && Intent(renewal, "3") then Some(RejectedPriceIncrease)
    else if !IsTrue(p.isSubscriptionActive) && Intent(renewal, "4") then Some(ProductNotAvailable)
    else if !IsTrue(p.isSubscriptionActive) && Intent(renewal, "5") then Some(UnknownReason)
    else None
  }

  // ---------------------------------------------------------------------------
  // Purchases
  // ---------------------------------------------------------------------------

  /** The subscription-only fields, all unset. */
  predicate NoSubscriptionFields(p: Purchase)
  {
    p.cancellationReason.None? && p.expirationDate.None? && p.gracePeriodEndDate.None?
    && p.isIntroOfferPeriod.None? && p.isSubscriptionActive.None?
    && p.isSubscriptionGracePeriod.None? && p.isSubscriptionPaused.None?
    && p.isSubscriptionRenewable.None? && p.isSubscriptionRetryPeriod.None?
    && p.isTrial.None? && p.isTrialConversion.None? && p.linkedOrderId.None?
    && p.linkedPurchaseId.None? && p.linkedToken.None? && p.originalOrderId.None?
    && p.originalPurchaseId.None? && p.subscriptionGroup.None?
    && p.subscriptionPeriodType.None? && p.subscriptionRenewalProductSku.None?
    && p.subscriptionState.None? && p.subscriptionStatus.None?
  }

  /** processPurchaseTransaction; `product` is the catalog entry for the SKU. */
  function ProcessPurchaseTransaction(t: Transaction, receiptDate: Millis, isSandbox: bool,
                                      product: Option<Product>): (p: Purchase)
    ensures p.isRefunded <==> t.cancellationDateMs.Some?
    ensures p.refundDate == t.cancellationDateMs
    ensures p.isSubscription <==> IsSubscription(t)
    ensures p.refundReason == Some(Issue) <==>
      t.cancellationDateMs.Some? && t.cancellationReason == Some("1")
    ensures p.refundReason == Some(Other) <==>
      t.cancellationDateMs.Some? && t.cancellationReason == Some("0")
    ensures p.refundReason != Some(SubscriptionReplace)
    ensures product.None? ==>
      p.productId.None? && p.price == p.convertedPrice == Some(0)
      && p.currency == p.convertedCurrency == Some("")
    ensures product.Some? ==>
      p.productId == Some(product.value.id)
      && p.price == p.convertedPrice == Some(product.value.price)
      && p.currency == p.convertedCurrency == Some(product.value.currency)
    ensures p.orderId == t.transactionId && p.productSku == t.productId
    ensures p.purchaseDate == t.purchaseDateMs && p.receiptDate == receiptDate
    ensures p.isSandbox == isSandbox && p.platform == IOS && p.productType == Some(Consumable)
    ensures p.receiptId.None? && p.userId.None? && NoSubscriptionFields(p)
  {
    var refunded := t.cancellationDateMs.Some?;
    Purchase(
      id := None, linkedPurchaseId := None, originalPurchaseId := None, receiptId := None,
      userId := None,
      productId := if product.Some? then Some(product.value.id) else None,
      isSandbox := isSandbox, isRefunded := refunded, quantity := t.quantity,
      platform := IOS, orderId := t.transactionId, productSku := t.productId,
      productType := Some(Consumable), purchaseDate := t.purchaseDateMs,
      receiptDate := receiptDate, refundDate := t.cancellationDateMs,
      refundReason :=
        if refunded && t.cancellationReason == Some("1") then Some(Issue)
        else if refunded && t.cancellationReason == Some("0") then Some(Other)
        else None,
      price := Some(if product.Some? then product.value.price else 0),
      currency := Some(if product.Some? then product.value.currency else ""),
      convertedPrice := Some(if product.Some? then product.value.price else 0),
      convertedCurrency := Some(if product.Some? then product.value.currency else ""),
      isSubscription := IsSubscription(t),
      isTrial := None, isIntroOfferPeriod := None, isSubscriptionActive := None,
      isSubscriptionRenewable := None, isSubscriptionRetryPeriod := None,
      isSubscriptionGracePeriod := None, isSubscriptionPaused := None,
      isTrialConversion := None, originalOrderId := None, linkedOrderId := None,
      subscriptionPeriodType := None, subscriptionState := None, subscriptionStatus := None,
      subscriptionGroup := None, subscriptionRenewalProductSku := None,
      cancellationReason := None, expirationDate := None, gracePeriodEndDate := None,
      token := None, linkedToken := None)
  }

  /** The combined `in_app` and `latest_receipt_info` list, sorted. */
  function CombinedSorted(sortedInApp: seq<Transaction>, response: VerifyReceiptResponse): seq<Transaction>
    requires response.latestReceiptInfo.Some?
  {
    SortDesc(sortedInApp + response.latestReceiptInfo.value, PurchaseMs)
  }

  /** The renewal entry is consulted only for the newest transaction. */
  function RenewalUsed(t: Transaction, sorted: seq<Transaction>, response: VerifyReceiptResponse)
    : Option<RenewalInfo>
    requires |sorted| > 0
  {
    if sorted[0].transactionId == t.transactionId then RenewalFor(t, response.pendingRenewalInfo)
    else None
  }

  /** The fields processSubscriptionTransaction assigns before it consults
      the renewal entry: the order ids, the expiry, the trial flags, and
      every subscription flag cleared. */
  function LinkFields(base: Purchase, t: Transaction, original: Option<Transaction>,
                      linked: Option<Transaction>): Purchase
  {
    base.(
      orderId := t.webOrderLineItemId,
      originalOrderId := if original.Some? then Some(original.value.webOrderLineItemId) else None,
      linkedOrderId := if linked.Some? then Some(linked.value.webOrderLineItemId) else None,
      expirationDate := t.expiresDateMs,
      isSubscriptionActive := Some(false),
      isTrialConversion := Some(false),
      isTrial := Some(t.isTrialPeriod == Some("true")),
      isIntroOfferPeriod := Some(t.isInIntroOfferPeriod == Some("true")),
      isSubscriptionRenewable := Some(false),
      isSubscriptionRetryPeriod := Some(false),
      isSubscriptionGracePeriod := Some(false),
      isSubscriptionPaused := Some(false),
      subscriptionRenewalProductSku := None,
      productType := Some(RenewableSubscription))
  }

  /** The renewal entry's auto-renew and billing-retry flags, and its renewal
      product when it names another SKU. */
  function WithRenewal(p: Purchase, renewal: Option<RenewalInfo>): (q: Purchase)
    ensures q == p.(isSubscriptionRenewable := q.isSubscriptionRenewable,
                    isSubscriptionRetryPeriod := q.isSubscriptionRetryPeriod,
                    subscriptionRenewalProductSku := q.subscriptionRenewalProductSku)
  {
    if renewal.Some? then
      var info := renewal.value;
      p.(isSubscriptionRenewable := Some(info.autoRenewStatus == Some("1")),
         isSubscriptionRetryPeriod := Some(info.isInBillingRetryPeriod == Some("1")),
         subscriptionRenewalProductSku :=
           if Present(info.autoRenewProductId) && info.autoRenewProductId.value != p.productSku
           then info.autoRenewProductId else p.subscriptionRenewalProductSku)
    else p
  }

  /** The subscription group of the original order, when it has one. */
  function WithGroup(p: Purchase, original: Option<Transaction>): (q: Purchase)
    ensures q == p.(subscriptionGroup := q.subscriptionGroup)
  {
    if original.Some? && Present(original.value.subscriptionGroupIdentifier)
    then p.(subscriptionGroup := original.value.subscriptionGroupIdentifier)
    else p
  }

  /** A non-trial purchase converts a trial when its linked order was one. */
  function WithTrialConversion(p: Purchase, linked: Option<Transaction>): (q: Purchase)
    ensures q == p.(isTrialConversion := q.isTrialConversion)
  {
    if !IsTrue(p.isTrial) && linked.Some?
    then p.(isTrialConversion := Some(linked.value.isTrialPeriod == Some("true")))
    else p
  }

  /** Active and grace: a refunded subscription is left inactive; an unexpired
      one is active; otherwise a grace timestamp in the renewal entry is
      recorded, and the subscription is active and in grace until it. */
  function WithActivity(p: Purchase, renewal: Option<RenewalInfo>, now: Millis): (q: Purchase)
    ensures q == p.(isSubscriptionActive := q.isSubscriptionActive,
                    isSubscriptionGracePeriod := q.isSubscriptionGracePeriod,
                    gracePeriodEndDate := q.gracePeriodEndDate)
  {
    if p.isRefunded then p
    else if ExpiresAfter(p, now) then p.(isSubscriptionActive := Some(true))
    else if renewal.Some? && renewal.value.gracePeriodExpiresDateMs.Some? then
      var g := renewal.value.gracePeriodExpiresDateMs.value;
      var q := p.(gracePeriodEndDate := Some(g));
      if now < g then q.(isSubscriptionActive := Some(true), isSubscriptionGracePeriod := Some(true))
      else q
    else p
  }

  /** WithActivity on a purchase whose activity fields are still cleared. */
  lemma ActivityRules(p: Purchase, renewal: Option<RenewalInfo>, now: Millis)
    requires p.isSubscriptionActive == Some(false) && p.isSubscriptionGracePeriod == Some(false)
    requires p.gracePeriodEndDate.None?
    ensures
      var q := WithActivity(p, renewal, now);
      var graceEnd := if renewal.Some? then renewal.value.gracePeriodExpiresDateMs else None;
      && (IsTrue(q.isSubscriptionGracePeriod) <==>
            !q.isRefunded && !ExpiresAfter(q, now) && graceEnd.Some? && now < graceEnd.value)
      && (IsTrue(q.isSubscriptionActive) <==>
            !q.isRefunded && (ExpiresAfter(q, now) || IsTrue(q.isSubscriptionGracePeriod)))
      && q.gracePeriodEndDate == (if !q.isRefunded && !ExpiresAfter(q, now) then graceEnd else None)
  {
  }

  /** The subscription record built on the one-time purchase record `base`,
      in the source's order. The cancellation reason is assigned before the
      classification here, after the period type in the source: neither
      reads what the other writes. */
  function SubscriptionPurchase(t: Transaction, base: Purchase, original: Option<Transaction>,
                                linked: Option<Transaction>, renewal: Option<RenewalInfo>,
                                now: Millis): Purchase
  {
    var p := WithActivity(WithTrialConversion(WithGroup(WithRenewal(
               LinkFields(base, t, original, linked), renewal), original), linked), renewal, now);
    Classify(p.(cancellationReason := CancellationReasonOf(p, renewal)), now)
  }

  /** processSubscriptionTransaction. It rejects where the source throws:
      when `latest_receipt_info` is absent, and when the combined list is
      empty. */
  function ProcessSubscriptionTransaction(t: Transaction, sortedInApp: seq<Transaction>,
                                          response: VerifyReceiptResponse,
                                          product: Option<Product>, now: Millis)
    : (r: Result<Purchase, ParseError>)
    ensures r == Err(MissingLatestReceiptInfo) <==> response.latestReceiptInfo.None?
    ensures r == Err(NoTransactions) <==>
      response.latestReceiptInfo.Some? && |sortedInApp + response.latestReceiptInfo.value| == 0
  {
    if response.latestReceiptInfo.None? then Err(MissingLatestReceiptInfo)
    else
      var sorted := CombinedSorted(sortedInApp, response);
      if |sorted| == 0 then Err(NoTransactions)
      else
        var base := ProcessPurchaseTransaction(t, response.receiptCreationDateMs, IsSandbox(response), product);
        Ok(SubscriptionPurchase(t, base, OriginalOrder(t, sorted), LinkedOrder(t, sorted),
                                RenewalUsed(t, sorted, response), now))
  }

  /** The order ids, expiry, trial flags, type and group of a subscription
      purchase. */
  lemma SubscriptionOrders(t: Transaction, sortedInApp: seq<Transaction>,
                           response: VerifyReceiptResponse, product: Option<Product>, now: Millis)
    requires ProcessSubscriptionTransaction(t, sortedInApp, response, product, now).Ok?
    ensures
      var p := ProcessSubscriptionTransaction(t, sortedInApp, response, product, now).value;
      var sorted := CombinedSorted(sortedInApp, response);
      var original := OriginalOrder(t, sorted);
      var linked := LinkedOrder(t, sorted);
      && p.orderId == t.webOrderLineItemId
      && p.productSku == t.productId
      && p.isSandbox == IsSandbox(response) && p.platform == IOS
      && p.isSubscription == IsSubscription(t)
      && p.productType == Some(RenewableSubscription)
      && p.expirationDate == t.expiresDateMs
      && p.originalOrderId == (if original.Some? then Some(original.value.webOrderLineItemId) else None)
      && p.linkedOrderId == (if linked.Some? then Some(linked.value.webOrderLineItemId) else None)
      && p.subscriptionGroup
         == (if original.Some? && Present(original.value.subscriptionGroupIdentifier)
             then original.value.subscriptionGroupIdentifier else None)
      && (IsTrue(p.isTrial) <==> t.isTrialPeriod == Some("true"))
      && (IsTrue(p.isIntroOfferPeriod) <==> t.isInIntroOfferPeriod == Some("true"))
      && p.isSubscriptionPaused == Some(false)
  {
  }

  /** The renewal flags come from the renewal entry, which is consulted only
      for the newest transaction; without one they are false. */
  lemma SubscriptionRenewal(t: Transaction, sortedInApp: seq<Transaction>,
                            response: VerifyReceiptResponse, product: Option<Product>, now: Millis)
    requires ProcessSubscriptionTransaction(t, sortedInApp, response, product, now).Ok?
    ensures
      var p := ProcessSubscriptionTransaction(t, sortedInApp, response, product, now).value;
      var renewal := RenewalUsed(t, CombinedSorted(sortedInApp, response), response);
      && (IsTrue(p.isSubscriptionRenewable) <==> renewal.Some? && renewal.value.autoRenewStatus == Some("1"))
      && (IsTrue(p.isSubscriptionRetryPeriod) <==>
            renewal.Some? && renewal.value.isInBillingRetryPeriod == Some("1"))
      && (p.subscriptionRenewalProductSku.Some? <==>
            renewal.Some? && Present(renewal.value.autoRenewProductId)
            && renewal.value.autoRenewProductId.value != t.productId)
      && (p.subscriptionRenewalProductSku.Some? ==>
            p.subscriptionRenewalProductSku == renewal.value.autoRenewProductId)
  {
  }

  /** Active and grace: refunded means inactive; otherwise active while
      unexpired, or while in a grace period that is still running. */
  lemma SubscriptionActivity(t: Transaction, sortedInApp: seq<Transaction>,
                             response: VerifyReceiptResponse, product: Option<Product>, now: Millis)
    requires ProcessSubscriptionTransaction(t, sortedInApp, response, product, now).Ok?
    ensures
      var p := ProcessSubscriptionTransaction(t, sortedInApp, response, product, now).value;
      var renewal := RenewalUsed(t, CombinedSorted(sortedInApp, response), response);
      var graceEnd := if renewal.Some? then renewal.value.gracePeriodExpiresDateMs else None;
      && (p.isRefunded <==> t.cancellationDateMs.Some?)
      && (IsTrue(p.isSubscriptionGracePeriod) <==>
            !p.isRefunded && !ExpiresAfter(p, now) && graceEnd.Some? && now < graceEnd.value)
      && (IsTrue(p.isSubscriptionActive) <==>
            !p.isRefunded && (ExpiresAfter(p, now) || IsTrue(p.isSubscriptionGracePeriod)))
      && p.gracePeriodEndDate == (if !p.isRefunded && !ExpiresAfter(p, now) then graceEnd else None)
  {
    var sorted := CombinedSorted(sortedInApp, response);
    var original, linked := OriginalOrder(t, sorted), LinkedOrder(t, sorted);
    var renewal := RenewalUsed(t, sorted, response);
    var base := ProcessPurchaseTransaction(t, response.receiptCreationDateMs, IsSandbox(response), product);
    var pre := WithTrialConversion(WithGroup(WithRenewal(LinkFields(base, t, original, linked), renewal),
                                             original), linked);
    ActivityRules(pre, renewal, now);
  }

  /** A trial conversion is a non-trial purchase whose linked order was a
      trial. */
  lemma SubscriptionTrialConversion(t: Transaction, sortedInApp: seq<Transaction>,
                                    response: VerifyReceiptResponse, product: Option<Product>,
                                    now: Millis)
    requires ProcessSubscriptionTransaction(t, sortedInApp, response, product, now).Ok?
    ensures
      var p := ProcessSubscriptionTransaction(t, sortedInApp, response, product, now).value;
      var linked := LinkedOrder(t, CombinedSorted(sortedInApp, response));
      IsTrue(p.isTrialConversion) <==>
        !IsTrue(p.isTrial) && linked.Some? && linked.value.isTrialPeriod == Some("true")
  {
  }

  /** The stored period type, state and status are the classifiers' verdicts
      on the finished purchase, and so is the cancellation reason. */
  lemma SubscriptionClassified(t: Transaction, sortedInApp: seq<Transaction>,
                               response: VerifyReceiptResponse, product: Option<Product>, now: Millis)
    requires ProcessSubscriptionTransaction(t, sortedInApp, response, product, now).Ok?
    ensures
      var p := ProcessSubscriptionTransaction(t, sortedInApp, response, product, now).value;
      var renewal := RenewalUsed(t, CombinedSorted(sortedInApp, response), response);
      Classified(p, now) && p.cancellationReason == CancellationReasonOf(p, renewal)
  {
  }

  /** A refunded subscription is inactive, and both its cancellation reason
      and its status say "refunded". */
  lemma RefundedSubscription(t: Transaction, sortedInApp: seq<Transaction>,
                             response: VerifyReceiptResponse, product: Option<Product>, now: Millis)
    requires IsSubscription(t) && t.cancellationDateMs.Some?
    requires ProcessSubscriptionTransaction(t, sortedInApp, response, product, now).Ok?
    ensures var p := ProcessSubscriptionTransaction(t, sortedInApp, response, product, now).value;
      !IsTrue(p.isSubscriptionActive) && p.cancellationReason == Some(Refunded)
      && p.subscriptionStatus == Some(StatusRefunded)
  {
    SubscriptionActivity(t, sortedInApp, response, product, now);
    SubscriptionClassified(t, sortedInApp, response, product, now);
  }

  // ---------------------------------------------------------------------------
  // parseReceipt
  // ---------------------------------------------------------------------------

  function ProductFor(t: Transaction, catalog: map<string, Product>): Option<Product>
  {
    if t.productId in catalog then Some(catalog[t.productId]) else None
  }

  /** The purchase of one merged transaction: the subscription path iff the
      transaction has an `expires_date`. */
  function ProcessTransaction(t: Transaction, sortedInApp: seq<Transaction>,
                              response: VerifyReceiptResponse, catalog: map<string, Product>,
                              now: Millis): Result<Purchase, ParseError>
  {
    if !IsSubscription(t) then
      Ok(ProcessPurchaseTransaction(t, response.receiptCreationDateMs, IsSandbox(response),
                                    ProductFor(t, catalog)))
    else ProcessSubscriptionTransaction(t, sortedInApp, response, ProductFor(t, catalog), now)
  }

  /** One transaction's purchase: it is rejected only on the subscription
      path, and then exactly where processSubscriptionTransaction throws;
      otherwise the purchase is a subscription iff the transaction is, and
      has a status iff it is one. */
  lemma TransactionShape(t: Transaction, sortedInApp: seq<Transaction>,
                         response: VerifyReceiptResponse, catalog: map<string, Product>,
                         now: Millis)
    ensures var r := ProcessTransaction(t, sortedInApp, response, catalog, now);
      && (r.Err? <==>
            IsSubscription(t)
            && (response.latestReceiptInfo.None?
                || |sortedInApp + response.latestReceiptInfo.value| == 0))
      && (r.Ok? ==>
            && (r.value.isSubscription <==> IsSubscription(t))
            && (r.value.subscriptionStatus.Some? <==> IsSubscription(t))
            && r.value.isSandbox == IsSandbox(response))
  {
    var product := ProductFor(t, catalog);
    if IsSubscription(t) && ProcessSubscriptionTransaction(t, sortedInApp, response, product, now).Ok? {
      SubscriptionOrders(t, sortedInApp, response, product, now);
      SubscriptionClassified(t, sortedInApp, response, product, now);
    }
  }

  /** processTransaction with the receipt-wide arguments fixed. */
  function Processor(sortedInApp: seq<Transaction>, response: VerifyReceiptResponse,
                     catalog: map<string, Product>, now: Millis): Transaction -> Result<Purchase, ParseError>
  {
    t => ProcessTransaction(t, sortedInApp, response, catalog, now)
  }

  /** The purchases of a list of transactions, in order; the first rejection
      rejects them all. */
  function ProcessAll(ts: seq<Transaction>, sortedInApp: seq<Transaction>,
                      response: VerifyReceiptResponse, catalog: map<string, Product>,
                      now: Millis): Result<seq<Purchase>, ParseError>
  {
    CollectOk(ts, Processor(sortedInApp, response, catalog, now))
  }

  /** ProcessAll rejects iff some transaction is rejected. */
  lemma ProcessAllErr(ts: seq<Transaction>, sortedInApp: seq<Transaction>,
                      response: VerifyReceiptResponse,
                      catalog: map<string, Product>, now: Millis)
    ensures ProcessAll(ts, sortedInApp, response, catalog, now).Err? <==>
      exists i :: 0 <= i < |ts| && ProcessTransaction(ts[i], sortedInApp, response, catalog, now).Err?
  {
    CollectOkErr(ts, Processor(sortedInApp, response, catalog, now));
  }

  /** A successful ProcessAll yields each transaction's purchase, in order. */
  lemma ProcessAllOk(ts: seq<Transaction>, sortedInApp: seq<Transaction>,
                     response: VerifyReceiptResponse,
                     catalog: map<string, Product>, now: Millis)
    ensures var r := ProcessAll(ts, sortedInApp, response, catalog, now);
      r.Ok? ==>
        |r.value| == |ts|
        && forall i :: 0 <= i < |ts| ==>
             ProcessTransaction(ts[i], sortedInApp, response, catalog, now) == Ok(r.value[i])
  {
    CollectOkOk(ts, Processor(sortedInApp, response, catalog, now));
  }

  /** parseReceipt over the `in_app` list as the caller passed it. */
  function ParseReceiptSpec(inApp: seq<Transaction>, response: VerifyReceiptResponse,
                            token: string, hash: string, includeNewer: bool,
                            catalog: map<string, Product>, now: Millis)
    : Result<ParsedReceipt, ParseError>
  {
    var merged := Merge(inApp, if response.latestReceiptInfo.Some? then response.latestReceiptInfo.value else [],
                        response.receiptCreationDateMs, includeNewer);
    Finish(Receipt(None, hash, None, IOS, token, response.receiptCreationDateMs),
           ProcessAll(merged, SortDesc(inApp, PurchaseMs), response, catalog, now))
  }

  /** The parsed receipt, or the first rejection. */
  function Finish(receipt: Receipt, purchases: Result<seq<Purchase>, ParseError>)
    : Result<ParsedReceipt, ParseError>
  {
    if purchases.Err? then Err(purchases.error) else Ok(ParsedReceipt(receipt, purchases.value))
  }

  /** parseReceipt yields one purchase per merged transaction, in merged
      order, through the subscription path iff the transaction has an
      `expires_date`; the receipt is an iOS receipt dated at the receipt's
      creation. It rejects only when a subscription meets an absent
      `latest_receipt_info`. */
  lemma ParseReceiptShape(inApp: seq<Transaction>, response: VerifyReceiptResponse,
                          token: string, hash: string, includeNewer: bool,
                          catalog: map<string, Product>, now: Millis)
    ensures var r := ParseReceiptSpec(inApp, response, token, hash, includeNewer, catalog, now);
      var merged := Merge(inApp, if response.latestReceiptInfo.Some? then response.latestReceiptInfo.value else [],
                          response.receiptCreationDateMs, includeNewer);
      && (r.Err? <==> response.latestReceiptInfo.None? && exists i :: 0 <= i < |merged| && IsSubscription(merged[i]))
      && (r.Ok? ==>
            && r.value.receipt == Receipt(None, hash, None, IOS, token, response.receiptCreationDateMs)
            && |r.value.purchases| == |merged|
            && forall i :: 0 <= i < |merged| ==>
                 (r.value.purchases[i].isSubscription <==> IsSubscription(merged[i]))
                 && (r.value.purchases[i].subscriptionStatus.Some? <==> IsSubscription(merged[i]))
                 && r.value.purchases[i].isSandbox == IsSandbox(response))
  {
    var latest := if response.latestReceiptInfo.Some? then response.latestReceiptInfo.value else [];
    var merged := Merge(inApp, latest, response.receiptCreationDateMs, includeNewer);
    var sortedInApp := SortDesc(inApp, PurchaseMs);
    ProcessAllErr(merged, sortedInApp, response, catalog, now);
    ProcessAllOk(merged, sortedInApp, response, catalog, now);
    forall i | 0 <= i < |merged|
      ensures var r := ProcessTransaction(merged[i], sortedInApp, response, catalog, now);
        && (r.Err? <==> IsSubscription(merged[i]) && response.latestReceiptInfo.None?)
        && (r.Ok? ==>
              && (r.value.isSubscription <==> IsSubscription(merged[i]))
              && (r.value.subscriptionStatus.Some? <==> IsSubscription(merged[i]))
              && r.value.isSandbox == IsSandbox(response))
    {
      TransactionShape(merged[i], sortedInApp, response, catalog, now);
      if response.latestReceiptInfo.Some? {
        MergeContents(inApp, latest, response.receiptCreationDateMs, includeNewer);
        assert merged[i] in merged;
        assert |sortedInApp + latest| > 0 by {
          if merged[i] !in latest {
            SortedMembers(inApp, PurchaseMs);
          }
        }
      }
    }
  }

  /** parseReceipt: sorts `in_app` in place (through mergeTransactions) and
      pushes one purchase per merged transaction. */
  method ParseReceipt(response: VerifyReceiptResponse, inApp: array<Transaction>,
                      token: string, hash: string, includeNewer: bool,
                      catalog: map<string, Product>, now: Millis)
    returns (r: Result<ParsedReceipt, ParseError>)
    modifies inApp
    ensures inApp[..] == SortDesc(old(inApp[..]), PurchaseMs)
    ensures r == ParseReceiptSpec(old(inApp[..]), response, token, hash, includeNewer, catalog, now)
  {
    var receipt := Receipt(None, hash, None, IOS, token, response.receiptCreationDateMs);
    var latest := if response.latestReceiptInfo.Some? then response.latestReceiptInfo.value else [];
    var transactions := MergeTransactions(inApp, latest, response.receiptCreationDateMs, includeNewer);
    var sortedInApp := inApp[..];
    assert ParseReceiptSpec(old(inApp[..]), response, token, hash, includeNewer, catalog, now)
        == Finish(receipt, ProcessAll(transactions, sortedInApp, response, catalog, now));
    ghost var process := Processor(sortedInApp, response, catalog, now);
    var purchases: seq<Purchase> := [];
    var i := 0;
    while i < |transactions|
      invariant 0 <= i <= |transactions|
      invariant inApp[..] == sortedInApp
      invariant CollectOk(transactions[..i], process) == Ok(purchases)
    {
      var next := ProcessTransaction(transactions[i], sortedInApp, response, catalog, now);
      assert process(transactions[i]) == next;
      CollectOkStep(transactions, i, process);
      if next.Err? {
        CollectOkErrPrefix(transactions, i + 1, process);
        return Err(next.error);
      }
      purchases := purchases + [next.value];
      i := i + 1;
    }
    assert transactions[..i] == transactions;
    r := Ok(ParsedReceipt(receipt, purchases));
  }
}
