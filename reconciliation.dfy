/** saveParsedReceipt and processParsedReceipt: a parsed receipt is reconciled
    with the store, oldest purchase first, and the change is classified
    against the snapshot taken before the save. */
module Reconciliation {
  import opened Wrappers
  import opened Types
  import opened IAPProvider

  /** The purchase table, keyed by its unique `orderId` column. */
  type Purchases = map<string, Purchase>

  /** The receipt table, keyed by its unique `hash` column. */
  type Receipts = map<string, Receipt>

  /** A store call the database rejects. */
  datatype StoreError = RecordNotFound

  /** Every row sits under its own key and carries an id below the next id
      the store will issue. */
  predicate WellFormed(purchases: Purchases, receipts: Receipts, nextId: nat)
  {
    (forall k :: k in purchases ==>
       purchases[k].orderId == k && purchases[k].id.Some? && purchases[k].id.value < nextId)
    && (forall h :: h in receipts ==>
       receipts[h].hash == h && receipts[h].id.Some? && receipts[h].id.value < nextId)
  }

  /** getPurchaseByOrderId. */
  function Lookup(purchases: Purchases, orderId: string): (r: Option<Purchase>)
    ensures r.Some? <==> orderId in purchases
    ensures r.Some? ==> r.value == purchases[orderId]
  {
    if orderId in purchases then Some(purchases[orderId]) else None
  }

  // ---------------------------------------------------------------------------
  // The user a receipt belongs to (lines 80-96)
  // ---------------------------------------------------------------------------

  /** The stored row of `orderId`, when it names a user. */
  function WithUser(purchases: Purchases, orderId: string): Option<Purchase>
  {
    if orderId in purchases && purchases[orderId].userId.Some? then Some(purchases[orderId])
    else None
  }

  /** The row getUserId reads: among the stored rows of `orderIds` that name
      a user, the one purchased last (on a tie, the one listed first). */
  function LatestWithUser(purchases: Purchases, orderIds: seq<string>): Option<Purchase>
    decreases |orderIds|
  {
    if |orderIds| == 0 then None
    else
      var here := WithUser(purchases, orderIds[0]);
      var later := LatestWithUser(purchases, orderIds[1..]);
      if here.None? then later
      else if later.Some? && later.value.purchaseDate > here.value.purchaseDate then later
      else here
  }

  /** getUserId finds nothing exactly when no listed row names a user, and
      otherwise the user of a listed row no other listed row postdates. */
  lemma {:induction false} LatestWithUserSpec(purchases: Purchases, orderIds: seq<string>)
    ensures var r := LatestWithUser(purchases, orderIds);
      (r.None? <==> forall i :: 0 <= i < |orderIds| ==> WithUser(purchases, orderIds[i]).None?)
      && (r.Some? ==>
            r.value.userId.Some?
            && (exists i :: 0 <= i < |orderIds| && WithUser(purchases, orderIds[i]) == r)
            && (forall i :: 0 <= i < |orderIds| && WithUser(purchases, orderIds[i]).Some? ==>
                  WithUser(purchases, orderIds[i]).value.purchaseDate <= r.value.purchaseDate))
    decreases |orderIds|
  {
    if |orderIds| > 0 {
      var tail := orderIds[1..];
      LatestWithUserSpec(purchases, tail);
      var r := LatestWithUser(purchases, orderIds);
      var later := LatestWithUser(purchases, tail);
      forall i | 0 < i < |orderIds| ensures orderIds[i] == tail[i - 1] { }
      if later.Some? {
        var j :| 0 <= j < |tail| && WithUser(purchases, tail[j]) == later;
        assert WithUser(purchases, orderIds[j + 1]) == later;
      }
    }
  }

  /** getUserId. */
  function ExistingUserId(purchases: Purchases, orderIds: seq<string>): Option<string>
  {
    var row := LatestWithUser(purchases, orderIds);
    if row.None? then None else row.value.userId
  }

  /** The order ids whose rows may already name the user: every purchase's,
      and for a subscription the original order of the newest one. */
  function LookupOrderIds(drafts: seq<Purchase>): (ids: seq<string>)
    requires |drafts| >= 1
    ensures |drafts| <= |ids| <= |drafts| + 1
    ensures forall i :: 0 <= i < |drafts| ==> ids[i] == drafts[i].orderId
    ensures |ids| > |drafts| <==> drafts[0].isSubscription && drafts[0].originalOrderId.Some?
    ensures |ids| > |drafts| ==> ids[|drafts|] == drafts[0].originalOrderId.value
  {
    seq(|drafts|, i requires 0 <= i < |drafts| => drafts[i].orderId)
    + (if drafts[0].isSubscription && drafts[0].originalOrderId.Some?
       then [drafts[0].originalOrderId.value] else [])
  }

  /** The user the receipt is saved for: the caller's when truthy, else the
      one on file (possibly none). */
  function ResolvedUser(given: Option<string>, existing: Option<string>): Option<string>
  {
    if Present(given) then given else existing
  }

  /** syncUserId is called: the flag is set, a user is on file, and the
      caller names a different, truthy one. */
  predicate SyncsUser(given: Option<string>, sync: bool, existing: Option<string>)
  {
    Present(given) && sync && existing.Some? && given != existing
  }

  /** syncUserId on the purchase table: every row of `from` moves to `to`. */
  function SyncPurchases(purchases: Purchases, from: string, to: string): (r: Purchases)
    ensures r.Keys == purchases.Keys
  {
    map k | k in purchases ::
      if purchases[k].userId == Some(from) then purchases[k].(userId := Some(to)) else purchases[k]
  }

  /** syncUserId on the receipt table. */
  function SyncReceipts(receipts: Receipts, from: string, to: string): (r: Receipts)
    ensures r.Keys == receipts.Keys
  {
    map h | h in receipts ::
      if receipts[h].userId == Some(from) then receipts[h].(userId := Some(to)) else receipts[h]
  }

  /** After a sync no row is left with the old user, rows of other users are
      untouched, and nothing but the user changes. */
  lemma SyncMovesOnlyUser(purchases: Purchases, receipts: Receipts, from: string, to: string)
    requires from != to
    ensures forall k :: k in SyncPurchases(purchases, from, to) ==>
      SyncPurchases(purchases, from, to)[k].userId != Some(from)
      && SyncPurchases(purchases, from, to)[k]
           == purchases[k].(userId := SyncPurchases(purchases, from, to)[k].userId)
      && (purchases[k].userId != Some(from) ==> SyncPurchases(purchases, from, to)[k] == purchases[k])
    ensures forall h :: h in SyncReceipts(receipts, from, to) ==>
      SyncReceipts(receipts, from, to)[h].userId != Some(from)
      && SyncReceipts(receipts, from, to)[h]
           == receipts[h].(userId := SyncReceipts(receipts, from, to)[h].userId)
      && (receipts[h].userId != Some(from) ==> SyncReceipts(receipts, from, to)[h] == receipts[h])
  {
  }

  /** The sync keeps the store well formed. */
  lemma SyncWellFormed(purchases: Purchases, receipts: Receipts, nextId: nat, from: string, to: string)
    requires WellFormed(purchases, receipts, nextId)
    ensures WellFormed(SyncPurchases(purchases, from, to), SyncReceipts(receipts, from, to), nextId)
  {
  }

  // ---------------------------------------------------------------------------
  // The receipt row (lines 96-103)
  // ---------------------------------------------------------------------------

  /** updateReceipt: the row with the receipt's id is overwritten; without an
      id, or when the row under the receipt's hash has another id, the call is
      rejected. */
  function UpdatedReceipts(receipts: Receipts, r: Receipt): Result<Receipts, StoreError>
  {
    if r.id.Some? && r.hash in receipts && receipts[r.hash].id == r.id then Ok(receipts[r.hash := r])
    else Err(RecordNotFound)
  }

  /** What line 102 hands to updateReceipt: the parsed receipt, stamped with
      the user at line 96. */
  function UpdateArgumentAsWritten(parsed: Receipt, userId: Option<string>): Receipt
  {
    parsed.(userId := userId)
  }

  /** What line 101 prepares and line 102 evidently means to send: the stored
      row with the new user. */
  function UpdateArgument(stored: Receipt, userId: Option<string>): Receipt
  {
    stored.(userId := userId)
  }

  /** As written, the update is rejected: the parsed receipt has never been
      stored, so it carries no id (both parsers leave it unset). */
  lemma UpdateRejectedAsWritten(receipts: Receipts, parsed: Receipt, userId: Option<string>)
    requires parsed.id.None?
    ensures UpdatedReceipts(receipts, UpdateArgumentAsWritten(parsed, userId)) == Err(RecordNotFound)
  {
  }

  /** Sending the stored row instead updates exactly that row's user and
      keeps its id, token and receipt date. */
  lemma UpdateKeepsStoredRow(receipts: Receipts, nextId: nat, hash: string, userId: Option<string>)
    requires WellFormed(map[], receipts, nextId)
    requires hash in receipts
    ensures UpdatedReceipts(receipts, UpdateArgument(receipts[hash], userId)).Ok?
    ensures var r := UpdatedReceipts(receipts, UpdateArgument(receipts[hash], userId)).value;
      r.Keys == receipts.Keys && r[hash] == receipts[hash].(userId := userId)
      && forall h :: h in receipts && h != hash ==> r[h] == receipts[h]
  {
  }

  /** The receipt row after lines 97-103, the next id, and the row the
      purchases are attached to. */
  datatype ReceiptSaved = ReceiptSaved(receipts: Receipts, nextId: nat, row: Receipt)

  /** Lines 97-103: create the receipt when no row has its hash; otherwise
      move the stored row to a truthy user that differs from its own. */
  function UpsertReceipt(receipts: Receipts, nextId: nat, receipt: Receipt): ReceiptSaved
  {
    if receipt.hash !in receipts then
      var row := receipt.(id := Some(nextId));
      ReceiptSaved(receipts[receipt.hash := row], nextId + 1, row)
    else
      var stored := receipts[receipt.hash];
      if Present(receipt.userId) && stored.userId != receipt.userId then
        var row := UpdateArgument(stored, receipt.userId);
        ReceiptSaved(receipts[receipt.hash := row], nextId, row)
      else ReceiptSaved(receipts, nextId, stored)
  }

  /** A receipt is created iff none has its hash, and a stored one changes
      only in its user, only when the resolved user is truthy and differs. */
  lemma UpsertReceiptSpec(purchases: Purchases, receipts: Receipts, nextId: nat, receipt: Receipt)
    requires WellFormed(purchases, receipts, nextId)
    ensures var s := UpsertReceipt(receipts, nextId, receipt);
      WellFormed(purchases, s.receipts, s.nextId)
      && s.receipts.Keys == receipts.Keys + {receipt.hash}
      && s.receipts[receipt.hash] == s.row && s.row.id.Some?
      && (forall h :: h in receipts && h != receipt.hash ==> s.receipts[h] == receipts[h])
      && (receipt.hash !in receipts ==>
            s.nextId == nextId + 1 && s.row == receipt.(id := Some(nextId)))
      && (receipt.hash in receipts ==>
            s.nextId == nextId
            && s.row == receipts[receipt.hash].(userId := s.row.userId)
            && (s.row != receipts[receipt.hash] <==>
                  Present(receipt.userId) && receipts[receipt.hash].userId != receipt.userId))
  {
    if receipt.hash in receipts {
      var stored := receipts[receipt.hash];
      if Present(receipt.userId) && stored.userId != receipt.userId {
        UpdateKeepsStoredRow(receipts, nextId, receipt.hash, receipt.userId);
      }
    }
  }

  /** Lines 97-103 as written: the update of line 102 sends the parsed
      receipt, and its rejection rejects the whole save. */
  function UpsertReceiptAsWritten(receipts: Receipts, nextId: nat, receipt: Receipt)
    : Result<ReceiptSaved, StoreError>
  {
    if receipt.hash !in receipts then
      var row := receipt.(id := Some(nextId));
      Ok(ReceiptSaved(receipts[receipt.hash := row], nextId + 1, row))
    else
      var stored := receipts[receipt.hash];
      if Present(receipt.userId) && stored.userId != receipt.userId then
        var updated := UpdatedReceipts(receipts, UpdateArgumentAsWritten(receipt, receipt.userId));
        if updated.Err? then Err(updated.error)
        else Ok(ReceiptSaved(updated.value, nextId, UpdateArgumentAsWritten(receipt, receipt.userId)))
      else Ok(ReceiptSaved(receipts, nextId, stored))
  }

  /** For a parsed receipt, which carries no id, the save as written is
      rejected exactly when a stored receipt with its hash must move to
      another truthy user; on every other input it does what UpsertReceipt
      does. */
  lemma UpsertAsWrittenRejects(receipts: Receipts, nextId: nat, receipt: Receipt)
    requires receipt.id.None?
    ensures var r := UpsertReceiptAsWritten(receipts, nextId, receipt);
      (r.Err? <==> receipt.hash in receipts && Present(receipt.userId)
                   && receipts[receipt.hash].userId != receipt.userId)
      && (r.Ok? ==> r.value == UpsertReceipt(receipts, nextId, receipt))
  {
    if receipt.hash in receipts && Present(receipt.userId)
       && receipts[receipt.hash].userId != receipt.userId {
      UpdateRejectedAsWritten(receipts, receipt, receipt.userId);
    }
  }

  // ---------------------------------------------------------------------------
  // One purchase (lines 110-158)
  // ---------------------------------------------------------------------------

  /** Lines 118-133 for one link: the id of the order `orderId` names, when
      that order is on file; otherwise the draft's own value stays. */
  function LinkedId(purchases: Purchases, orderId: Option<string>, current: Option<Id>): Option<Id>
  {
    if Present(orderId) && orderId.value in purchases then purchases[orderId.value].id else current
  }

  /** Lines 111-133: the draft is stamped with the receipt's id, with the user
      when truthy, and with the ids of its original and linked orders when
      those are on file. */
  function Stamp(purchases: Purchases, draft: Purchase, receiptId: Option<Id>, userId: Option<string>): Purchase
  {
    draft.(receiptId := receiptId,
           userId := if Present(userId) then userId else draft.userId,
           originalPurchaseId := LinkedId(purchases, draft.originalOrderId, draft.originalPurchaseId),
           linkedPurchaseId := LinkedId(purchases, draft.linkedOrderId, draft.linkedPurchaseId))
  }

  /** The table after one purchase, the next id, the draft as the loop left
      it, and the stored row the iteration ends with. */
  datatype Step = Step(purchases: Purchases, nextId: nat, draft: Purchase, row: Purchase)

  /** Lines 142-151: a draft of a known order takes the stored id, and keeps
      the stored receipt id and date when the stored date is earlier. */
  function Refresh(stored: Purchase, p: Purchase): Purchase
  {
    var older := stored.receiptDate < p.receiptDate;
    p.(id := stored.id,
       receiptId := if older then stored.receiptId else p.receiptId,
       receiptDate := if older then stored.receiptDate else p.receiptDate)
  }

  /** Lines 135-158 for a stamped draft: a new order is created (and made its
      own original when it is the chain root); a known one is refreshed from
      the stored row and written only when purchasesEqual finds a difference,
      tested here in the equivalent form PurchasesEqualSkips proves. */
  function SaveStamped(purchases: Purchases, nextId: nat, p: Purchase): Step
  {
    if p.orderId !in purchases then
      var row := p.(id := Some(nextId),
                    originalPurchaseId :=
                      if Some(p.orderId) == p.originalOrderId then Some(nextId) else p.originalPurchaseId);
      Step(purchases[p.orderId := row], nextId + 1, p, row)
    else
      var stored := purchases[p.orderId];
      var q := Refresh(stored, p);
      if Erase(stored) == Erase(q) then Step(purchases, nextId, q, stored)
      else Step(purchases[p.orderId := q], nextId, q, q)
  }

  /** One iteration of the loop. */
  function SaveOne(purchases: Purchases, nextId: nat, draft: Purchase,
                   receiptId: Option<Id>, userId: Option<string>): Step
  {
    SaveStamped(purchases, nextId, Stamp(purchases, draft, receiptId, userId))
  }

  /** The stamped draft keeps the order id and differs from the draft only
      in what purchasesEqual skips and in its receipt id. */
  lemma StampErased(purchases: Purchases, draft: Purchase, receiptId: Option<Id>, userId: Option<string>)
    ensures Stamp(purchases, draft, receiptId, userId).orderId == draft.orderId
    ensures Erase(Stamp(purchases, draft, receiptId, userId)) == Erase(draft.(receiptId := receiptId))
  {
  }

  /** One stamped draft touches only its own row, which then holds the row
      returned; a new id is issued iff the order was not on file, and a known
      order keeps its id. */
  lemma SaveStampedWrites(purchases: Purchases, nextId: nat, p: Purchase)
    ensures var s := SaveStamped(purchases, nextId, p);
      s.draft.orderId == p.orderId && s.row.orderId == p.orderId
      && s.purchases == purchases[p.orderId := s.row]
      && s.nextId == (if p.orderId in purchases then nextId else nextId + 1)
      && s.row.id == (if p.orderId in purchases then purchases[p.orderId].id else Some(nextId))
  {
    var s := SaveStamped(purchases, nextId, p);
    if p.orderId in purchases && s.purchases == purchases {
      assert purchases[p.orderId := purchases[p.orderId]] == purchases;
    }
  }

  /** One stamped draft keeps the table well formed. */
  lemma SaveStampedWellFormed(purchases: Purchases, receipts: Receipts, nextId: nat, p: Purchase)
    requires WellFormed(purchases, receipts, nextId)
    ensures var s := SaveStamped(purchases, nextId, p);
      WellFormed(s.purchases, receipts, s.nextId)
  {
    SaveStampedWrites(purchases, nextId, p);
  }

  /** One iteration touches only the draft's own row, which then holds the
      row the iteration returns. */
  lemma SaveOneWrites(purchases: Purchases, nextId: nat, draft: Purchase,
                      receiptId: Option<Id>, userId: Option<string>)
    ensures var s := SaveOne(purchases, nextId, draft, receiptId, userId);
      s.draft.orderId == draft.orderId
      && s.purchases == purchases[draft.orderId := s.row]
      && s.nextId == (if draft.orderId in purchases then nextId else nextId + 1)
  {
    StampErased(purchases, draft, receiptId, userId);
    SaveStampedWrites(purchases, nextId, Stamp(purchases, draft, receiptId, userId));
  }

  /** One iteration keeps the table well formed. */
  lemma SaveOneWellFormed(purchases: Purchases, receipts: Receipts, nextId: nat, draft: Purchase,
                          receiptId: Option<Id>, userId: Option<string>)
    requires WellFormed(purchases, receipts, nextId)
    ensures var s := SaveOne(purchases, nextId, draft, receiptId, userId);
      WellFormed(s.purchases, receipts, s.nextId)
  {
    SaveStampedWellFormed(purchases, receipts, nextId, Stamp(purchases, draft, receiptId, userId));
  }

  /** A new order gets a fresh id, and the chain root is made its own
      original purchase. */
  lemma SaveOneCreates(purchases: Purchases, receipts: Receipts, nextId: nat, draft: Purchase,
                       receiptId: Option<Id>, userId: Option<string>)
    requires WellFormed(purchases, receipts, nextId)
    requires draft.orderId !in purchases
    ensures var s := SaveOne(purchases, nextId, draft, receiptId, userId);
      s.row.id == Some(nextId)
      && (forall k :: k in purchases ==> purchases[k].id != s.row.id)
      && s.row == s.draft.(id := s.row.id, originalPurchaseId := s.row.originalPurchaseId)
      && (Some(draft.orderId) == draft.originalOrderId ==> s.row.originalPurchaseId == s.row.id)
      && (Some(draft.orderId) != draft.originalOrderId ==> s.row == s.draft.(id := s.row.id))
      && s.row.receiptId == receiptId && s.row.receiptDate == draft.receiptDate
  {
    StampErased(purchases, draft, receiptId, userId);
  }

  /** A known order keeps its stored id; the stored receipt id and date
      survive when the stored date is earlier, so the row ends up with the
      earliest receipt date; and the row is written iff purchasesEqual finds
      a difference, so the row the iteration ends with always agrees with
      the draft. */
  lemma SaveOneUpdates(purchases: Purchases, nextId: nat, draft: Purchase,
                       receiptId: Option<Id>, userId: Option<string>)
    requires draft.orderId in purchases
    ensures var stored := purchases[draft.orderId];
      var s := SaveOne(purchases, nextId, draft, receiptId, userId);
      s.nextId == nextId
      && s.row.id == stored.id && s.draft.id == stored.id
      && s.row.receiptDate == (if stored.receiptDate < draft.receiptDate then stored.receiptDate
                               else draft.receiptDate)
      && s.row.receiptId == (if stored.receiptDate < draft.receiptDate then stored.receiptId
                             else receiptId)
      && (s.purchases == purchases <==> PurchasesEqual(stored, s.draft))
      && (s.row == stored || s.row == s.draft)
      && PurchasesEqual(s.row, s.draft)
  {
    var s := SaveOne(purchases, nextId, draft, receiptId, userId);
    var stored := purchases[draft.orderId];
    StampErased(purchases, draft, receiptId, userId);
    PurchasesEqualSkips(stored, s.draft);
    PurchasesEqualSkips(s.draft, s.draft);
    if !PurchasesEqual(stored, s.draft) {
      assert s.purchases[draft.orderId] != stored;
    }
  }

  /** Refreshing drafts that differ only in what purchasesEqual skips gives
      rows that differ only there too. */
  lemma RefreshErased(stored: Purchase, p1: Purchase, p2: Purchase)
    requires Erase(p1) == Erase(p2)
    ensures Erase(Refresh(stored, p1)) == Erase(Refresh(stored, p2))
  {
    assert p1.receiptDate == p2.receiptDate;
  }

  /** Refreshing from the refreshed row changes nothing more. */
  lemma RefreshTwice(stored: Purchase, p: Purchase)
    ensures Refresh(Refresh(stored, p), p) == Refresh(stored, p)
  {
  }

  /** Saving, after a stamped draft, one that differs from it only in what
      purchasesEqual skips writes nothing and returns the same row. */
  lemma SaveStampedTwice(purchases: Purchases, nextId: nat, p1: Purchase, p2: Purchase)
    requires Erase(p1) == Erase(p2)
    ensures var s := SaveStamped(purchases, nextId, p1);
      var t := SaveStamped(s.purchases, s.nextId, p2);
      t.purchases == s.purchases && t.nextId == s.nextId && t.row == s.row
  {
    var s := SaveStamped(purchases, nextId, p1);
    var k := p1.orderId;
    assert p2.orderId == k by {
      assert Erase(p1).orderId == Erase(p2).orderId;
    }
    RefreshErased(s.row, p1, p2);
    if k !in purchases {
      assert s.purchases[k] == s.row;
      assert Refresh(s.row, p1) == p1.(id := Some(nextId));
      assert Erase(s.row) == Erase(p1.(id := Some(nextId)));
    } else {
      var stored := purchases[k];
      var q1 := Refresh(stored, p1);
      RefreshErased(stored, p1, p2);
      PurchasesEqualSkips(stored, q1);
      PurchasesEqualSkips(stored, Refresh(stored, p2));
      if !PurchasesEqual(stored, q1) {
        assert s.purchases[k] == s.row == q1;
        RefreshTwice(stored, p1);
      }
    }
    PurchasesEqualSkips(s.row, Refresh(s.row, p2));
  }

  /** Saving the same draft again, with the same receipt and user, writes
      nothing and returns the same row: a receipt delivered twice is a no-op
      the second time. */
  lemma SaveOneIdempotent(purchases: Purchases, nextId: nat, draft: Purchase,
                          receiptId: Option<Id>, userId: Option<string>)
    ensures var s := SaveOne(purchases, nextId, draft, receiptId, userId);
      var t := SaveOne(s.purchases, s.nextId, draft, receiptId, userId);
      t.purchases == s.purchases && t.nextId == s.nextId && t.row == s.row
  {
    var s := SaveOne(purchases, nextId, draft, receiptId, userId);
    StampErased(purchases, draft, receiptId, userId);
    StampErased(s.purchases, draft, receiptId, userId);
    SaveStampedTwice(purchases, nextId, Stamp(purchases, draft, receiptId, userId),
                     Stamp(s.purchases, draft, receiptId, userId));
  }

  // ---------------------------------------------------------------------------
  // The loop (lines 107-161)
  // ---------------------------------------------------------------------------

  /** The state after some iterations: the table, the next id, the drafts
      as the loop left them, and the last stored row. */
  datatype Progress = Progress(purchases: Purchases, nextId: nat, drafts: seq<Purchase>,
                               last: Option<Purchase>)

  /** The iterations over `drafts`, in order. */
  function SaveAll(purchases: Purchases, nextId: nat, drafts: seq<Purchase>,
                   receiptId: Option<Id>, userId: Option<string>): (r: Progress)
    ensures |r.drafts| == |drafts|
    ensures r.last.None? <==> |drafts| == 0
    decreases |drafts|
  {
    if |drafts| == 0 then Progress(purchases, nextId, [], None)
    else
      var before := SaveAll(purchases, nextId, drafts[..|drafts| - 1], receiptId, userId);
      var s := SaveOne(before.purchases, before.nextId, drafts[|drafts| - 1], receiptId, userId);
      Progress(s.purchases, s.nextId, before.drafts + [s.draft], Some(s.row))
  }

  /** The order ids of a list of purchases. */
  function OrderIds(drafts: seq<Purchase>): set<string>
  {
    set i | 0 <= i < |drafts| :: drafts[i].orderId
  }

  /** Two lists of purchases name the same orders, position by position. */
  predicate SameOrders(a: seq<Purchase>, b: seq<Purchase>)
  {
    |a| == |b| && forall i :: 0 <= i < |a| ==> a[i].orderId == b[i].orderId
  }

  lemma OrderIdsLast(drafts: seq<Purchase>)
    requires |drafts| > 0
    ensures OrderIds(drafts) == OrderIds(drafts[..|drafts| - 1]) + {drafts[|drafts| - 1].orderId}
  {
    var init := drafts[..|drafts| - 1];
    forall x | x in OrderIds(drafts) ensures x in OrderIds(init) + {drafts[|drafts| - 1].orderId} {
      var i :| 0 <= i < |drafts| && drafts[i].orderId == x;
      if i < |init| {
        assert drafts[i] == init[i];
      }
    }
    forall x | x in OrderIds(init) ensures x in OrderIds(drafts) {
      var i :| 0 <= i < |init| && init[i].orderId == x;
      assert drafts[i] == init[i];
    }
  }

  lemma SameOrdersLast(a: seq<Purchase>, x: Purchase, b: seq<Purchase>)
    requires |b| > 0 && SameOrders(a, b[..|b| - 1]) && x.orderId == b[|b| - 1].orderId
    ensures SameOrders(a + [x], b)
  {
    forall i | 0 <= i < |b| ensures (a + [x])[i].orderId == b[i].orderId {
      if i < |a| {
        assert (a + [x])[i] == a[i] && b[..|b| - 1][i] == b[i];
      }
    }
  }

  /** The loop keeps the table well formed. */
  lemma {:induction false} SaveAllWellFormed(purchases: Purchases, receipts: Receipts, nextId: nat,
                                             drafts: seq<Purchase>, receiptId: Option<Id>,
                                             userId: Option<string>)
    requires WellFormed(purchases, receipts, nextId)
    ensures var r := SaveAll(purchases, nextId, drafts, receiptId, userId);
      WellFormed(r.purchases, receipts, r.nextId)
    decreases |drafts|
  {
    if |drafts| > 0 {
      var init := drafts[..|drafts| - 1];
      var d := drafts[|drafts| - 1];
      SaveAllWellFormed(purchases, receipts, nextId, init, receiptId, userId);
      var before := SaveAll(purchases, nextId, init, receiptId, userId);
      SaveOneWellFormed(before.purchases, receipts, before.nextId, d, receiptId, userId);
    }
  }

  /** After the loop every order of `drafts` is on file, and no other order
      was added. */
  lemma {:induction false} SaveAllKeys(purchases: Purchases, nextId: nat, drafts: seq<Purchase>,
                                       receiptId: Option<Id>, userId: Option<string>)
    ensures var r := SaveAll(purchases, nextId, drafts, receiptId, userId);
      r.purchases.Keys == purchases.Keys + OrderIds(drafts)
    decreases |drafts|
  {
    if |drafts| > 0 {
      var init := drafts[..|drafts| - 1];
      var d := drafts[|drafts| - 1];
      SaveAllKeys(purchases, nextId, init, receiptId, userId);
      var before := SaveAll(purchases, nextId, init, receiptId, userId);
      SaveOneWrites(before.purchases, before.nextId, d, receiptId, userId);
      OrderIdsLast(drafts);
    }
  }

  /** The loop leaves each draft at its place with its order id, and returns
      the stored row of the last draft processed. */
  lemma {:induction false} SaveAllResult(purchases: Purchases, nextId: nat, drafts: seq<Purchase>,
                                         receiptId: Option<Id>, userId: Option<string>)
    ensures var r := SaveAll(purchases, nextId, drafts, receiptId, userId);
      SameOrders(r.drafts, drafts)
      && (|drafts| > 0 ==> r.last == Some(r.purchases[drafts[|drafts| - 1].orderId]))
    decreases |drafts|
  {
    if |drafts| > 0 {
      var init := drafts[..|drafts| - 1];
      var d := drafts[|drafts| - 1];
      SaveAllResult(purchases, nextId, init, receiptId, userId);
      var before := SaveAll(purchases, nextId, init, receiptId, userId);
      SaveOneWrites(before.purchases, before.nextId, d, receiptId, userId);
      var s := SaveOne(before.purchases, before.nextId, d, receiptId, userId);
      SameOrdersLast(before.drafts, s.draft, drafts);
    }
  }

  /** The loop's step, on prefixes of the list being walked. */
  lemma SaveAllPrefix(purchases: Purchases, nextId: nat, drafts: seq<Purchase>, i: nat,
                      receiptId: Option<Id>, userId: Option<string>)
    requires i < |drafts|
    ensures var before := SaveAll(purchases, nextId, drafts[..i], receiptId, userId);
      var s := SaveOne(before.purchases, before.nextId, drafts[i], receiptId, userId);
      SaveAll(purchases, nextId, drafts[..i + 1], receiptId, userId)
        == Progress(s.purchases, s.nextId, before.drafts + [s.draft], Some(s.row))
  {
    assert drafts[..i + 1][..i] == drafts[..i];
  }

  /** Growing a known prefix by one element. */
  lemma PrefixSnoc<T>(s: seq<T>, i: nat, before: seq<T>)
    requires i < |s| && s[..i] == before
    ensures s[..i + 1] == before + [s[i]]
  {
    assert s[..i + 1] == s[..i] + [s[i]];
  }

  /** `s` back to front. */
  function Reverse<T>(s: seq<T>): (r: seq<T>)
    ensures |r| == |s|
    ensures forall i :: 0 <= i < |s| ==> r[i] == s[|s| - 1 - i]
  {
    seq(|s|, i requires 0 <= i < |s| => s[|s| - 1 - i])
  }

  /** Reversing twice gives the list back. */
  lemma ReverseReverse<T>(s: seq<T>)
    ensures Reverse(Reverse(s)) == s
  {
  }

  // ---------------------------------------------------------------------------
  // saveParsedReceipt as a whole
  // ---------------------------------------------------------------------------

  /** The store after saveParsedReceipt, the drafts as the caller sees them
      afterwards (reversed and stamped), and the row it returns. */
  datatype Saved = Saved(purchases: Purchases, receipts: Receipts, nextId: nat,
                         receipt: Receipt, drafts: seq<Purchase>, result: Purchase)

  /** The user saveParsedReceipt files the receipt under. */
  function UserFor(purchases: Purchases, drafts: seq<Purchase>, given: Option<string>): Option<string>
    requires |drafts| >= 1
  {
    ResolvedUser(given, ExistingUserId(purchases, LookupOrderIds(drafts)))
  }

  /** saveParsedReceipt, lines 72-162 (with the receipt update of line 102
      sending the stored row). */
  function SaveParsed(purchases: Purchases, receipts: Receipts, nextId: nat, receipt: Receipt,
                      drafts: seq<Purchase>, given: Option<string>, sync: bool): Saved
    requires |drafts| >= 1
  {
    var existing := ExistingUserId(purchases, LookupOrderIds(drafts));
    var userId := ResolvedUser(given, existing);
    var synced := SyncsUser(given, sync, existing);
    var purchases1 := if synced then SyncPurchases(purchases, existing.value, given.value) else purchases;
    var receipts1 := if synced then SyncReceipts(receipts, existing.value, given.value) else receipts;
    var r := UpsertReceipt(receipts1, nextId, receipt.(userId := userId));
    var pr := SaveAll(purchases1, r.nextId, Reverse(drafts), r.row.id, userId);
    Saved(pr.purchases, r.receipts, pr.nextId, r.row, pr.drafts, pr.last.value)
  }

  /** What saveParsedReceipt leaves in the receipt table: the store stays
      well formed, the receipt is on file under its hash with an id, and it
      is filed under the resolved user when it is new or when that user is
      truthy. */
  lemma SaveParsedStore(purchases: Purchases, receipts: Receipts, nextId: nat, receipt: Receipt,
                        drafts: seq<Purchase>, given: Option<string>, sync: bool)
    requires WellFormed(purchases, receipts, nextId)
    requires |drafts| >= 1
    ensures var s := SaveParsed(purchases, receipts, nextId, receipt, drafts, given, sync);
      var userId := UserFor(purchases, drafts, given);
      WellFormed(s.purchases, s.receipts, s.nextId)
      && s.receipts[receipt.hash] == s.receipt
      && s.receipt.id.Some?
      && (receipt.hash !in receipts ==> s.receipt.userId == userId)
      && (Present(userId) ==> s.receipt.userId == userId)
  {
    var existing := ExistingUserId(purchases, LookupOrderIds(drafts));
    var userId := ResolvedUser(given, existing);
    var synced := SyncsUser(given, sync, existing);
    var purchases1 := if synced then SyncPurchases(purchases, existing.value, given.value) else purchases;
    var receipts1 := if synced then SyncReceipts(receipts, existing.value, given.value) else receipts;
    if synced {
      SyncWellFormed(purchases, receipts, nextId, existing.value, given.value);
    }
    var stamped := receipt.(userId := userId);
    UpsertReceiptSpec(purchases1, receipts1, nextId, stamped);
    var r := UpsertReceipt(receipts1, nextId, stamped);
    SaveAllWellFormed(purchases1, r.receipts, r.nextId, Reverse(drafts), r.row.id, userId);
  }

  /** The loop run over the caller's list reversed: every purchase ends up
      on file, the drafts come back oldest first, and the last row is the
      stored row of the newest purchase. */
  lemma SaveReversed(purchases: Purchases, nextId: nat, drafts: seq<Purchase>,
                     receiptId: Option<Id>, userId: Option<string>)
    requires |drafts| >= 1
    ensures var pr := SaveAll(purchases, nextId, Reverse(drafts), receiptId, userId);
      (forall i :: 0 <= i < |drafts| ==> drafts[i].orderId in pr.purchases)
      && pr.last.value == pr.purchases[drafts[0].orderId]
      && |pr.drafts| == |drafts|
      && (forall i :: 0 <= i < |drafts| ==> pr.drafts[i].orderId == drafts[|drafts| - 1 - i].orderId)
  {
    var rev := Reverse(drafts);
    SaveAllKeys(purchases, nextId, rev, receiptId, userId);
    SaveAllResult(purchases, nextId, rev, receiptId, userId);
    var pr := SaveAll(purchases, nextId, rev, receiptId, userId);
    assert rev[|rev| - 1] == drafts[0];
    forall i | 0 <= i < |drafts| ensures drafts[i].orderId in pr.purchases {
      assert rev[|drafts| - 1 - i] == drafts[i];
    }
  }

  /** What saveParsedReceipt leaves in the purchase table: every purchase
      is on file under its order id; the caller's list is now oldest first;
      and the row returned is the stored row of the newest purchase. */
  lemma SaveParsedPurchases(purchases: Purchases, receipts: Receipts, nextId: nat, receipt: Receipt,
                            drafts: seq<Purchase>, given: Option<string>, sync: bool)
    requires |drafts| >= 1
    ensures var s := SaveParsed(purchases, receipts, nextId, receipt, drafts, given, sync);
      (forall i :: 0 <= i < |drafts| ==> drafts[i].orderId in s.purchases)
      && s.result == s.purchases[drafts[0].orderId]
      && |s.drafts| == |drafts|
      && (forall i :: 0 <= i < |drafts| ==> s.drafts[i].orderId == drafts[|drafts| - 1 - i].orderId)
  {
    var existing := ExistingUserId(purchases, LookupOrderIds(drafts));
    var userId := ResolvedUser(given, existing);
    var synced := SyncsUser(given, sync, existing);
    var purchases1 := if synced then SyncPurchases(purchases, existing.value, given.value) else purchases;
    var receipts1 := if synced then SyncReceipts(receipts, existing.value, given.value) else receipts;
    var r := UpsertReceipt(receipts1, nextId, receipt.(userId := userId));
    SaveReversed(purchases1, r.nextId, drafts, r.row.id, userId);
  }

  // ---------------------------------------------------------------------------
  // The snapshot processParsedReceipt takes (lines 48-55)
  // ---------------------------------------------------------------------------

  /** A row the query `originalOrderId = o OR orderId = o` matches: for an
      order id, the original order itself or any row pointing at it; for a
      null one, every row whose original order id is null (the `orderId`
      column is never null, so its half matches nothing). */
  predicate InChain(row: Purchase, originalOrderId: Option<string>)
  {
    if originalOrderId.Some? then
      row.originalOrderId == originalOrderId || row.orderId == originalOrderId.value
    else row.originalOrderId.None?
  }

  /** getLatestPurchaseByOriginalOrderId: the latest-purchased row of the
      chain, or none when the chain has no row. */
  predicate IsLatestInChain(purchases: Purchases, originalOrderId: Option<string>, r: Option<Purchase>)
  {
    (r.None? <==> forall k :: k in purchases ==> !InChain(purchases[k], originalOrderId))
    && (r.Some? ==>
          (exists k :: k in purchases && purchases[k] == r.value)
          && InChain(r.value, originalOrderId)
          && forall k :: k in purchases && InChain(purchases[k], originalOrderId) ==>
               purchases[k].purchaseDate <= r.value.purchaseDate)
  }

  // ---------------------------------------------------------------------------
  // The store
  // ---------------------------------------------------------------------------

  /** The database collaborator, held in memory. */
  class Store {
    var purchases: Purchases
    var receipts: Receipts
    var nextId: nat

    ghost predicate Valid()
      reads this
    {
      WellFormed(purchases, receipts, nextId)
    }

    constructor ()
      ensures purchases == map[] && receipts == map[] && nextId == 0
      ensures Valid()
    {
      purchases := map[];
      receipts := map[];
      nextId := 0;
    }

    /** createPurchase: the row is stored under its order id with a new id. */
    method CreatePurchase(p: Purchase) returns (row: Purchase)
      requires p.orderId !in purchases
      requires Valid()
      modifies this
      ensures Valid()
      ensures row == p.(id := Some(old(nextId)))
      ensures purchases == old(purchases)[p.orderId := row]
      ensures nextId == old(nextId) + 1 && receipts == old(receipts)
    {
      row := p.(id := Some(nextId));
      purchases := purchases[p.orderId := row];
      nextId := nextId + 1;
    }

    /** updatePurchase: the row with id `id` is overwritten. */
    method UpdatePurchase(id: Option<Id>, p: Purchase) returns (row: Purchase)
      requires p.orderId in purchases && purchases[p.orderId].id == id
      requires Valid()
      modifies this
      ensures Valid()
      ensures row == p.(id := id)
      ensures purchases == old(purchases)[p.orderId := row]
      ensures nextId == old(nextId) && receipts == old(receipts)
    {
      row := p.(id := id);
      purchases := purchases[p.orderId := row];
    }

    /** syncUserId: every purchase and receipt of `from` moves to `to`. */
    method SyncUserId(from: string, to: string)
      requires Valid()
      modifies this
      ensures Valid()
      ensures purchases == SyncPurchases(old(purchases), from, to)
      ensures receipts == SyncReceipts(old(receipts), from, to)
      ensures nextId == old(nextId)
    {
      purchases := SyncPurchases(purchases, from, to);
      receipts := SyncReceipts(receipts, from, to);
    }

    /** createReceipt: the receipt is stored under its hash with a new id. */
    method CreateReceipt(r: Receipt) returns (row: Receipt)
      requires r.hash !in receipts
      requires Valid()
      modifies this
      ensures Valid()
      ensures row == r.(id := Some(old(nextId)))
      ensures receipts == old(receipts)[r.hash := row]
      ensures nextId == old(nextId) + 1 && purchases == old(purchases)
    {
      row := r.(id := Some(nextId));
      receipts := receipts[r.hash := row];
      nextId := nextId + 1;
    }

    /** updateReceipt: the row with the receipt's id is overwritten, or the
      call is rejected and nothing changes. */
    method UpdateReceipt(r: Receipt) returns (res: Result<Receipt, StoreError>)
      requires Valid()
      modifies this
      ensures Valid()
      ensures UpdatedReceipts(old(receipts), r).Ok? ==>
        res == Ok(r) && receipts == UpdatedReceipts(old(receipts), r).value
      ensures UpdatedReceipts(old(receipts), r).Err? ==>
        res == Err(RecordNotFound) && receipts == old(receipts)
      ensures purchases == old(purchases) && nextId == old(nextId)
    {
      var updated := UpdatedReceipts(receipts, r);
      if updated.Ok? {
        receipts := updated.value;
        res := Ok(r);
      } else {
        res := Err(RecordNotFound);
      }
    }

    /** getLatestPurchaseByOriginalOrderId, a scan of the table. */
    method LatestInChain(originalOrderId: Option<string>) returns (r: Option<Purchase>)
      ensures IsLatestInChain(purchases, originalOrderId, r)
    {
      r := None;
      var todo := purchases.Keys;
      while todo != {}
        invariant todo <= purchases.Keys
        invariant r.None? <==>
          forall k :: k in purchases && k !in todo ==> !InChain(purchases[k], originalOrderId)
        invariant r.Some? ==>
          (exists k :: k in purchases && purchases[k] == r.value)
          && InChain(r.value, originalOrderId)
          && forall k :: k in purchases && k !in todo && InChain(purchases[k], originalOrderId) ==>
               purchases[k].purchaseDate <= r.value.purchaseDate
        decreases todo
      {
        var k :| k in todo;
        var row := purchases[k];
        if InChain(row, originalOrderId) && (r.None? || r.value.purchaseDate < row.purchaseDate) {
          r := Some(row);
        }
        todo := todo - {k};
      }
    }
  }

  /** `purchases.reverse()`, in place. */
  method ReverseInPlace<T>(a: array<T>)
    modifies a
    ensures a[..] == Reverse(old(a[..]))
  {
    var i, j := 0, a.Length - 1;
    while i < j
      invariant 0 <= i <= a.Length && j == a.Length - 1 - i
      invariant i <= j + 1
      invariant forall k :: 0 <= k < i ==> a[k] == old(a[a.Length - 1 - k])
      invariant forall k :: j < k < a.Length ==> a[k] == old(a[a.Length - 1 - k])
      invariant forall k :: i <= k <= j ==> a[k] == old(a[k])
    {
      a[i], a[j] := a[j], a[i];
      i, j := i + 1, j - 1;
    }
  }

  /** Lines 80-94: the user the receipt is filed under; the user on file is
      renamed when the caller asks for it. */
  method ResolveUser(db: Store, drafts: array<Purchase>, given: Option<string>, sync: bool)
    returns (userId: Option<string>)
    requires db.Valid() && drafts.Length >= 1
    modifies db
    ensures db.Valid()
    ensures var existing := ExistingUserId(old(db.purchases), LookupOrderIds(drafts[..]));
      userId == ResolvedUser(given, existing)
      && (SyncsUser(given, sync, existing) ==>
            db.purchases == SyncPurchases(old(db.purchases), existing.value, given.value)
            && db.receipts == SyncReceipts(old(db.receipts), existing.value, given.value))
      && (!SyncsUser(given, sync, existing) ==>
            db.purchases == old(db.purchases) && db.receipts == old(db.receipts))
      && db.nextId == old(db.nextId)
  {
    var orderIds := LookupOrderIds(drafts[..]);
    var existing := ExistingUserId(db.purchases, orderIds);
    userId := given;
    if !Present(userId) {
      userId := existing;
    } else if sync && existing.Some? && userId != existing {
      SyncWellFormed(db.purchases, db.receipts, db.nextId, existing.value, userId.value);
      db.SyncUserId(existing.value, userId.value);
    }
  }

  /** Lines 96-103: the receipt row the purchases are attached to. */
  method SaveReceipt(db: Store, receipt: Receipt, userId: Option<string>) returns (dbReceipt: Receipt)
    requires db.Valid()
    modifies db
    ensures db.Valid()
    ensures ReceiptSaved(db.receipts, db.nextId, dbReceipt)
      == UpsertReceipt(old(db.receipts), old(db.nextId), receipt.(userId := userId))
    ensures db.purchases == old(db.purchases)
  {
    UpsertReceiptSpec(db.purchases, db.receipts, db.nextId, receipt.(userId := userId));
    var stamped := receipt.(userId := userId);
    if stamped.hash !in db.receipts {
      dbReceipt := db.CreateReceipt(stamped);
    } else {
      dbReceipt := db.receipts[stamped.hash];
      if Present(userId) && dbReceipt.userId != userId {
        var updated := db.UpdateReceipt(UpdateArgument(dbReceipt, userId));
        dbReceipt := updated.value;
      }
    }
  }

  /** Lines 111-133 on one draft. */
  method StampDraft(db: Store, draft: Purchase, receiptId: Option<Id>, userId: Option<string>)
    returns (purchase: Purchase)
    ensures purchase == Stamp(db.purchases, draft, receiptId, userId)
  {
    purchase := draft.(receiptId := receiptId);
    if Present(userId) {
      purchase := purchase.(userId := userId);
    }
    var originalId := FindLinkedId(db, purchase.originalOrderId, purchase.originalPurchaseId);
    var linkedId := FindLinkedId(db, purchase.linkedOrderId, purchase.linkedPurchaseId);
    purchase := purchase.(originalPurchaseId := originalId, linkedPurchaseId := linkedId);
  }

  /** Lines 118-133 for one link: the stored id of the order `orderId`
      names, looked up when that order id is truthy. */
  method FindLinkedId(db: Store, orderId: Option<string>, current: Option<Id>) returns (id: Option<Id>)
    ensures id == LinkedId(db.purchases, orderId, current)
  {
    id := current;
    if Present(orderId) {
      var found := Lookup(db.purchases, orderId.value);
      if found.Some? {
        id := found.value.id;
      }
    }
  }

  /** Lines 135-140: a new order is created; the chain root is then made
      its own original purchase. */
  method CreateNew(db: Store, purchase: Purchase) returns (row: Purchase)
    requires db.Valid() && purchase.orderId !in db.purchases
    modifies db
    ensures db.Valid()
    ensures var s := SaveStamped(old(db.purchases), old(db.nextId), purchase);
      db.purchases == s.purchases && db.nextId == s.nextId && row == s.row && purchase == s.draft
    ensures db.receipts == old(db.receipts)
  {
    row := db.CreatePurchase(purchase);
    if Some(purchase.orderId) == purchase.originalOrderId {
      row := db.UpdatePurchase(row.id, row.(originalPurchaseId := row.id));
    }
  }

  /** Lines 141-156: a known order is refreshed from its stored row and
      written when purchasesEqual finds a difference. */
  method RefreshKnown(db: Store, stamped: Purchase) returns (purchase: Purchase, row: Purchase)
    requires db.Valid() && stamped.orderId in db.purchases
    modifies db
    ensures db.Valid()
    ensures Step(db.purchases, db.nextId, purchase, row)
      == SaveStamped(old(db.purchases), old(db.nextId), stamped)
    ensures db.receipts == old(db.receipts)
  {
    var dbPurchase := db.purchases[stamped.orderId];
    purchase := stamped.(id := dbPurchase.id);
    if dbPurchase.receiptDate < purchase.receiptDate {
      purchase := purchase.(receiptId := dbPurchase.receiptId, receiptDate := dbPurchase.receiptDate);
    }
    assert purchase == Refresh(dbPurchase, stamped);
    row := dbPurchase;
    PurchasesEqualSkips(dbPurchase, purchase);
    if !PurchasesEqual(dbPurchase, purchase) {
      row := db.UpdatePurchase(dbPurchase.id, purchase);
    }
  }

  /** Lines 111-158: one iteration of the loop, returning the draft as it
      leaves it and the stored row. */
  method SavePurchase(db: Store, draft: Purchase, receiptId: Option<Id>, userId: Option<string>)
    returns (purchase: Purchase, row: Purchase)
    requires db.Valid()
    modifies db
    ensures db.Valid()
    ensures Step(db.purchases, db.nextId, purchase, row)
      == SaveOne(old(db.purchases), old(db.nextId), draft, receiptId, userId)
    ensures db.receipts == old(db.receipts)
  {
    purchase := StampDraft(db, draft, receiptId, userId);
    var dbPurchase := Lookup(db.purchases, purchase.orderId);
    if dbPurchase.None? {
      row := CreateNew(db, purchase);
    } else {
      purchase, row := RefreshKnown(db, purchase);
    }
  }

  /** Lines 110-159: the loop over the drafts, stamping each in place and
      returning the last stored row. */
  method SavePurchases(db: Store, drafts: array<Purchase>, receiptId: Option<Id>, userId: Option<string>)
    returns (last: Option<Purchase>)
    requires db.Valid()
    modifies db, drafts
    ensures db.Valid()
    ensures var pr := SaveAll(old(db.purchases), old(db.nextId), old(drafts[..]), receiptId, userId);
      db.purchases == pr.purchases && db.nextId == pr.nextId && drafts[..] == pr.drafts && last == pr.last
    ensures db.receipts == old(db.receipts)
  {
    ghost var order := drafts[..];
    last := None;
    var i := 0;
    while i < drafts.Length
      invariant 0 <= i <= drafts.Length
      invariant var done := SaveAll(old(db.purchases), old(db.nextId), order[..i], receiptId, userId);
        db.purchases == done.purchases && db.nextId == done.nextId && last == done.last
        && drafts[..i] == done.drafts
      invariant forall k :: i <= k < drafts.Length ==> drafts[k] == order[k]
      invariant db.receipts == old(db.receipts)
      invariant db.Valid()
    {
      SaveAllPrefix(old(db.purchases), old(db.nextId), order, i, receiptId, userId);
      ghost var before := drafts[..i];
      var purchase, row := SavePurchase(db, drafts[i], receiptId, userId);
      drafts[i] := purchase;
      PrefixSnoc(drafts[..], i, before);
      last := Some(row);
      i := i + 1;
    }
    assert order[..i] == order;
  }

  /** saveParsedReceipt against the store `db`. The caller's list of
      purchases is reversed and stamped in place, as the source does. */
  method SaveParsedReceipt(db: Store, receipt: Receipt, drafts: array<Purchase>,
                           given: Option<string>, sync: bool) returns (result: Purchase)
    requires db.Valid() && drafts.Length >= 1
    modifies db, drafts
    ensures db.Valid()
    ensures var s := SaveParsed(old(db.purchases), old(db.receipts), old(db.nextId), receipt,
                                old(drafts[..]), given, sync);
      db.purchases == s.purchases && db.receipts == s.receipts && db.nextId == s.nextId
      && drafts[..] == s.drafts && result == s.result
  {
    ghost var purchases0, receipts0, nextId0, drafts0 := db.purchases, db.receipts, db.nextId, drafts[..];
    var userId := ResolveUser(db, drafts, given, sync);
    var dbReceipt := SaveReceipt(db, receipt, userId);
    // Oldest first, so that original and linked orders are on file before
    // the purchases that point at them.
    ReverseInPlace(drafts);
    var last := SavePurchases(db, drafts, dbReceipt.id, userId);
    result := last.value;
    SaveParsedStore(purchases0, receipts0, nextId0, receipt, drafts0, given, sync);
  }

  /** The row processParsedReceipt compares against: for a subscription,
      the latest row the query on the newest purchase's original order id
      matches; for a one-time product, none. */
  predicate IsSnapshot(purchases: Purchases, newest: Purchase, snapshot: Option<Purchase>)
  {
    if newest.isSubscription then IsLatestInChain(purchases, newest.originalOrderId, snapshot)
    else snapshot.None?
  }

  /** A subscription whose original order was not found is compared with
      the latest row whose original order id is null, if any: the event is
      "purchase" only when no such row is on file. */
  lemma OrphanSnapshot(purchases: Purchases, newest: Purchase, snapshot: Option<Purchase>)
    requires newest.isSubscription && newest.originalOrderId.None?
    requires IsSnapshot(purchases, newest, snapshot)
    ensures snapshot.None? <==> forall k :: k in purchases ==> purchases[k].originalOrderId.Some?
    ensures snapshot.Some? ==> snapshot.value.originalOrderId.None?
  {
  }

  /** processParsedReceipt: the latest stored row of the newest purchase's
      chain is read before anything is saved, and the event compares that
      snapshot with the row saveParsedReceipt returns. */
  method ProcessParsedReceipt(db: Store, receipt: Receipt, drafts: array<Purchase>,
                              given: Option<string>, sync: bool) returns (event: PurchaseEvent)
    requires db.Valid() && drafts.Length >= 1
    modifies db, drafts
    ensures db.Valid()
    ensures event.data == SaveParsed(old(db.purchases), old(db.receipts), old(db.nextId), receipt,
                                     old(drafts[..]), given, sync).result
    ensures exists snapshot :: IsSnapshot(old(db.purchases), old(drafts[0]), snapshot)
                               && event.eventType == EventTypeOf(snapshot, event.data)
  {
    var latest := drafts[0];
    var snapshot: Option<Purchase> := None;
    if latest.isSubscription {
      snapshot := db.LatestInChain(latest.originalOrderId);
    }
    assert IsSnapshot(db.purchases, latest, snapshot);
    var purchase := SaveParsedReceipt(db, receipt, drafts, given, sync);
    event := PurchaseEvent(EventTypeOf(snapshot, purchase), purchase);
  }
}
