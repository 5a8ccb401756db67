# iap-microservice in Dafny

A model of the receipt-processing core of iap-microservice, a service that
validates in-app purchase receipts from Apple's App Store and Google Play,
turns them into platform-independent purchase records, reconciles them with
the purchases already on file, and classifies what changed.

The model follows the source file by file:

- `types.dfy` holds the records: the 42-field `Purchase`, `Receipt`,
  `ParsedReceipt`, `Product`, `PurchaseEvent` and the string enumerations of
  the platform, product type, period type, subscription state and status,
  cancellation and refund reasons, and event type. `wrappers.dfy` holds
  `Option` and `Result`. A JavaScript `null`/`undefined` is `None`; a
  JavaScript truthiness test on an optional boolean is `IsTrue`, and on an
  optional string `Present`.
- `iap_provider.dfy` (module `IAPProvider`) holds the pure classifiers of
  `IAPProvider.ts`: `getSubscriptionPeriodType`, `getSubscriptionState`,
  `getSubscriptionStatus`, `compareDates`, `purchasesEqual` and
  `getPurchaseEventType`.
- `apple.dfy` (module `Apple`) holds the Apple parser: the merge of
  `receipt.in_app` with `latest_receipt_info`, the discovery of the original
  and linked orders, the cancellation-reason table, the one-time and
  subscription purchase records, and `parseReceipt`, which sorts the caller's
  `in_app` array in place. `sorting.dfy` (module `Sorting`) is the stable
  sort that `Array.prototype.sort` with `sortTransactionsDesc` performs, both
  as a function and as an in-place insertion sort on an array; `seqs.dfy`
  (module `Seqs`) holds `filter`, `find` and the "first failure rejects all"
  collection of the purchase loop.
- `google.dfy` (module `Google`) holds the Google parser. `text.dfy` (module
  `Text`) holds the JavaScript string behaviour it relies on:
  `split("..")`, `parseInt` and the printing of an integer.
- `reconciliation.dfy` (module `Reconciliation`) holds `saveParsedReceipt`
  and `processParsedReceipt`. The database is a `Store` class whose fields
  are the purchase table (keyed by order id), the receipt table (keyed by
  hash) and the next id it will issue; its methods are the store calls the
  core makes. The reconciliation itself is imperative, as in the source:
  the caller's purchase array is reversed and stamped in place, and each
  method is proved against a function (`SaveOne`, `SaveAll`, `SaveParsed`)
  about which the properties are proved as lemmas.

Dates are integers of milliseconds. The wall clock (`new Date()`) is the
parameter `now`; the token hash is the parameter `hash`; the product catalog
the Apple parser consults is the parameter `catalog`.

The model keeps these behaviours of the code:

- For a Google order id `"X..0"` the linked order id is `"X..-1"`: the code
  subtracts one from the counter with no special case for 0
  (`Google.OrderIdZeroCounter`).
- When a known order is saved again and the stored receipt date is earlier,
  the stored receipt id and receipt date are kept, so a row keeps the
  earliest receipt date it has been seen with; the rest of the row is
  overwritten whenever `purchasesEqual` finds a difference
  (`Reconciliation.SaveOneUpdates`).

One behaviour of the code is not kept: the receipt update of
`src/providers/IAPProvider.ts:102` is always rejected (see "## Findings").
`Reconciliation.UpsertAsWrittenRejects` states exactly when the save as
written is rejected, and the rest of the reconciliation is modelled with the
evidently intended update.

## Model

| member | source | states |
|---|---|---|
| IAPProvider.PeriodTypeOf | src/providers/IAPProvider.ts:200-208 | trial iff the trial flag is truthy; intro iff not trial and the intro flag is truthy; normal otherwise |
| IAPProvider.StateOf | src/providers/IAPProvider.ts:210-220 | active over grace over retry, else expired, each as an iff on the flags; never paused |
| IAPProvider.StatusOf | src/providers/IAPProvider.ts:222-276 | for every status, the exact set of purchases that receive it: none iff not a subscription, then refunded (unless replaced), paused, grace, retry, expired, trial, cancelled, active, unknown in the source's order |
| IAPProvider.ClassifiedStatus | src/providers/IAPProvider.ts:210-276 | on a purchase whose stored state is the computed one, the status is never paused or unknown, the grace flag wins below refund, and active or cancelled imply the active flag |
| IAPProvider.Classify | src/providers/IAPProvider.ts:200-276 | the period type, state and status assigned in turn leave a classified purchase that differs from the input in those three fields only |
| IAPProvider.ClassifyIdempotent | src/providers/IAPProvider.ts:200-276 | classifying an already classified purchase changes nothing |
| IAPProvider.CompareDates | src/providers/IAPProvider.ts:328-337 | two dates compare equal iff both are missing or both are the same instant |
| IAPProvider.PurchasesEqualSkips | src/providers/IAPProvider.ts:286-326 | purchasesEqual holds iff the purchases agree on every field except user, quantity, purchase links, trial conversion flag and token |
| IAPProvider.EventTypeOf | src/providers/IAPProvider.ts:367-414 | for every event type, the exact condition on the snapshot and the saved row that yields it (new purchase, refund, replace, renewal, retry, cancel, grace expiry, expiry, uncancel, product change, none) |
| IAPProvider.EventTypeOfUnchanged | src/providers/IAPProvider.ts:367-414 | a subscription compared with itself raises no event |
| IAPProvider.EventTypeOfNextOrder | src/providers/IAPProvider.ts:384-410 | a subscription whose only change is a new order id is a renewal |
| Sorting.SortDescSpec | src/providers/Apple.ts:450-455 | sorting with sortTransactionsDesc yields a list ordered newest first that is a permutation of the input |
| Sorting.SortDescStable | src/providers/Apple.ts:450-455 | elements bought at the same instant keep their relative order |
| Sorting.InsertDescPerm | src/providers/Apple.ts:450-455 | one insertion step adds exactly the inserted element |
| Sorting.InsertDescSorted | src/providers/Apple.ts:450-455 | one insertion step keeps a newest-first list newest first |
| Sorting.InsertDescStable | src/providers/Apple.ts:450-455 | one insertion step keeps the order of equal keys |
| Sorting.InsertDescAt | src/providers/Apple.ts:450-455 | the element is inserted before the first element whose key is not larger |
| Sorting.InsertInPlace | src/providers/Apple.ts:430 | shifting one array element right past larger keys leaves the prefix alone and the suffix equal to the insertion |
| Sorting.SortInPlace | src/providers/Apple.ts:430 | the in-place sort of the array leaves exactly the sorted sequence of its old contents |
| Sorting.SortedMembers | src/providers/Apple.ts:450-455 | sorting keeps exactly the members of the list |
| Sorting.SortDescOfSorted | src/providers/Apple.ts:450-455 | a list already newest first is left as it is |
| Seqs.FilterCount | src/providers/Apple.ts:435-443 | filtering keeps every occurrence of each element that passes and none of the others |
| Seqs.FilterMembers | src/providers/Apple.ts:435-443 | an element is in the filtered list iff it is in the list and passes |
| Seqs.FilterConcat | src/providers/Apple.ts:445-447 | filtering distributes over concatenation |
| Seqs.Find | src/providers/Apple.ts:366-373 | find returns the first element that passes, and nothing iff none passes |
| Seqs.FindIsFirstOfFilter | src/providers/Apple.ts:253-260 | the first element that passes is the head of the filtered list, which is how the linked order is taken |
| Seqs.CollectOkErr | src/providers/Apple.ts:139-153 | the purchase loop rejects iff some transaction is rejected |
| Seqs.CollectOkOk | src/providers/Apple.ts:139-153 | a successful purchase loop holds one result per transaction, in order |
| Seqs.CollectOkErrPrefix | src/providers/Apple.ts:139-153 | once a prefix is rejected, the whole loop is rejected with the same error |
| Apple.SortVector | src/providers/Apple.test.ts:96-117 | purchase times 1000, 3000, 2000 are sorted to 3000, 2000, 1000 |
| Apple.MergeContents | src/providers/Apple.ts:424-448 | the merge is newest first and holds exactly the kept latest_receipt_info entries plus the in_app entries whose id latest_receipt_info does not list, with multiplicity |
| Apple.MergeVectorInApp | src/providers/Apple.test.ts:196-253 | of in_app "100" and "300" only "100" is added to latest_receipt_info "200", "300", "400" |
| Apple.MergeVectorOld | src/providers/Apple.test.ts:196-253 | without newer entries the merge is "300", "200", "100", with "400" left out |
| Apple.MergeVectorNewer | src/providers/Apple.test.ts:255-320 | with newer entries the merge is "400", "300", "200", "100" |
| Apple.MergeTransactions | src/providers/Apple.ts:424-448 | the caller's in_app array is left sorted and the merge is returned |
| Apple.OriginalOrder | src/providers/Apple.ts:366-373 | the first transaction whose id is the original transaction id, and none iff no transaction has that id |
| Apple.NewestPrior | src/providers/Apple.ts:253-260 | on a newest-first list the linked order is a prior transaction of the chain no other prior one postdates, and none iff there is no prior one |
| Apple.LinkedOrderIsNewestPrior | src/providers/Apple.ts:248-260 | the linked order is the newest prior transaction of the combined in_app and latest_receipt_info list |
| Apple.CancellationReasonOf | src/providers/Apple.ts:376-413 | for every reason, the exact refund flag, activity flags and expiration intent that yield it; never developer cancellation or replacement |
| Apple.ProcessPurchaseTransaction | src/providers/Apple.ts:160-232 | refunded iff cancelled, refund reason by cancellation code, subscription iff an expires_date, price and currency from the catalog entry or 0 and "" without one, no subscription field set |
| Apple.WithRenewal | src/providers/Apple.ts:301-313 | only the renewable flag, the retry flag and the renewal SKU change |
| Apple.WithGroup | src/providers/Apple.ts:315-317 | only the subscription group changes |
| Apple.WithTrialConversion | src/providers/Apple.ts:320-322 | only the trial conversion flag changes |
| Apple.WithActivity | src/providers/Apple.ts:325-339 | only the activity, grace flag and grace end change |
| Apple.ActivityRules | src/providers/Apple.ts:325-339 | refunded means inactive; otherwise grace iff expired and the renewal's grace end is still ahead, active iff unexpired or in grace, and the grace end is recorded only for an unrefunded expired subscription |
| Apple.ProcessSubscriptionTransaction | src/providers/Apple.ts:234-354 | rejected with one error iff latest_receipt_info is absent and with the other iff the combined list is empty |
| Apple.SubscriptionOrders | src/providers/Apple.ts:275-299 | the order id is the web order line item id, the original and linked order ids and the group come from the original and linked orders, the expiry and trial flags from the transaction |
| Apple.SubscriptionRenewal | src/providers/Apple.ts:262-273 | the renewable and retry flags and the renewal SKU come from the renewal entry, which is used only for the newest transaction of the list |
| Apple.SubscriptionActivity | src/providers/Apple.ts:325-339 | the activity rules hold on the finished subscription purchase |
| Apple.SubscriptionTrialConversion | src/providers/Apple.ts:320-322 | a trial conversion iff the purchase is not a trial and its linked order was one |
| Apple.SubscriptionClassified | src/providers/Apple.ts:342-351 | the stored period type, state, status and cancellation reason are the classifiers' verdicts on the finished purchase |
| Apple.RefundedSubscription | src/providers/Apple.ts:325-351 | a refunded subscription is inactive, with cancellation reason and status "refunded" |
| Apple.TransactionShape | src/providers/Apple.ts:139-153 | a transaction is rejected only on the subscription path, exactly where that path throws; otherwise its purchase is a subscription, and has a status, iff the transaction has an expires_date |
| Apple.ProcessAllErr | src/providers/Apple.ts:139-153 | the loop over the merged transactions rejects iff one transaction is rejected |
| Apple.ProcessAllOk | src/providers/Apple.ts:139-153 | a successful loop yields each transaction's own purchase, in merged order |
| Apple.ParseReceiptShape | src/providers/Apple.ts:102-158 | parseReceipt rejects iff a merged transaction is a subscription and latest_receipt_info is absent; otherwise one purchase per merged transaction, subscription iff the transaction is, sandbox as the environment says, and an iOS receipt dated at the receipt's creation |
| Apple.ParseReceipt | src/providers/Apple.ts:102-158 | the in_app array is left sorted and the result is the parsed receipt of the in_app list as passed |
| Text.Split | src/providers/Google.ts:145 | split always yields at least one part |
| Text.SplitGlues | src/providers/Google.ts:145 | joining the parts with ".." gives the string back |
| Text.SplitPartsNoSep | src/providers/Google.ts:145 | no part contains ".." |
| Text.SplitNoSep | src/providers/Google.ts:145 | a string without ".." is one part |
| Text.SplitAtFirstSep | src/providers/Google.ts:145 | a string is cut at its first ".." |
| Text.SplitJoin | src/providers/Google.ts:145 | splitting undoes joining parts that are cut unambiguously |
| Text.JoinStartsWithFirst | src/providers/Google.ts:145-146 | the first part is a prefix of the joined string |
| Text.LeadingDigits | src/providers/Google.ts:149 | the longest prefix of decimal digits |
| Text.ParseInt | src/providers/Google.ts:149 | parseInt yields no number iff no digit follows the optional sign |
| Text.NatToString | src/providers/Google.ts:150 | the printed natural is a non-empty digit string whose value is the number |
| Text.IntToString | src/providers/Google.ts:150 | the printed integer starts with a minus iff it is negative, and is digits otherwise |
| Text.LeadingDigitsAll | src/providers/Google.ts:149 | an all-digit string is its own digit prefix |
| Text.ParseIntToString | src/providers/Google.ts:149-150 | parsing a printed integer gives the integer |
| Text.IntToStringNoDot | src/providers/Google.ts:150 | a printed integer contains no dot |
| Google.SandboxFlag | src/providers/Google.ts:158 | the sandbox expression is never truthy |
| Google.OriginalIsFirstPart | src/providers/Google.ts:145-151 | the original order id holds no "..", and a linked order exists iff the order id goes on past it with ".." |
| Google.NoSuffixNoLink | src/providers/Google.ts:145-151 | an order id without ".." is its own original and has no linked order |
| Google.SuffixLinksToPrevious | src/providers/Google.ts:145-151 | "x..n" has original "x" and links to "x..(n-1)" |
| Google.OrderIdVector | src/providers/Google.ts:145-151 | "GPA.1..2" has original "GPA.1" and linked order "GPA.1..1" |
| Google.OrderIdZeroCounter | src/providers/Google.ts:145-151 | "X..0" links to "X..-1" |
| Google.ProcessPurchaseTransaction | src/providers/Google.ts:116-135 | a one-time, unrefunded, non-sandbox Android purchase dated at its purchase time, with the order id, SKU and quantity of the resource and no status |
| Google.CancellationReasonOf | src/providers/Google.ts:192-200 | a cancel survey means customer cancelled whatever the code; otherwise codes 1, 2 and 3 give billing error, replacement and developer cancellation, any other none |
| Google.WithGrace | src/providers/Google.ts:202-209 | only the grace flag and the grace end change |
| Google.SubscriptionFields | src/providers/Google.ts:137-200 | a subscription of quantity 1, unrefunded, dated at its start, with the expiry, linked token, order ids from the order id and the cancellation reason of the table |
| Google.SubscriptionFlags | src/providers/Google.ts:154-209 | trial and intro iff payment state 2, renewable is auto-renewing, active iff unexpired, retry iff active and auto-renewing, grace iff also payment state 0, and only then a grace end |
| Google.SubscriptionClassified | src/providers/Google.ts:211-213 | the stored period type, state and status are the classifiers' verdicts |
| Google.ActiveRenewingIsRetry | src/providers/Google.ts:154-213 | an active, auto-renewing subscription with payment state other than 0 has status "retry_period" |
| Google.ParseReceipt | src/providers/Google.ts:87-114 | exactly one purchase, the subscription record iff the resource kind names a subscription and the one-time record otherwise, and an Android receipt carrying its receipt date |
| Google.ParseReceiptPurchase | src/providers/Google.ts:87-135 | the purchase has the resource's order id, the SKU, Android, is never refunded nor sandbox; a subscription is dated at its start, has quantity 1 and is classified; a one-time product is dated at its purchase, keeps its quantity and has no status |
| Reconciliation.Lookup | src/database/MySQL.ts:42-50 | a row is found iff the order id is on file, and it is the stored row |
| Reconciliation.LatestWithUserSpec | src/database/MySQL.ts:124-140 | getUserId finds nothing iff no listed row names a user, else the user of a listed row no other listed row postdates |
| Reconciliation.LookupOrderIds | src/providers/IAPProvider.ts:80-83 | every purchase's order id, plus the newest one's original order id for a subscription that has one |
| Reconciliation.SyncPurchases | src/database/MySQL.ts:142-160 | the sync keeps the purchase table's keys |
| Reconciliation.SyncReceipts | src/database/MySQL.ts:142-160 | the sync keeps the receipt table's keys |
| Reconciliation.SyncMovesOnlyUser | src/database/MySQL.ts:142-160 | after the sync no row names the old user, rows of other users are untouched, and only the user changes |
| Reconciliation.SyncWellFormed | src/database/MySQL.ts:142-160 | the sync keeps the store well formed |
| Reconciliation.UpdateRejectedAsWritten | src/providers/IAPProvider.ts:100-102 | the update as written, of the parsed receipt that carries no id, is always rejected |
| Reconciliation.UpdateKeepsStoredRow | src/providers/IAPProvider.ts:100-102 | updating with the stored row succeeds and changes only that row's user |
| Reconciliation.UpsertReceiptSpec | src/providers/IAPProvider.ts:96-103 | a receipt is created with a fresh id iff none has its hash; a stored one changes only its user, and only when the resolved user is truthy and differs |
| Reconciliation.UpsertAsWrittenRejects | src/providers/IAPProvider.ts:96-103 | as written, the receipt step is rejected exactly when a stored receipt with the hash must move to another truthy user, and otherwise does what the corrected upsert does |
| Reconciliation.StampErased | src/providers/IAPProvider.ts:111-133 | stamping keeps the order id and changes only fields purchasesEqual skips, besides the receipt id |
| Reconciliation.SaveStampedWrites | src/providers/IAPProvider.ts:135-158 | one purchase writes only its own row; a new id is issued iff the order was not on file, and a known order keeps its id |
| Reconciliation.SaveStampedWellFormed | src/providers/IAPProvider.ts:135-158 | one purchase keeps the store well formed |
| Reconciliation.SaveOneWrites | src/providers/IAPProvider.ts:111-158 | one iteration writes only the draft's own row, which holds the row returned |
| Reconciliation.SaveOneWellFormed | src/providers/IAPProvider.ts:111-158 | one iteration keeps the store well formed |
| Reconciliation.SaveOneCreates | src/providers/IAPProvider.ts:135-140 | a new order is stored as stamped with a fresh id, unique in the table, and the chain root becomes its own original purchase |
| Reconciliation.SaveOneUpdates | src/providers/IAPProvider.ts:141-156 | a known order keeps its stored id, keeps the earlier receipt date with its receipt id, is written iff purchasesEqual finds a difference, and ends equal to the draft as purchasesEqual sees it |
| Reconciliation.RefreshErased | src/providers/IAPProvider.ts:141-156 | drafts equal as purchasesEqual sees them stay so after the refresh |
| Reconciliation.RefreshTwice | src/providers/IAPProvider.ts:141-151 | refreshing from the refreshed row changes nothing more |
| Reconciliation.SaveStampedTwice | src/providers/IAPProvider.ts:135-158 | saving again a draft equal as purchasesEqual sees it writes nothing and returns the same row |
| Reconciliation.SaveOneIdempotent | src/providers/IAPProvider.ts:110-159 | a purchase delivered twice with the same receipt and user is a no-op the second time |
| Reconciliation.SaveAll | src/providers/IAPProvider.ts:110-159 | the loop keeps one draft per input and returns a last row iff there was a draft |
| Reconciliation.SaveAllWellFormed | src/providers/IAPProvider.ts:110-159 | the loop keeps the store well formed |
| Reconciliation.SaveAllKeys | src/providers/IAPProvider.ts:110-159 | after the loop exactly the old orders and every draft's order are on file |
| Reconciliation.SaveAllResult | src/providers/IAPProvider.ts:110-159 | each draft stays at its place with its order id, and the last row is the stored row of the last draft |
| Reconciliation.Reverse | src/providers/IAPProvider.ts:107-108 | the reversal has the same length and the elements back to front |
| Reconciliation.ReverseReverse | src/providers/IAPProvider.ts:107-108 | reversing twice gives the list back |
| Reconciliation.SaveReversed | src/providers/IAPProvider.ts:107-159 | the loop over the reversed list stores every purchase, returns the newest one's row and leaves the drafts oldest first |
| Reconciliation.SaveParsedStore | src/providers/IAPProvider.ts:72-103 | the store stays well formed; the receipt is on file under its hash with an id, filed under the resolved user when new or when that user is truthy |
| Reconciliation.SaveParsedPurchases | src/providers/IAPProvider.ts:72-162 | every purchase is on file, the caller's list is now oldest first, and the result is the stored row of the newest purchase |
| Reconciliation.Store.constructor | src/database/Database.ts:3-27 | an empty store |
| Reconciliation.Store.CreatePurchase | src/database/MySQL.ts:13-17 | the row is stored under its order id with a fresh id; nothing else changes; the store stays well formed |
| Reconciliation.Store.UpdatePurchase | src/database/MySQL.ts:115-122 | the row with the id is overwritten; nothing else changes; the store stays well formed |
| Reconciliation.Store.SyncUserId | src/database/MySQL.ts:142-160 | both tables are synced from one user to the other; the store stays well formed |
| Reconciliation.Store.CreateReceipt | src/database/MySQL.ts:189-193 | the receipt is stored under its hash with a fresh id; nothing else changes; the store stays well formed |
| Reconciliation.Store.UpdateReceipt | src/database/MySQL.ts:195-202 | the row with the receipt's id is overwritten, or the call is rejected and nothing changes; the store stays well formed |
| Reconciliation.Store.LatestInChain | src/database/MySQL.ts:71-84 | the scan returns the latest-purchased row the filter matches, or none when no row matches; for an order id the filter matches the order and every row pointing at it, for a null one every row whose original order id is null |
| Reconciliation.ReverseInPlace | src/providers/IAPProvider.ts:107-108 | the array holds its old contents back to front |
| Reconciliation.ResolveUser | src/providers/IAPProvider.ts:80-94 | the user is the caller's when truthy, else the one on file; the tables are synced iff asked, a user is on file and the caller names another |
| Reconciliation.SaveReceipt | src/providers/IAPProvider.ts:96-103 | the receipt table and the row returned are those of the upsert |
| Reconciliation.StampDraft | src/providers/IAPProvider.ts:111-133 | the draft is stamped with the receipt id, the truthy user and the ids of its original and linked orders on file |
| Reconciliation.FindLinkedId | src/providers/IAPProvider.ts:118-133 | the id of the order named, when it is on file, else the current value |
| Reconciliation.CreateNew | src/providers/IAPProvider.ts:135-140 | the store, draft and row after creating a new order are those of the specification |
| Reconciliation.RefreshKnown | src/providers/IAPProvider.ts:141-156 | the store, draft and row after refreshing a known order are those of the specification |
| Reconciliation.SavePurchase | src/providers/IAPProvider.ts:111-158 | one iteration leaves the store, draft and row of the specification |
| Reconciliation.SavePurchases | src/providers/IAPProvider.ts:110-159 | the loop leaves the store, the stamped array and the last row of the specification |
| Reconciliation.SaveParsedReceipt | src/providers/IAPProvider.ts:72-162 | saveParsedReceipt leaves the store, the caller's array and the result of the specification, and the store well formed |
| Reconciliation.ProcessParsedReceipt | src/providers/IAPProvider.ts:43-70 | the event carries the saved row, and its type compares that row with the snapshot read before anything was saved: for a subscription the latest row matching its original order id (null included), for a one-time product none |
| Reconciliation.OrphanSnapshot | src/providers/IAPProvider.ts:50-55 | a subscription whose original order id is null is compared with a stored row whose original order id is null, and finds none only when every stored row has an original order id |

## Left out

- The network calls to Apple's and Google's validation endpoints, the
  retry against the sandbox endpoint and the decision on Apple's status
  codes (`validate`, `validateUsingEnvironment`, `handleError`): they are
  I/O; the parsers start from the decoded response.
- Server notifications and the webhook that delivers the event: I/O outside
  the receipt path.
- Currency conversion (`getConvertedPrice`): a foreign call; the converted
  price and currency are the catalog's.
- The hash of the token and the wall clock: parameters (`hash`, `now`).
- The difference between `null` and `undefined`: both are `None`. It only
  matters to `purchasesEqual` on a field one side leaves undefined, where
  the source sees a difference and writes an unchanged row once more.
- `parseInt` on the millisecond fields of the responses: they are given as
  integers. `Text.ParseInt` reads only an optional sign and decimal digits,
  not leading whitespace or a hexadecimal prefix.
- Google: a resource without `quantity` or `orderId` is not modelled; both
  are always present in the model's input.
- Google.SandboxFlag: the field is stored as `false`, where the source
  stores the falsy value of the expression (`0`, `undefined` or `false`).
- The partial update Prisma performs when a field is `undefined`: every
  update writes the whole row.
- Reconciliation.LatestWithUserSpec: on two rows bought at the same instant
  the database's choice is not modelled; the model takes the one listed
  first and proves only that no listed row postdates it.
- Reconciliation.Store.LatestInChain: as above, on a tie the contract says
  only that no row of the chain postdates the one returned.
- Reconciliation.Store.LatestInChain: for a null original order id the
  filter's `orderId: null` half is taken to match nothing, since `orderId`
  is a required column; the `originalOrderId: null` half matches every row
  whose original order id is null. Prisma may instead reject a null filter
  on the required column, which would make the whole reconciliation fail;
  that rejection is not modelled.
- Reconciliation.LookupOrderIds: the null original order id that line 82
  adds to getUserId's list is dropped. The `in` filter of
  src/database/MySQL.ts:130-132 never matches a null against the required
  `orderId` column, so the row found is the same.
- Reconciliation.SaveParsedReceipt: an empty list of purchases, which
  makes the source fail reading the first element, is excluded by the
  precondition.
- Reconciliation.SaveParsedReceipt: the caller's receipt object is stamped
  with the user in place (line 96); the model passes the stamped copy on
  and does not return the caller's object.
- Reconciliation.Store.CreatePurchase: the row always receives a fresh id
  from the store's counter, whatever id the draft carries.
- Reconciliation.SaveStamped: the test for a difference is stated as
  equality of the rows with the skipped fields blanked, which
  `IAPProvider.PurchasesEqualSkips` proves equivalent to `purchasesEqual`;
  the method `RefreshKnown` evaluates `purchasesEqual` itself.
- Apple.SubscriptionPurchase: the cancellation reason is assigned before
  the classification, where the source assigns it after the period type;
  neither reads the field the other writes, so the record is the same.
- Text.IntToString: the counter of a Google order id is a JavaScript
  number; above 2^53 it loses precision and from 10^21 on it prints in
  exponent form (`"1e+21"`). The model's integers are exact and always print
  as plain digits.
- Reconciliation.UpsertReceiptSpec: states the upsert with the corrected
  update of line 102. As written, a stored receipt that must move to another
  truthy user makes `updateReceipt` reject, and the whole save rejects
  (`Reconciliation.UpsertAsWrittenRejects`).
- Reconciliation.SaveReceipt: uses the corrected update of line 102; on the
  input above the source rejects instead of returning the stored row.
- Reconciliation.SaveParsedStore: built on the corrected update of line 102;
  on the input above the source rejects after the user sync and before any
  purchase is saved, leaving the receipt row unchanged.
- Reconciliation.SaveParsedPurchases: built on the corrected update of line
  102; on the input above the source saves no purchase at all.
- Reconciliation.SaveParsedReceipt: uses the corrected update of line 102;
  on the input above the source rejects, after the user sync, with no
  purchase saved.
- Reconciliation.ProcessParsedReceipt: rests on the corrected save; on the
  input above the source rejects and raises no event.
- Concurrency: two receipts reconciled at the same time are not modelled;
  each store call is atomic and the calls of one receipt run in order.

## Findings

| source | as written | input that shows it | evidently intended | confidence | as-written member | corrected member |
|---|---|---|---|---|---|---|
| src/providers/IAPProvider.ts:100-102 | when the receipt is already on file under a different user, line 101 sets the user on the stored row but line 102 passes the parsed receipt, which has never been stored and has no id, to `updateReceipt`, which updates where the id matches (src/database/MySQL.ts:195-202), so the call is rejected | a receipt already stored with user "a", saved again with the truthy user "b" | update the stored row with the new user | not executed | Reconciliation.UpdateRejectedAsWritten | Reconciliation.UpdateKeepsStoredRow |
