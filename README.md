# Tour and hotel back office: a Dafny model of its core

The system is a multi-company back office for tour operators with an
optional hotel module. This project models its core:

- **The cari ledger of the tour backend** (`backend/server.py`).
  - A cari account is a customer, agency or supplier. It holds one balance per currency (EUR, USD, TRY).
  - Reservations, extra sales, service purchases and manual transactions each write one transaction row. Each also moves one balance of one cari by that row's signed amount.
  - The four reports read the ledger: earnings, collections, debtors and creditors.
- **The hotel module** (`backend/modules/hotels`):
  - the records, with their defaults and status vocabularies;
  - creating hotels and reservations;
  - pushing a reservation to the hotel through an ICS, JSON or e-mail adapter;
  - the retry queue with exponential backoff, and its manual retry;
  - the month calendar;
  - pulling a hotel's ICS calendar into stored events.
- **Module billing** (`backend/modules/billing/service.py`): the plan catalogue, the checkout session for a module purchase, and the Stripe webhook handler that enables modules and re-labels subscriptions.
- **The module-access guard** (`backend/modules/middleware.py`), behind the `MODULES_ENABLED` flag.
- **The one-off migration** that adds the cari-panel fields to stored reservations (`backend/scripts/migrate_reservation_fields.py`).
- **The frontend logic**:
  - `safeText` and the report table and footer layout of `pdfTemplate.js`;
  - the landscape voucher of `voucherPdf.js`;
  - the customer list of the admin page (`AdminCustomers.js`): filters, remaining days, status and colour bands;
  - the notification panel (`NotificationCenter.js`): tabs, selection, delete and mark-as-read.

## Modelling choices

**Files and modules.** Each source file is one Dafny module in its own file. `common.dfy` holds the shared helpers: `Option`, truthiness of optional strings, decimal rendering, ASCII lower-casing, substring and lexicographic tests, and `Filter`, which stands for list comprehensions and `Array.filter`.

**Code that changes state step by step** becomes a class whose fields are the collections it writes:

- `CariLedger.Ledger`, `HotelModels.HotelDb`, `Billing.BillingDb` and `MigrateReservations.ReservationStore` for the document stores;
- `AdminCustomers.CustomerList` and `NotificationCenter.Panel` for React component state;
- `PdfTemplate.PdfDoc` for the PDF's pages.

Each handler is a method that performs the source's writes in the source's order. Its `ensures` ties the new state to a specification function of the old state. The properties are proved about those functions as lemmas.

**Stores, ids and clocks.**

- A Mongo `find_one`, `update_one` or `delete_one` by filter acts on the first match in insertion order.
- Fresh uuid4 ids are parameters, with a freshness requirement where a proof needs one.
- A request body that does not build its record answers a server error before any write: a required field is absent, or `null` is sent where the field is not optional. `Field` tells an absent key from an explicit `null`.
- The clock, the network, the SMTP server, the process environment, the ICS fetch and parse, and jsPDF's text wrapping are all parameters.

**Numbers.**

- Money is an integer in minor units.
- Dates are ISO strings compared lexicographically, or `Date` values compared field by field.
- PDF coordinates are reals.

## Model

| member | source | states |
|---|---|---|
| CariLedger.Balances.Inc | backend/server.py:570-574 | `$inc` of one balance field changes that currency's balance by the amount and leaves the other two unchanged |
| CariLedger.IncCari | backend/server.py:570-574 | incrementing the cari with the given id keeps the set of caris, their company and name, and changes only that cari's balances |
| CariLedger.FindRef | backend/server.py:608-614 | the row found by reference id and type is the first one that refers to the document; None means no row refers to it |
| CariLedger.MatchAfterAppend | backend/server.py:560-574 | inserting a row and incrementing its cari by the row's signed amount keeps every balance equal to the sum of its transactions |
| CariLedger.MatchAfterRemove | backend/server.py:623-644 | deleting a row and decrementing its cari by the row's signed amount keeps every balance equal to its transaction sum |
| CariLedger.MatchAfterReplace | backend/server.py:594-614 | rewriting a row while reverting the old amount and applying the new one keeps every balance equal to its transaction sum |
| CariLedger.LinksAfterAppendNew | backend/server.py:560-568 | a new debit row for a fresh document links that document without disturbing the links of the others |
| CariLedger.LinksAfterRelink | backend/server.py:608-614 | rewriting a document's linked row relinks the document to the new cari, amount and currency and keeps every other link |
| CariLedger.CreateCariSpec | backend/server.py:438-444 | a body without a name, or with `null` for a balance, is refused with a server error and nothing stored; otherwise the account joins under its id with the body's opening balances (0 where a balance is absent), and no other account, transaction, reservation, sale or purchase changes |
| CariLedger.CreateCariKeepsValid | backend/server.py:84-86 | a create whose body gives no opening balance, or only zero ones, keeps the ledger invariant for an id no transaction names |
| CariLedger.CreateCariValidIff | backend/server.py:438-444 | the create keeps the ledger invariant exactly when the body is refused or each opening balance equals the account's transaction sum; a non-zero `balance_*` for a new id breaks it |
| CariLedger.UpdateCariSpec | backend/server.py:472-478 | the update succeeds exactly when the cari exists in the caller's company; otherwise it answers 404 and writes nothing; it never touches transactions, reservations, sales or purchases |
| CariLedger.UpdateCariValidIff | backend/server.py:472-478 | the raw `$set` keeps the ledger invariant exactly when every balance it writes already equals that cari's transaction sum |
| CariLedger.DeleteCariSpec | backend/server.py:480-485 | delete succeeds exactly for a cari of the caller's company, removes only that account, and leaves the transactions and all documents |
| CariLedger.CreateReservationSpec | backend/server.py:509-576 | an unknown cari is refused with no write; otherwise the reservation is stored confirmed, one linked debit row is appended, only the cari's balance in that currency rises by the price, and sales and purchases are unchanged |
| CariLedger.CreateReservationKeepsValid | backend/server.py:509-576 | creating a reservation with a fresh id keeps the ledger invariant |
| CariLedger.UpdateReservationAsWrittenSpec | backend/server.py:578-621 | as written: the update applies exactly to a reservation of the caller's company (404 otherwise, nothing written) and `$set`s the body; sales and purchases are unchanged; the balance and row effects are in UpdateReservationAsWrittenEffect |
| CariLedger.UpdateReservationSpec | backend/server.py:578-621 | corrected update: same guard and stored reservation; the caris and the number of rows are unchanged, and so are sales and purchases; the balance and row effects are in UpdateReservationEffect |
| CariLedger.ShiftEffect | backend/server.py:592-604 | reverting one amount on one (cari, currency) and applying another on a second keeps the set of caris and changes exactly those two balances by those amounts |
| CariLedger.UpdateReservationAsWrittenEffect | backend/server.py:585-611 | as written: when price or currency changes, the old cari loses the old price in the old currency and gains the new price in the new currency, every other balance is unchanged, and the first linked row takes the new amount and currency; when neither changes, balances and rows are untouched |
| CariLedger.UpdateReservationEffect | backend/server.py:585-611 | corrected: when cari, price or currency changes, the old price is reverted on the old cari and currency and the new price charged to the new cari in the new currency, every other balance is unchanged, and the linked row takes the new cari, amount and currency; otherwise balances and rows are untouched |
| CariLedger.MovedKeepsValid | backend/server.py:594-614 | reverting the old price on the old cari and charging the new price to the new cari, with the linked row moved, keeps the invariant |
| CariLedger.UpdateReservationKeepsValid | backend/server.py:578-621 | the corrected update keeps the ledger invariant for every body |
| CariLedger.UpdateReservationAgreesWhenCariKept | backend/server.py:578-621 | whenever the body keeps the reservation's cari, the as-written and the corrected update give the same books |
| CariLedger.UpdateReservationAsWrittenBreaksLedger | backend/server.py:578-621 | as written, moving a reservation from cari A to B and then deleting it leaves A at +100 with no transaction and B at -100: the invariant is broken |
| CariLedger.DeleteReservationSpec | backend/server.py:623-644 | delete succeeds exactly for a reservation of the caller's company, removes it and lowers only its cari's balance in its currency by its price; sales and purchases are unchanged |
| CariLedger.DeleteReservationRows | backend/server.py:636-637 | a successful delete removes from the transactions exactly the first row that refers to the reservation, when there is one, and nothing else |
| CariLedger.DeleteReservationRemovesItsRow | backend/server.py:623-644 | in books that keep the invariant, the removed row exists and is the reservation's linked debit (its cari, price and currency) |
| CariLedger.DeleteReservationKeepsValid | backend/server.py:623-644 | deleting a reservation keeps the ledger invariant |
| CariLedger.PriceRoundTripRestoresBooks | backend/server.py:590-614 | editing a price from a to b and back to a restores every balance, the transactions and the reservations |
| CariLedger.CreateTransactionSpec | backend/server.py:646-695 | a manual transaction appends exactly the row built from the body, with the new id and the company; payment and credit lower the cari's balance by the amount, every other type raises it, and nothing else changes |
| CariLedger.CreateTransactionKeepsValid | backend/server.py:676-691 | a manual transaction keeps the ledger invariant |
| CariLedger.CreateExtraSaleSpec | backend/server.py:702-747 | an unknown cari is refused; otherwise exactly the sale (purchase price 0 when absent and None when sent as `null`, currency default EUR) is added, one linked debit row of the sale price is appended, the cari's balance rises by it, and reservations and purchases are unchanged |
| CariLedger.CreateExtraSaleKeepsValid | backend/server.py:702-747 | creating an extra sale with a fresh id keeps the ledger invariant |
| CariLedger.DeleteExtraSaleSpec | backend/server.py:749-770 | delete succeeds exactly for a sale of the caller's company, removes it and lowers its cari's balance by the sale price; reservations and purchases are unchanged |
| CariLedger.DeleteExtraSaleRows | backend/server.py:762-763 | a successful delete removes from the transactions exactly the first row that refers to the sale, when there is one, and nothing else |
| CariLedger.DeleteExtraSaleRemovesItsRow | backend/server.py:749-770 | in books that keep the invariant, the removed row exists and is the sale's linked debit (its cari, sale price and currency) |
| CariLedger.DeleteExtraSaleKeepsValid | backend/server.py:749-770 | deleting an extra sale keeps the ledger invariant |
| CariLedger.CreateServicePurchaseSpec | backend/server.py:777-818 | an unknown supplier is refused; otherwise exactly the purchase (currency default EUR) is stored, one credit row is appended, the supplier's balance falls by the amount, and reservations and sales are unchanged |
| CariLedger.CreateServicePurchaseKeepsValid | backend/server.py:777-818 | a service purchase keeps the ledger invariant |
| CariLedger.Ledger.constructor | backend/server.py:84-86 | the empty store satisfies the ledger invariant |
| CariLedger.Ledger.CreateCariAccount | backend/server.py:438-444 | the handler's writes and answer are exactly the specified ones, and it keeps the invariant exactly as CreateCariValidIff says |
| CariLedger.Ledger.UpdateCariAccount | backend/server.py:472-478 | the handler's writes and answer are exactly the specified ones |
| CariLedger.Ledger.DeleteCariAccount | backend/server.py:480-485 | the handler's writes and answer are exactly the specified ones, and the invariant is kept |
| CariLedger.Ledger.CreateReservation | backend/server.py:509-576 | the lookup, insert, row insert and `$inc`, in order, give exactly the specified books and keep the invariant |
| CariLedger.Ledger.UpdateReservation | backend/server.py:578-621 | the corrected update's writes give exactly the specified books, whose balance and row effects UpdateReservationEffect states, and keep the invariant |
| CariLedger.Ledger.DeleteReservation | backend/server.py:623-644 | the handler's writes give exactly the specified books (the linked row removed, see DeleteReservationRemovesItsRow) and keep the invariant |
| CariLedger.Ledger.CreateTransaction | backend/server.py:646-695 | the row insert and `$inc` give exactly the specified books and keep the invariant |
| CariLedger.Ledger.CreateExtraSale | backend/server.py:702-747 | the handler's writes give exactly the specified books and keep the invariant |
| CariLedger.Ledger.DeleteExtraSale | backend/server.py:749-770 | the handler's writes give exactly the specified books (the linked row removed, see DeleteExtraSaleRemovesItsRow) and keep the invariant |
| CariLedger.Ledger.CreateServicePurchase | backend/server.py:777-818 | the handler's writes give exactly the specified books and keep the invariant |
| LedgerReports.EarningsReport | backend/server.py:968-1002 | the report fails with a server error exactly when a sale in range has a `null` purchase price; otherwise, per currency, earnings equal the prices of the company's completed reservations in range plus the profits of its sales in range, and the counts are the sizes of those two queries |
| LedgerReports.AddPrices | backend/server.py:994-995 | the reservation loop leaves each currency's total at the sum of that currency's prices |
| LedgerReports.AddProfits | backend/server.py:997-999 | the sale loop completes exactly when every sale has a purchase price, and then adds each currency's profits to its total |
| LedgerReports.NullPurchasePriceBreaksEarnings | backend/server.py:145 | a sale created with `purchase_price: null` is stored without a price, and every earnings report whose range covers it fails |
| LedgerReports.CollectionsReport | backend/server.py:1004-1023 | the payments returned are the company's payment rows in range, and each currency's total is the sum of their amounts |
| LedgerReports.Debtors | backend/server.py:1025-1033 | a cari is listed exactly when some balance is positive; the list keeps the accounts' order |
| LedgerReports.Creditors | backend/server.py:1035-1043 | a cari is listed exactly when some balance is negative; the list keeps the accounts' order |
| LedgerReports.DebtorsAndCreditorsOverlap | backend/server.py:1032-1042 | a settled cari is in neither list; a cari that owes EUR and is owed USD is in both |
| HotelModels.ParseQueueStatus | backend/modules/hotels/models.py:125 | a name parses exactly when it is one of the five queue statuses, and parsing inverts naming |
| HotelModels.QueueStatusNamesRoundTrip | backend/modules/hotels/models.py:125 | every queue status's name parses back to it |
| HotelModels.ParsePushStatus | backend/modules/hotels/models.py:84 | a name parses exactly when it is one of the four push statuses, and parsing inverts naming |
| HotelModels.PushStatusNamesRoundTrip | backend/modules/hotels/models.py:84 | every push status's name parses back to it |
| HotelModels.DefaultQueueItemIsDue | backend/modules/hotels/models.py:120-126 | a new queue item is due at once, allows 5 attempts and has no error |
| HotelModels.DefaultsAreInert | backend/modules/hotels/models.py:22-31 | a default hotel is active, pushes by ICS and does not pull; a default reservation is pending, local and unpushed; a default push log records a failure |
| HotelModels.HotelDb.constructor | backend/modules/hotels/models.py:9-143 | the hotel collections start empty |
| HotelRoutes.CreatedHotelDefaults | backend/modules/hotels/routes.py:35-60 | a hotel created through the endpoint without a method pushes as JSON, while the record's own default pushes as ICS |
| HotelRoutes.NewHotel | backend/modules/hotels/routes.py:40-55 | the stored hotel keeps the given name, takes the body's syncing flag and push method or their defaults (off, JSON) when the keys are absent, is active and has never synced |
| HotelRoutes.CreateHotel | backend/modules/hotels/routes.py:35-60 | a body without a name, or with `null` for the syncing flag or the push method, is refused with a server error and nothing stored; otherwise exactly the new document is added and nothing else changes |
| HotelRoutes.CreateReservation | backend/modules/hotels/routes.py:138-215 | the handler's writes and answer are exactly the specified ones: the hotel check, the body validation, the insert, the push and then the sent mark or the queued retry |
| HotelRoutes.ForeignHotelIsRejected | backend/modules/hotels/routes.py:145-150 | a hotel that is not the caller's is answered 404 "Hotel not found" before anything is written |
| HotelRoutes.InvalidBodyIsRejected | backend/modules/hotels/routes.py:151-178 | on the caller's hotel, a body lacking the room, the customer's name or a date, or sending `null` for guest count, price or currency, is refused with a server error exactly then, and nothing is inserted, pushed or queued |
| HotelRoutes.NewReservation | backend/modules/hotels/routes.py:159-173 | the stored reservation keeps the body's room, name and dates, takes guest count 1, price 0 and EUR when those keys are absent, is pending, not external and not yet pushed |
| HotelRoutes.CreateReservationPushesOrQueues | backend/modules/hotels/routes.py:160-215 | after the insert, either the push succeeded and the reservation is marked sent with the queue unchanged, or exactly one due queued item with the stored document, the hotel's method and the error is appended; the answer says "sent" exactly in the first case |
| HotelRoutes.FindOwnItem | backend/modules/hotels/routes.py:259-264 | the item found has the id and the caller's company; None means no such item |
| HotelRoutes.RetryPush | backend/modules/hotels/routes.py:254-280 | the reset and the one-item worker run give exactly the specified store and answer |
| HotelRoutes.RetryResetKeepsAttempts | backend/modules/hotels/routes.py:266-279 | the reset makes the item queued, due now and error-free but keeps its attempt count, so it is due again only under five attempts; the run then handles at most one item |
| HotelModels.DaysInMonth | backend/modules/hotels/routes.py:381 | every month has 28 to 31 days |
| HotelCalendar.NextDay | backend/modules/hotels/routes.py:425 | the next day is a valid date, strictly later, and no valid date lies between the two |
| HotelCalendar.GetHotelCalendar | backend/modules/hotels/routes.py:368-427 | a bad month is a server error; otherwise the calendar exists exactly when every queried stay can be walked, and it lists under each valid day exactly the queried reservations covering it, in query order, with no other keys |
| HotelCalendar.FillCalendar | backend/modules/hotels/routes.py:403-425 | the loop over the queried reservations succeeds exactly when every one of them can be walked, and then lists under each valid day exactly the reservations covering it, in query order |
| HotelCalendar.AddStay | backend/modules/hotels/routes.py:415-425 | the day loop succeeds exactly for a walkable stay, and then adds the reservation to every day from check-in through check-out |
| HotelCalendar.ListsBeforeStep | backend/modules/hotels/routes.py:420-425 | one step of the day loop extends the listed days by the current day |
| HotelCalendar.ListsBeforeDone | backend/modules/hotels/routes.py:420 | when the loop passes check-out, the reservation is listed under exactly the days it covers |
| HotelCalendar.MonthWindow | backend/modules/hotels/routes.py:380-384 | the window from day 1 to the month's last day holds exactly the dates of that month |
| HotelCalendar.OverlapMeansSharedDay | backend/modules/hotels/routes.py:386-394 | the overlap query keeps a stay exactly when it occupies some day of the month |
| HotelCalendar.FebruaryLengths | backend/modules/hotels/routes.py:381 | February has 29 days in 2024 and 2000, and 28 in 2023 and 1900 |
| HotelCalendar.StayAcrossMonths | backend/modules/hotels/routes.py:415-425 | a stay from 30 January to 2 February appears in February's query and is listed on both sides of the month boundary, but not outside the stay |
| PushAdapter.AuthHeaders | backend/modules/hotels/push_adapter.py:52-54 | the content type is kept, and a bearer token is sent exactly when a non-empty API key is configured |
| PushAdapter.IcsPush | backend/modules/hotels/push_adapter.py:30-70 | success exactly when there is no error; a success has two calendar dates and an accepted (200/201) HTTP status; without an endpoint the result is "Push endpoint not configured" |
| PushAdapter.JsonPush | backend/modules/hotels/push_adapter.py:75-117 | success exactly when there is no error; a success carries an accepted (200/201) HTTP status; without an endpoint the result is "Push endpoint not configured" |
| PushAdapter.EmailPush | backend/modules/hotels/push_adapter.py:122-170 | an exception escapes exactly when the port setting is not a number; a returned result succeeds exactly when it has no error, and a success names the configured recipient and the send time |
| PushAdapter.GetPushAdapter | backend/modules/hotels/push_adapter.py:172-179 | the ICS adapter exactly for "ics" and the e-mail adapter exactly for "email", in any case; JSON otherwise |
| PushAdapter.PushReservation | backend/modules/hotels/push_adapter.py:181-185 | only the e-mail adapter lets an exception escape; a push over HTTP succeeds only with an endpoint configured |
| PushAdapter.LowerIdempotent | backend/modules/hotels/push_adapter.py:179 | lower-casing twice is lower-casing once |
| PushAdapter.AdapterChoiceIgnoresCase | backend/modules/hotels/push_adapter.py:172-179 | the factory ignores case; only "ics" and "email" select something other than JSON |
| PushAdapter.IcsNameSelectsIcs | backend/modules/hotels/push_adapter.py:172-179 | the name is matched ignoring case: "ICS" selects the ICS adapter |
| PushAdapter.EmailNameSelectsEmail | backend/modules/hotels/push_adapter.py:172-179 | "Email" selects the e-mail adapter |
| PushAdapter.UnknownNameSelectsJson | backend/modules/hotels/push_adapter.py:172-179 | a name that is neither "ics" nor "email", such as "webhook", falls back to the JSON adapter |
| PushAdapter.PushOutcomeIsConsistent | backend/modules/hotels/push_adapter.py:181-185 | every returned triple has success exactly when there is no error; an exception escapes only from the e-mail adapter with an unreadable port |
| PushAdapter.NoEndpointSendsNothing | backend/modules/hotels/push_adapter.py:31-35 | without an endpoint both HTTP adapters fail with "Push endpoint not configured", whatever the network would do |
| PushAdapter.IcsSuccessIff | backend/modules/hotels/push_adapter.py:37-70 | with an endpoint, ICS push succeeds exactly when both dates are calendar dates and the reply is 200/201, and keeps at most 500 characters of the body |
| PushAdapter.ImpossibleDateSendsNothing | backend/modules/hotels/push_adapter.py:42-43 | an impossible check-in or check-out date fails with that date's `ValueError` whatever the network would say, so nothing is sent |
| PushAdapter.JsonSuccessIff | backend/modules/hotels/push_adapter.py:103-117 | with an endpoint, JSON push succeeds exactly on a 200/201 reply whose body is empty or JSON |
| PushAdapter.RejectedReplyIsReported | backend/modules/hotels/push_adapter.py:112-113 | a non-2xx reply fails with "HTTP status: " and at most 200 characters of the body, and the status code in the response |
| PushAdapter.EmailGuardOrder | backend/modules/hotels/push_adapter.py:130-134 | a missing recipient is reported before missing credentials, and in both cases nothing is sent |
| PushAdapter.EmailDelivery | backend/modules/hotels/push_adapter.py:136-170 | a delivered mail reports the recipient and the send time; an SMTP error becomes the failure message; the sender defaults to the SMTP user |
| PushAdapter.DefaultPortIs587 | backend/modules/hotels/push_adapter.py:125 | the default port setting reads as 587 |
| PushQueue.Select | backend/modules/hotels/push_queue.py:16-23 | the selection is the first due items in store order (a prefix of the due items and a subsequence of the queue), at most maxItems of them, and fewer only when every due item is selected |
| PushQueue.DueItems | backend/modules/hotels/push_queue.py:16-23 | the due items are exactly the queued items whose retry time has come or is unset and with fewer than five attempts, in store order |
| PushQueue.FindItem | backend/modules/hotels/push_queue.py:40-41 | the position found is the first item with that id; None means there is none |
| PushQueue.UpdateItem | backend/modules/hotels/push_queue.py:40-127 | `update_one` by id changes only the first item with that id, applies the change to it, and keeps every id |
| PushQueue.ResponseBody | backend/modules/hotels/push_queue.py:79 | the logged body is present exactly when response data is, and is at most 1000 characters |
| PushQueue.ProcessItem | backend/modules/hotels/push_queue.py:32-141 | one iteration's writes and counters are exactly the specified step |
| PushQueue.FinishAttempt | backend/modules/hotels/push_queue.py:70-141 | the writes after the push (log, sent or rescheduled item, reservation status, counters) are exactly the specified attempt for whatever the adapter did |
| PushQueue.ProcessPushQueue | backend/modules/hotels/push_queue.py:12-143 | the run's writes and result are exactly the specified run over the selected items |
| PushQueue.StepCounts | backend/modules/hotels/push_queue.py:32-141 | each step counts its item once, as succeeded or failed; it counts it processed exactly when it adds a detail; it logs every processed attempt and changes no hotel or event |
| PushQueue.ProcessAllCounts | backend/modules/hotels/push_queue.py:25-143 | over the loop: succeeded + failed grows by the number of items; processed equals the details added; successes are among them; every processed attempt is logged |
| PushQueue.RunCounts | backend/modules/hotels/push_queue.py:16-143 | a run accounts for every selected item, at most maxItems of them; processed is the number of details; the successes are among them |
| PushQueue.RetryDelays | backend/modules/hotels/push_queue.py:113-115 | the backoff runs 2, 4, 8, 16 and 32 minutes and is capped at 60 from the sixth attempt on |
| PushQueue.FailedPushReschedules | backend/modules/hotels/push_queue.py:111-129 | whatever failure with a message the adapter returns, the item is requeued with one more attempt, the message cut to 500 characters and the next try 2^attempt minutes later; it is due again exactly from then on, unless that was the fifth attempt |
| PushQueue.SuccessfulPushMarksSent | backend/modules/hotels/push_queue.py:87-110 | for any successful result, the item is marked sent and the reservation's push status sent at the run's clock, and the attempt is logged |
| PushQueue.OnlyMissingDocumentsFail | backend/modules/hotels/push_queue.py:38-141 | no push outcome marks an item failed; an exception from the adapter leaves the item in processing, where no selection finds it again |
| PushQueue.MissingDocumentFails | backend/modules/hotels/push_queue.py:38-51 | a missing hotel or reservation marks the item failed for good, with nothing pushed or logged and only the failed counter raised |
| IcsSync.ToStoredStamp | backend/modules/hotels/ics_sync.py:52-61 | corrected conversion: the stored stamp is a date-time on the same day; a date-time is kept unchanged |
| IcsSync.HasattrTestIsInverted | backend/modules/hotels/ics_sync.py:52-61 | as written, an all-day start stays a bare date and a 15:00 start becomes midnight; the corrected conversion gives midnight for the first and keeps 15:00 |
| IcsSync.ToStoredStampAsWritten | backend/modules/hotels/ics_sync.py:52-61 | as written: the stored stamp keeps the day, stays a bare date for an all-day stamp, and is a midnight date-time for a timed one |
| IcsSync.EventDoc | backend/modules/hotels/ics_sync.py:69-84 | the stored event carries the hotel and the UID, is external, has a lower-case status and at most 1000 raw characters, and date-time stamps on the event's days, converted by the corrected ToStoredStamp (see Findings) |
| IcsSync.FindEvent | backend/modules/hotels/ics_sync.py:64-67 | the event found has the hotel and UID; None means there is none |
| IcsSync.SyncHotelIcs | backend/modules/hotels/ics_sync.py:15-124 | the handler's writes and answer are exactly the specified sync, whose stored events use the corrected stamp conversion (see Findings) |
| IcsSync.UpsertOne | backend/modules/hotels/ics_sync.py:63-103 | one pass of the VEVENT loop writes exactly what the upsert of that event specifies, touches only the events, and adds one to created + updated exactly for a usable event |
| IcsSync.GuardOrder | backend/modules/hotels/ics_sync.py:17-26 | an unknown hotel, a missing URL and disabled syncing are refused in that order, each with its own message, without fetching or writing; no failure writes |
| IcsSync.UpsertEventEffect | backend/modules/hotels/ics_sync.py:41-103 | one event keeps keys unique, counts a usable event exactly once as created or updated, grows the store only on creation, and leaves other hotels' events unchanged |
| IcsSync.UpsertAllCounts | backend/modules/hotels/ics_sync.py:36-103 | over the loop, created + updated equals the number of usable events, and the store grows by exactly the created ones |
| IcsSync.UpsertAllKeys | backend/modules/hotels/ics_sync.py:63-101 | the loop keeps (hotel, UID) keys unique and in place, and leaves other hotels' events untouched |
| IcsSync.UpsertAllStores | backend/modules/hotels/ics_sync.py:63-101 | after the loop every usable event has a stored event under its key |
| IcsSync.SyncedCounts | backend/modules/hotels/ics_sync.py:15-124 | a successful sync reports processed = created + updated = usable events, stores them all, stamps only this hotel's last sync time, and keeps keys unique; a failure writes nothing |
| IcsSync.SyncTargets | backend/modules/hotels/ics_sync.py:128-131 | at most 1000 hotels are synced, each active and sync-enabled, in store order; below the cap every active, sync-enabled hotel is a target |
| IcsSync.SyncAllHotels | backend/modules/hotels/ics_sync.py:126-152 | the handler's writes and result are exactly the specified run |
| IcsSync.SyncNext | backend/modules/hotels/ics_sync.py:141-150 | one pass of the loop leaves the store as syncing that hotel would and counts its result as a success exactly when the sync succeeded, appending its detail |
| IcsSync.SyncEachCounts | backend/modules/hotels/ics_sync.py:140-150 | each hotel of the loop adds one detail, in order, and one success or failure |
| IcsSync.SyncAllCounts | backend/modules/hotels/ics_sync.py:126-152 | the run has one detail per target hotel, in order, and success + failed == total == number of details |
| Billing.FindCompany | backend/modules/billing/service.py:100 | the company found is the first with the id; None means there is none |
| Billing.FindByCustomer | backend/modules/billing/service.py:245 | the company found is the first with that Stripe customer id, an absent id matching an absent field; None means there is none |
| Billing.Capitalize | backend/modules/billing/service.py:148 | capitalising keeps the length, upper-cases the first letter and lower-cases the rest |
| Billing.SessionFor | backend/modules/billing/service.py:120-158 | the session is a subscription exactly for a plan with an interval; it has one line item of quantity 1, by price id when there is one and otherwise by amount (recurring exactly with an interval); the metadata names the company, module and plan |
| Billing.CreateCheckoutSession | backend/modules/billing/service.py:87-158 | a session is created exactly when the key is set, the company exists and the module and plan are in the catalogue; it is for the given customer and return URLs and carries company, module and plan in its metadata |
| Billing.CheckoutGuardOrder | backend/modules/billing/service.py:95-109 | a missing key, an unknown company, an unknown module and an unknown plan are refused in that order; every session is a subscription carrying the metadata |
| Billing.MarkWhere | backend/modules/billing/service.py:250-252 | exactly the subscriptions whose Stripe id matches get the new status (and end date), the rest are unchanged |
| Billing.WebhookSpec | backend/modules/billing/service.py:168-305 | an unprocessed event writes nothing; companies keep their number, order and ids; the event log only grows, by at most one entry |
| Billing.BillingDb.constructor | backend/modules/billing/service.py:168-305 | the store starts with the given companies and no billing events |
| Billing.BillingDb.Mark | backend/modules/billing/service.py:284-287 | the loop over the subscriptions re-labels exactly the matching ones |
| Billing.BillingDb.HandleWebhookEvent | backend/modules/billing/service.py:168-305 | the handler's writes and answer are exactly the specified webhook handling |
| Billing.UnhandledEventsWriteNothing | backend/modules/billing/service.py:176-187 | a checkout without company or module, and any other event type, writes nothing and is unprocessed |
| Billing.CheckoutEnablesModule | backend/modules/billing/service.py:189-235 | a completed checkout enables that module and no other, appends one active subscription named from the catalogue (or by plan id), logs one event, and touches no other company |
| Billing.FindCompanyAfterUpdate | backend/modules/billing/service.py:212-220 | replacing a company by one with the same id leaves every lookup by id as it was |
| Billing.ReplayedCheckoutDuplicates | backend/modules/billing/service.py:197-210 | replaying the same checkout appends a second, identical subscription entry and a second event |
| Billing.SubscriptionEventsRelabelMatching | backend/modules/billing/service.py:239-303 | a failed invoice marks past_due, and a cancellation marks cancelled with an end date, exactly the matching subscriptions; modules and other companies are untouched; only the invoice is logged |
| Billing.UnknownCustomerIsIgnored | backend/modules/billing/service.py:239-305 | an invoice or cancellation for an unknown customer writes nothing and is unprocessed |
| Middleware.FindCompany | backend/modules/middleware.py:49 | the position found is the first company with the id; None means there is none |
| Middleware.CheckModuleAccess | backend/modules/middleware.py:14-63 | with the flag off every request passes; what passes is the current user unchanged, and with the flag on it is a user whose token names a company; every refusal is 401, 403 or 404 |
| Middleware.AccessIff | backend/modules/middleware.py:14-63 | a request passes exactly when the flag is off or the user is entitled (a system-company admin, or the module is enabled); what passes is the user unchanged |
| Middleware.DenialOrder | backend/modules/middleware.py:24-51 | no user is 401, no company in the token is 403, and an unknown company is 404, in that order |
| Middleware.OtherAdminsFallThrough | backend/modules/middleware.py:32-42 | an admin of a company other than "1000" gets exactly what a plain user of that company gets |
| Middleware.GetCompanyModules | backend/modules/middleware.py:67-72 | with the flag off, or without a stored map, the modules are tour on and hotel off; otherwise the stored map |
| Middleware.ModulesAgreeWithGuard | backend/modules/middleware.py:53-72 | with the flag on, a plain user reaches exactly the modules the reported map marks true |
| Middleware.FlagReading | backend/modules/middleware.py:12 | the flag is off unless set, reads "true" in any case, and rejects "1" and "yes" |
| MigrateReservations.SetFields | backend/scripts/migrate_reservation_fields.py:70-73 | `$set` keeps the document's other fields and takes the update's values |
| MigrateReservations.UpdateData | backend/scripts/migrate_reservation_fields.py:35-66 | the update touches only the six cari-panel fields: source, status, creator cari, cari code snapshot, approver and approval time |
| MigrateReservations.UpdateDataFields | backend/scripts/migrate_reservation_fields.py:35-66 | the update sets the source to "system" exactly when it is missing, the status to "approved" exactly when it is missing or unknown, and each of the four cari fields to null exactly when missing, and nothing else |
| MigrateReservations.ConfirmedIsNeverRewritten | backend/scripts/migrate_reservation_fields.py:44-48 | "confirmed" is an allowed status, so the inner confirmed test never fires and a confirmed status is not touched |
| MigrateReservations.PresentFieldsKept | backend/scripts/migrate_reservation_fields.py:35-66 | every field already present is kept, except a status outside the allowed values |
| MigrateReservations.UpdateEmptyIffMigrated | backend/scripts/migrate_reservation_fields.py:68-74 | the update is empty exactly on a migrated document; applying it migrates the document, so the next update is empty |
| MigrateReservations.MigrateAll | backend/scripts/migrate_reservation_fields.py:30-74 | the first 10000 documents receive their updates and the rest are untouched |
| MigrateReservations.CountNeeding | backend/scripts/migrate_reservation_fields.py:68-74 | the updated count is at most the number of documents |
| MigrateReservations.ReservationStore.constructor | backend/scripts/migrate_reservation_fields.py:26-30 | the store holds the given documents |
| MigrateReservations.ReservationStore.Migrate | backend/scripts/migrate_reservation_fields.py:24-79 | the loop leaves exactly the migrated collection; the total is the batch size, updated is the number of non-empty updates, and unchanged is the difference |
| MigrateReservations.ReservationStore.MigrateAt | backend/scripts/migrate_reservation_fields.py:68-74 | one document: the write happens, and is counted, exactly when its update is non-empty, and afterwards the document at that position is its migrated form while every other document is unchanged |
| MigrateReservations.CountNeedingUnmigrated | backend/scripts/migrate_reservation_fields.py:68-74 | nothing is counted exactly when every document is already migrated |
| MigrateReservations.MigrationIsIdempotent | backend/scripts/migrate_reservation_fields.py:1-4 | a second run changes nothing and counts no update |
| PdfTemplate.ReplaceAll | frontend/src/utils/pdfTemplate.js:55-67 | replacing a character that does not occur leaves the text unchanged |
| PdfTemplate.Spell | frontend/src/utils/pdfTemplate.js:55-67 | each character's spelling has no special character; "&" becomes two characters and every other character one; a plain character spells itself |
| PdfTemplate.SpellAll | frontend/src/utils/pdfTemplate.js:55-67 | the spelled text has no special character and is longer by exactly the number of "&" |
| PdfTemplate.RulesWellFormed | frontend/src/utils/pdfTemplate.js:55-67 | each rule rewrites a special character into plain ones |
| PdfTemplate.LookupIsSpell | frontend/src/utils/pdfTemplate.js:55-67 | the first rule for a character gives its one-character spelling |
| PdfTemplate.ApplyRulesChar | frontend/src/utils/pdfTemplate.js:54-67 | the chain of thirteen replacements applied to one character gives its spelling |
| PdfTemplate.SafeTextProperties | frontend/src/utils/pdfTemplate.js:52-68 | the result has no Turkish special character or "&"; it is longer by the number of "&"; a text with no special character is unchanged; applying it twice is applying it once |
| PdfTemplate.ColWidths | frontend/src/utils/pdfTemplate.js:254 | there is one width per column: its own, or the content width shared equally |
| PdfTemplate.ColumnPositions | frontend/src/utils/pdfTemplate.js:255-261 | each column starts at the left margin plus the widths of the columns before it |
| PdfTemplate.DefaultColumnsFillContent | frontend/src/utils/pdfTemplate.js:254-261 | columns without widths split the content width equally, and the last one ends at the right margin |
| PdfTemplate.Truncate | frontend/src/utils/pdfTemplate.js:332-334 | text within the limit (or with no limit) is kept; longer text is cut to exactly the limit ending in "..." (just "..." when the limit is under 3) |
| PdfTemplate.FalsyCellsShowDash | frontend/src/utils/pdfTemplate.js:328-329 | a missing, empty, zero or false cell prints "-" |
| PdfTemplate.PlaceRows | frontend/src/utils/pdfTemplate.js:281-356 | one vertical position per row |
| PdfTemplate.LayoutRows | frontend/src/utils/pdfTemplate.js:281-356 | the row loop gives exactly the specified positions, page breaks and final cursor |
| PdfTemplate.RowsStayAboveFooter | frontend/src/utils/pdfTemplate.js:289-294 | no row starts below the overflow line |
| PdfTemplate.RowsThatFit | frontend/src/utils/pdfTemplate.js:355 | rows that fit are drawn 7 apart without a page break |
| PdfTemplate.ThirtyRowsPerPage | frontend/src/utils/pdfTemplate.js:289-293 | a fresh page holds 30 rows, and the 31st starts a new page |
| PdfTemplate.FooterTexts | frontend/src/utils/pdfTemplate.js:380-407 | the footer has three texts with a report name and two without, the second being "Sayfa i / n" |
| PdfTemplate.PdfDoc.constructor | frontend/src/utils/pdfTemplate.js:415-424 | a new document has one empty page |
| PdfTemplate.PdfDoc.SavePdf | frontend/src/utils/pdfTemplate.js:415-424 | every page receives its footer with its own page number and the total, and the page count is unchanged |
| VoucherPdf.SafeText | frontend/src/utils/voucherPdf.js:8-11 | a falsy value gives ""; otherwise the characters above 0x7F are removed, so the result is ASCII |
| VoucherPdf.SafeTextProperties | frontend/src/utils/voucherPdf.js:8-11 | the result is ASCII and an ordered subsequence of the text, holding exactly its ASCII characters; ASCII text is unchanged; applying it twice is applying it once |
| VoucherPdf.CompanyOrDefault | frontend/src/utils/voucherPdf.js:23-31 | a given company is used as is; without one the name is "Firma Adı" and every contact field is empty |
| VoucherPdf.DayStampDigits | frontend/src/utils/voucherPdf.js:269 | the yyyyMMdd stamp has exactly eight digits |
| VoucherPdf.PriceText | frontend/src/utils/voucherPdf.js:242 | a missing or zero price prints "0.00" |
| VoucherPdf.PriceTextReadsBack | frontend/src/utils/voucherPdf.js:242 | every price prints as an optional minus sign, the whole units, a point and exactly two digits, and that text reads back to the price |
| VoucherPdf.FilenameShape | frontend/src/utils/voucherPdf.js:269 | the file name is "voucher-", then the voucher code or the first eight characters of the id, then "-yyyyMMdd.pdf" |
| VoucherPdf.CompanyBlock | frontend/src/utils/voucherPdf.js:62-103 | the drawn blocks are exactly the name and each present contact field, in order, at one x, each below the previous one's lines, starting at margin + 60 |
| VoucherPdf.PutContact | frontend/src/utils/voucherPdf.js:84-103 | a labelled contact line is added below the column exactly when the field is present and non-empty; the column keeps its first block |
| VoucherPdf.PutAddress | frontend/src/utils/voucherPdf.js:89-93 | the wrapped address is added below the column exactly when the company has one; the column keeps its first block |
| VoucherPdf.VoucherNumberBlock | frontend/src/utils/voucherPdf.js:105-121 | three stacked lines; the second is the ASCII voucher code (default "VCHR-XXXX"); the last is 24 above the content bottom |
| VoucherPdf.DetailRows | frontend/src/utils/voucherPdf.js:124-254 | the detail values are drawn in order in one column, starting at margin + 70, each at least 25 and at least its own lines below the previous one |
| VoucherPdf.FooterBlock | frontend/src/utils/voucherPdf.js:257-266 | the footer lines are centred 10 apart, the last one 10 above the footer line |
| VoucherPdf.GenerateVoucher | frontend/src/utils/voucherPdf.js:17-272 | a missing reservation fails with "Rezervasyon bilgisi gerekli", and only then; otherwise the voucher holds the company column, the number block, the stacked details, a footer above the footer line, and the file name |
| VoucherPdf.DefaultNamePrinted | frontend/src/utils/voucherPdf.js:8-11 | the default name "Firma Adı" prints as "Firma Ad": the dotless ı is dropped |
| VoucherPdf.DefaultCompanyShowsOnlyName | frontend/src/utils/voucherPdf.js:23-103 | without a company the left block shows only the name "Firma Ad" |
| AdminCustomers.RemainingDays | frontend/src/pages/AdminCustomers.js:251-254 | the server's count is used when sent (null gives none); otherwise a count exists exactly when there is an end date |
| AdminCustomers.RowStatus | frontend/src/pages/AdminCustomers.js:256-260 | a non-empty server status wins; otherwise the status is computed from the days |
| AdminCustomers.Classify | frontend/src/pages/AdminCustomers.js:256-260 | "unknown" exactly without a day count; below 0 days "expired"; above 90 "active" |
| AdminCustomers.ClassifyBands | frontend/src/pages/AdminCustomers.js:256-260 | the computed status is one of five: unknown exactly without days, expired below 0, 1 month for 0..30, 3 months for 31..90, active above 90 |
| AdminCustomers.ClassifyMonotone | frontend/src/pages/AdminCustomers.js:256-260 | more remaining days never gives a more urgent status |
| AdminCustomers.DaysColour | frontend/src/pages/AdminCustomers.js:244-249 | red exactly when the status says expired or the days are negative; green exactly when more than 90 days remain and the status names no expiry band |
| AdminCustomers.ColourIsMoreUrgent | frontend/src/pages/AdminCustomers.js:244-249 | the colour is the more urgent of the status's band and the days' band, and matches the band when the status is computed |
| AdminCustomers.DaysCell | frontend/src/pages/AdminCustomers.js:273-279 | no count shows "-", a positive count "n gün", and zero or less "Süresi dolmuş" |
| AdminCustomers.LastDayShownExpired | frontend/src/pages/AdminCustomers.js:256-279 | on the last day (0 days) the cell says expired while the status says one month and the colour is yellow |
| AdminCustomers.FilterStep | frontend/src/pages/AdminCustomers.js:64-92 | applying one optional filter to an already filtered list equals filtering the original list by the conjunction |
| AdminCustomers.FilterCustomers | frontend/src/pages/AdminCustomers.js:64-92 | the listed customers are exactly the fetched ones passing all three filters, in fetched order |
| AdminCustomers.FilterCustomersMeaning | frontend/src/pages/AdminCustomers.js:64-92 | the listed customers keep the fetched order and are exactly those passing all three filters; blank filters list everyone |
| AdminCustomers.DateBoundsInclusive | frontend/src/pages/AdminCustomers.js:84-89 | both date bounds are inclusive, and a customer without a start date is hidden by either bound |
| AdminCustomers.TypingNarrows | frontend/src/pages/AdminCustomers.js:68-80 | extending the search text never lists a customer that the shorter text hid |
| AdminCustomers.EmptyMessage | frontend/src/pages/AdminCustomers.js:239 | with no customers at all the message says there are none, otherwise that the search found none |
| AdminCustomers.CustomerList.constructor | frontend/src/pages/AdminCustomers.js:13-14 | both lists start empty |
| AdminCustomers.CustomerList.FetchCustomers | frontend/src/pages/AdminCustomers.js:22-58 | a response sets both lists to its data (or empty); an error empties both |
| AdminCustomers.CustomerList.ApplyFilters | frontend/src/pages/AdminCustomers.js:64-92 | the three successive filters leave exactly the listed customers and keep the fetched list |
| NotificationCenter.Partition | frontend/src/components/NotificationCenter.js:37-44 | both tabs keep the fetched order; info, success and untyped items go to notifications, warning and error to warnings, and none to both |
| NotificationCenter.Ids | frontend/src/components/NotificationCenter.js:69 | the ids are those of the items, in order |
| NotificationCenter.Toggle | frontend/src/components/NotificationCenter.js:73-79 | a selected id is removed; an unselected one is appended |
| NotificationCenter.ToggleInvolution | frontend/src/components/NotificationCenter.js:73-79 | toggling flips exactly that id's membership, and toggling twice restores the set of selected ids |
| NotificationCenter.ToggleKeepsNoDup | frontend/src/components/NotificationCenter.js:73-79 | toggling never duplicates an id |
| NotificationCenter.SelectAllAsWritten | frontend/src/components/NotificationCenter.js:62-71 | as written: the click clears the selection exactly when the number of selected ids equals the number of unread items, and otherwise selects exactly the unread ids |
| NotificationCenter.SelectAllAsWrittenMisses | frontend/src/components/NotificationCenter.js:62-71 | as written, with two unread items and one read, selecting the read one and one unread one makes the click clear the selection instead of selecting all |
| NotificationCenter.SelectAll | frontend/src/components/NotificationCenter.js:62-71 | corrected: the click clears the selection exactly when all unread items are selected, and otherwise selects all unread ids |
| NotificationCenter.SelectAllFlips | frontend/src/components/NotificationCenter.js:127-129 | the click flips the "all unread selected" state shown by the box and selects only unread items |
| NotificationCenter.Panel.constructor | frontend/src/components/NotificationCenter.js:1-21 | the panel starts on the notifications tab with nothing loaded or selected |
| NotificationCenter.Panel.FetchNotifications | frontend/src/components/NotificationCenter.js:23-60 | a response splits its items into the two tabs and takes the unread count (default 0); a failure changes nothing |
| NotificationCenter.Panel.HandleSelectAll | frontend/src/components/NotificationCenter.js:62-71 | the selection becomes the corrected select-all of the current tab |
| NotificationCenter.Panel.HandleSelectItem | frontend/src/components/NotificationCenter.js:73-79 | the selection becomes the toggle of the id |
| NotificationCenter.Panel.SwitchTab | frontend/src/components/NotificationCenter.js:146-163 | switching tabs sets the tab and clears the selection |
| NotificationCenter.Panel.HandleDeleteSelected | frontend/src/components/NotificationCenter.js:81-99 | nothing selected sends nothing; on success the selection is deleted and cleared; on failure it is kept |
| NotificationCenter.Panel.HandleMarkAsRead | frontend/src/components/NotificationCenter.js:101-112 | on success the selection is cleared; on failure it is kept |

## Left out

- The Stripe API is left out: customers, `create_stripe_customer`, session creation, signatures and event parsing. The customer id arrives as a parameter and events arrive parsed.
- The checkout-completed branch for an unknown company is modelled, but no lemma names its message.
- Fetching and parsing an ICS calendar is an oracle from URL to events. A VEVENT whose processing raises is assumed to raise before any write.
- Event ids are assumed unique in the stored collections.
- The store's natural order of hotels is an explicit `order` parameter.
- Time zones are left out. Instants are whole seconds on one UTC clock, and ISO strings compare in the same order.
- jsPDF is left out: drawing, fonts, colours, lines and page sizes. `splitTextToSize` is the `wrap` parameter. The page size of the landscape A4 voucher is a constant.
- The ICS body, the JSON payload and the e-mail body are values, not rendered text.
- `str(response)` renders response data as a plain string, not a Python `repr`.
- Python's `int()` of the SMTP port is modelled for plain decimal literals only.
- Report cells that are numbers are whole numbers.
- The pdfTemplate footer note passes through `safeText`. The model uses the note as is, because it is written in plain ASCII letters and `PdfTemplate.SafeTextProperties` proves that such a text is unchanged; that lemma is not applied to the literal itself.
- VoucherPdf.PriceText: the price is in hundredths, and the floating-point rounding of `toFixed(2)` is left out.
- The voucher's reservation id is assumed present, and dates are assumed valid; `new Date` on an invalid value is left out.
- JavaScript's `toLowerCase`, `trim` and `includes`, and Python's `lower` and `capitalize`, are modelled on ASCII. Unicode case mapping is left out.
- The `status_filter` sent to the server by AdminCustomers is left out, as are toasts, navigation, loading flags and the 30-second polling.
- After a delete or mark-as-read, the panel refetches; that refetch is a separate `FetchNotifications` call.
- The migration and the webhook assume document ids are unique. Each update goes to the document it was computed from.
- `print` output of the migration is returned as numbers.
- `retry_push` reads the clock twice; the model uses one instant for both reads.
- The push queue's `maxItems` is at least 1. Mongo treats `limit(0)` as no limit, and that case is left out.
- Report queries read at most 10000 documents (`to_list(10000)`). The earnings and collections reports are modelled on the full query result.
- Balances and amounts are floats in the source; the model uses integers in minor units.
- Authentication (`get_current_user`) and the HTTP layer are left out; the caller's company is a parameter.
- CreateCariAccount: the account's id (the body's own `id` or a new uuid) is assumed not to name an existing account. A repeated id would store a second document with it, which a map keyed by id cannot hold. The body's other fields (contact details, the `EmailStr` check of `email`, a clashing `company_id` key) are left out.
- CreateExtraSale: the sale's id (the body's own `id` or a new uuid) is assumed fresh, for the same reason. Of the body's other fields, only the cari, date, prices and currency are modelled.
- Hotel reservation dates are free strings in the store. The model keeps a year, month and day, which may be out of range; a string that is not of the form YYYY-MM-DD at all is not modelled.
- CariLedger.UpdateCariSpec: does not list the other fields a `$set` body may carry. Only the name and the three balances are modelled, since they are the ledger's concern.
- Billing.CheckoutGuardOrder: names the unknown-plan refusal for the tour module only. For the hotel module it is implied by the catalogue but not stated.
- HotelCalendar.GetHotelCalendar: the names of hotels and rooms that the loop adds to each reservation are left out.
- Currencies are the three the balances have: EUR, USD and TRY. The source types a currency as a free string, so any other value would `$inc` a stray `balance_<x>` field and make the earnings report fail on an unknown key; such values are not modelled.
- PdfTemplate.Truncate: counts characters, whereas JavaScript's `length` counts UTF-16 code units, so a character outside the Basic Multilingual Plane (an emoji) counts twice in the source.
- The hotel name in an ICS sync detail is the stored name, which the `Hotel` record requires; a stored hotel without a name (where `hotel.get("name")` gives None) is not modelled.
- CariLedger.UpdateReservationSpec: the `$set` body is modelled as the cari, date, price, currency and status fields. Any other field it carries (including `company_id` or `id`) and the `updated_at` stamp are left out, like the other fields of `CariLedger.UpdateCariSpec`.
- CariLedger.UpdateReservationAsWrittenSpec: the same five fields of the `$set` body are modelled, and the same others are left out.
- The `onNotificationUpdate` callback that NotificationCenter calls with the unread count after a fetch is left out; the count is kept in the panel's state.

## Findings

| source | as written | input that shows it | evidently intended | confidence | as-written member | corrected member |
|---|---|---|---|---|---|---|
| backend/server.py:578-621 | `update_reservation` `$set`s a new `cari_id` but moves the balance and rewrites the linked transaction on the reservation's old cari | cari A and B at 0; reservation of 100 EUR on A; update with `cari_id` B; then delete | the old cari gives back the old price and the new cari is charged, with the linked row moved, so balances keep matching transactions | not executed | CariLedger.UpdateReservationAsWrittenBreaksLedger | CariLedger.UpdateReservationKeepsValid |
| backend/modules/hotels/ics_sync.py:52-61 | `hasattr(dt, 'date')` holds for a `datetime` and not for a `date`, so timed events are cut to midnight and all-day events stay dates | a VEVENT with DTSTART 15:00, and an all-day VEVENT | all-day stamps become midnight date-times, and date-times are kept | not executed | IcsSync.HasattrTestIsInverted | IcsSync.ToStoredStamp |
| frontend/src/components/NotificationCenter.js:62-71 | select-all compares only the number of selected ids with the number of unread items | items a and b unread, c read; selection [c, a] | the click clears the selection exactly when every unread item is selected (the box's own test at line 129), and otherwise selects all unread | not executed | NotificationCenter.SelectAllAsWrittenMisses | NotificationCenter.SelectAll |
