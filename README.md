# SMART-SHOP credit ledger and ordering core, in Dafny

SMART-SHOP is a small-shop application. A Django REST backend keeps
products, customer orders, credit records (what a customer owes a
shopkeeper) with their payments, and payment reminders. A React Native
client lists products and builds orders. It also shows the credit ledger
and the reminders, and it formats the backend's errors. The client can
also run on an in-memory data service instead of the backend.

This project models that core and proves properties of the model:

- `common.dfy` (`Common`): the shared vocabulary. It holds options,
  validation results, field-keyed error bodies, backend replies and user
  roles. It also holds list
  filtering and summing, decimal rendering, substring search and the
  JavaScript blank test.
- `field_checks.dfy` (`FieldChecks`): what Django REST framework's
  serializer fields check before the backend's own validators. Text
  fields are stripped and bounded in length. Decimal fields of ten digits
  with two decimals refuse amounts of 10^10 paise or more. Choice and
  primary-key fields have their own messages. A serializer reports every
  failing field at once, in field order.
- `credit_ledger.dfy` (`CreditLedger`): credit records and payments. A
  save recomputes the remaining balance and the status. A payment
  recomputes the paid amount from all payments. This module also has the
  payment and creation views, and the role-filtered and overdue listings.
  `CreditRecord` is a class whose `Save` and `RecordPayment` overwrite its
  fields.
- `products.dfy` (`Products`): the price and stock validators and the
  "shopkeeper or read-only" permission. It also has the active-product
  listing and the product table (`ProductStore`), with creation and soft
  deletion.
- `orders.dfy` (`Orders`): the order and payment status choices and the
  order request validation. It also has the line-building loop of order
  creation, the `OrderItem` total on save, and the order table
  (`OrderBook`) with create, status update, confirm and cancel.
- `reminders.dfy` (`Reminders`): the reminder table (`ReminderBook`),
  with create, mark-as-sent and the bulk send over a shopkeeper's overdue
  records.
- `cart.dfy` (`Cart`): the order screen's lines (merge on add, update,
  remove, total and submit guards). It also has the catalog's cart, a map
  from product id to count, with add, decrement-or-delete, item count,
  money total and the hand-over to the order screen. The catalog's
  category and search filters are here too.
- `mock_store.dfy` (`MockStore`): the client's in-memory data service.
  It is a class whose user, product, credit and order arrays are appended
  to or overwritten in place.
- `ledger_views.dfy` (`LedgerViews`): the client's credit-record screen
  (status filter, totals, payment-amount guard, buttons). It also has the
  reminders screen: the overdue and due-soon lists, day counts, reminder
  text and bulk send.
- `register_form.dfy` (`RegisterForm`): the registration form check and
  its submit handler.
- `error_format.dfy` (`ErrorFormat`): the two error-message formatters of
  the client and the query string of the product listing request.

Conventions:

- Money is integer paise. The backend's decimal fields have two decimal
  places.
- Backend dates are day numbers. Client dates are milliseconds.
- Ids are natural numbers.

Behaviour the model keeps as the code has it:

- The data service's overdue list takes records whose stored status is
  still pending. The backend lists records whose status is overdue.
- A credit record with nothing or less than nothing remaining is paid.
- An account that is neither customer nor shopkeeper sees every credit
  record in the list view. It also passes the ownership test of a
  payment.
- "Today", "now", fresh ids, the date and currency renderers,
  `JSON.stringify`, URL encoding and `parseFloat` are parameters.

## Model

| member | source | states |
|---|---|---|
| FieldChecks.ErrorOf | backend/credits/views.py:108 | what an error body reports for a field, none iff the field is not in it |
| FieldChecks.CollectReports | backend/credits/views.py:108 | a serializer's error body lists exactly the failing fields in field order, each with its own report |
| FieldChecks.CollectFields | backend/credits/views.py:108 | the fields an error body names are exactly the failing ones, in field order |
| FieldChecks.CollectError | backend/credits/views.py:108 | each failing field's entry in the error body is its own report |
| FieldChecks.StripSpec | backend/products/models.py:19-20 | the stored text is the input without surrounding white space, empty iff it is all white space |
| FieldChecks.StripIdempotent | backend/products/models.py:19-20 | stripping twice is stripping once |
| FieldChecks.CheckText | backend/products/models.py:19-20 | a text passes iff it is allowed blank or not blank, and within its length bound once stripped; the stripped text is kept; otherwise the blank or length message |
| FieldChecks.DigitCount | backend/products/models.py:21 | a number has at most k digits iff it is below 10^k |
| FieldChecks.MoneyBound | backend/products/models.py:21 | the two digit limits together refuse exactly the amounts of 10^10 paise or more in size, and a two-decimal amount breaks the first |
| FieldChecks.CheckMoney | backend/credits/models.py:81 | an amount passes iff it is strictly between −10^10 and 10^10 paise; otherwise one of the two digit messages, the total-digits one for two decimals |
| CreditLedger.ParseMethod | backend/credits/models.py:69-74 | a payment method parses exactly when it is one of cash, card, upi, other, and then to the method stored under that name |
| CreditLedger.MethodNamesRoundTrip | backend/credits/models.py:69-74 | every method is read back from its stored name |
| CreditLedger.Resaved | backend/credits/models.py:51-63 | a save sets remaining = total − paid; status is paid iff remaining ≤ 0, overdue iff something remains and the due date is before today, pending otherwise; no other field changes |
| CreditLedger.ResavedIdempotent | backend/credits/models.py:51-63 | a second save on the same day changes nothing |
| CreditLedger.AfterPayment | backend/credits/models.py:95-102 | after a payment the record holds it, paid is the sum of all payments, and the record is reconciled (paid = sum, remaining = total − paid, paid status iff nothing remains) |
| CreditLedger.PaymentMovesBalance | backend/credits/models.py:95-102 | on a reconciled record a payment raises paid and lowers remaining by exactly its amount; an amount within the balance keeps it non-negative |
| CreditLedger.NewRow | backend/credits/models.py:28-33 | a new record starts with paid 0, no payments and remaining equal to the total, reconciled |
| CreditLedger.CreditRecord.Save | backend/credits/models.py:51-63 | the object's fields become exactly `Resaved` of the old fields |
| CreditLedger.CreditRecord.RecordPayment | backend/credits/models.py:95-102 | the object's fields become exactly `AfterPayment` of the old fields |
| CreditLedger.CreditRecord.Create | backend/credits/models.py:28-36 | a created record equals the first-save row |
| CreditLedger.ValidateAmount | backend/credits/serializers.py:30-34 | an amount passes iff it is positive, unchanged; otherwise the error "Payment amount must be positive." |
| CreditLedger.ValidateTotalAmount | backend/credits/serializers.py:61-65 | a total passes iff it is positive; otherwise "Total amount must be positive." |
| CreditLedger.MethodField | backend/credits/models.py:82 | an absent method is cash, a listed one parses, any other gets its choice error |
| CreditLedger.ValidateCredit | backend/credits/serializers.py:54-65 | a creation body is valid iff the customer exists and the total is positive and below 10^10 paise; an invalid one names customer and total_amount, each with its message |
| CreditLedger.ValidatePayment | backend/credits/serializers.py:23-34 | a payment body is valid iff the amount is positive and below 10^10 paise and the method is absent or one of the choices; the valid data has the method (cash when absent) and the stripped notes; an invalid body names each failing field, amount before payment_method, with its message |
| CreditLedger.ListedPaymentValid | backend/credits/serializers.py:23-34 | a positive amount that fits, a listed method and notes without surrounding white space are accepted exactly as sent |
| CreditLedger.PaymentDecision | backend/credits/views.py:91-119 | 403 for a record the customer or shopkeeper does not own; 400 with the field errors for an invalid body; 400 for an amount above the remaining balance; success iff owner, valid and amount ≤ remaining |
| CreditLedger.AcceptedPaymentKeepsLedger | backend/credits/views.py:110-125 | every accepted payment keeps a reconciled, non-negative record reconciled and non-negative, paid ≤ total, and marks it paid iff the whole balance was paid |
| CreditLedger.MakePayment | backend/credits/views.py:91-125 | 404 without a record; on a refused or rejected decision the record is unchanged; otherwise exactly one payment is recorded and the new record returned with 201 |
| CreditLedger.CreationDecision | backend/credits/views.py:39-54 | only shopkeepers create; success iff the caller is a shopkeeper, the customer exists and the total is positive and below 10^10 paise; an invalid body gives 400 with its field errors; the caller becomes the shopkeeper, paid starts at 0 |
| CreditLedger.CreateCreditRecord | backend/credits/views.py:39-54 | a refused or rejected creation returns the decision's reply; an accepted one a fresh record equal to the decided row |
| CreditLedger.ListCredits | backend/credits/views.py:17-32 | a record is listed iff it is the customer's (or the shopkeeper's, or any record for another account type) and, when a status is given, has that status; an unknown status lists nothing |
| CreditLedger.OverdueCredits | backend/credits/views.py:128-142 | the caller's records whose stored status is overdue; nothing for other account types |
| Products.ValidatePrice | backend/products/serializers.py:20-24 | a price passes iff it is ≥ 0, zero allowed; otherwise "Price must be positive." |
| Products.ValidateStock | backend/products/serializers.py:26-30 | stock passes iff it is ≥ 0; otherwise "Stock cannot be negative." |
| Products.NameField | backend/products/models.py:19 | a name passes iff it is not blank and at most 255 characters once stripped, and is kept stripped; otherwise the blank or length message |
| Products.PriceField | backend/products/models.py:21 | a price passes iff it is ≥ 0 and below 10^10 paise; the digit messages come before the validator's |
| Products.CategoryField | backend/products/models.py:8-22 | a category passes iff it is one of the eight choices; otherwise its choice error |
| Products.ValidateProduct | backend/products/serializers.py:33-53 | a product body is valid iff name, price, category and stock all pass; the valid data has name and description stripped; an invalid one names exactly the failing fields in field order, each with its message |
| Products.BlankNameAndUnknownCategory | backend/products/serializers.py:33-53 | a blank name and an unknown category are both reported, name first |
| Products.Lookup | backend/orders/serializers.py:58 | the product found has the requested id; none is found iff no row has it |
| Products.PermissionTable | backend/products/views.py:6-17 | reads pass both levels; a write passes the view level iff the caller is an authenticated shopkeeper, the object level iff the caller owns the product |
| Products.ListProducts | backend/products/views.py:23-41 | a product is listed iff it is active and matches the category and shopkeeper filters that are given |
| Products.ProductStore.Create | backend/products/views.py:20-49 | refused without permission; 400 with the field errors for a blank or over-255 name, a price outside ten digits or negative, an unknown category or a negative stock, table unchanged; otherwise one product owned by the caller, name and description stripped, is appended |
| Products.ProductStore.Destroy | backend/products/views.py:52-66 | 401/403 without permission, 404 for an unknown id; success iff the caller is the owning shopkeeper, and then only `is_active` of that row is cleared, the row stays |
| Orders.ParseOrderStatus | backend/orders/models.py:9-14 | an order status parses iff it is pending, confirmed, delivered or cancelled |
| Orders.ParsePaymentStatus | backend/orders/models.py:16-20 | a payment status parses iff it is unpaid, partial or paid |
| Orders.StatusNamesRoundTrip | backend/orders/models.py:9-20 | every status parses back from its stored name |
| Orders.OrderItem.Save | backend/orders/models.py:78-81 | the stored total becomes price × quantity, nothing else changes |
| Orders.CheckItems | backend/orders/serializers.py:52-66 | the items pass iff every product is found active with enough stock; otherwise the first failing item's message, in request order |
| Orders.LineErrors | backend/orders/serializers.py:19 | a line reports a quantity error iff its quantity is below 1 |
| Orders.ItemsField | backend/orders/serializers.py:43-50 | the items field fails iff the list is empty or a quantity is below 1; with such a quantity every line gets its own error object, in line order |
| Orders.ValidateOrder | backend/orders/serializers.py:39-66 | a request passes iff it has items, each quantity ≥ 1 and every item is available; quantities below 1 are reported line by line under items, then an empty list, then the first unavailable item under non_field_errors; notes are stripped |
| Orders.BuildOrder | backend/orders/serializers.py:68-91 | one line per item in order, priced from the product, each total = price × quantity, and the order total is their sum |
| Orders.TotalNonNegative | backend/orders/serializers.py:74-83 | with non-negative prices and quantities the order total is non-negative |
| Orders.DuplicateLinesNotCumulative | backend/orders/serializers.py:56-62 | two lines each asking for the whole stock of one product both pass, since stock is checked per line |
| Orders.VisibleOrders | backend/orders/views.py:15-22 | customers see their orders, shopkeepers their shop's, others nothing |
| Orders.FindOwned | backend/orders/views.py:88 | the index of an order with that id owned by the caller in the given role, or -1 iff there is none |
| Orders.StatusField | backend/orders/models.py:36 | an absent status keeps the current one, a listed one parses, any other gets its choice error |
| Orders.PaymentStatusField | backend/orders/models.py:37 | an absent payment status keeps the current one, a listed one parses, any other gets its choice error |
| Orders.ApplyPatch | backend/orders/serializers.py:108-113 | a status patch applies iff its status and payment status are valid choices; only status, payment status and delivery date change; an invalid patch names each bad field with its choice error |
| Orders.OrderBook.Create | backend/orders/views.py:29-44 | only customers create; an invalid request is rejected with its field errors; a shopkeeper id of no account fails the insert with a 500 and nothing stored; a total, line price or line total of 10^10 paise or more cannot be rendered, a 500 with nothing stored; otherwise exactly the built order is appended and returned with 201, notes stripped or empty |
| Orders.OrderBook.Update | backend/orders/views.py:67-74 | only shopkeepers update, on their own shop's orders; an invalid patch is rejected with its field errors and changes nothing; only the patchable fields change, and the reply holds just status, payment status and delivery date |
| Orders.OrderBook.Confirm | backend/orders/views.py:77-96 | a shopkeeper sets their own order's status to confirmed; anyone else gets 403, an unknown order 404; the status is saved even when the order cannot be rendered, which answers 500 |
| Orders.OrderBook.Cancel | backend/orders/views.py:99-116 | a customer cancels their own order, anyone else an order of their shop; only the status changes; the status is saved even when the order cannot be rendered, which answers 500 |
| Reminders.VisibleReminders | backend/reminders/views.py:15-22 | customers see their reminders, shopkeepers those on their credit records, others nothing |
| Reminders.BulkMessageMentions | backend/reminders/views.py:114 | the bulk message names the remaining amount and the due date |
| Reminders.ValidateReminder | backend/reminders/serializers.py:26-31 | a reminder body is valid iff its credit record exists and its message is not blank; the message is kept stripped; an invalid one names credit_record and message, each with its message |
| Reminders.BulkReminder | backend/reminders/views.py:115-122 | a bulk reminder is already sent, sent now, and belongs to the record and its customer |
| Reminders.ReminderBook.Create | backend/reminders/views.py:29-53 | only shopkeepers create; an unknown credit record or a blank message is rejected with the field errors; only on a record of theirs; the reminder is unsent, addressed to the record's customer, message stripped |
| Reminders.ReminderBook.Send | backend/reminders/views.py:72-92 | a shopkeeper marks one reminder on their records as sent now; nothing else changes |
| Reminders.ReminderBook.SendBulk | backend/reminders/views.py:95-128 | one sent reminder per overdue record of the shopkeeper, in order, appended; the summary counts them |
| Reminders.BulkRemindersFromOverdue | backend/reminders/views.py:105-123 | every bulk reminder is sent and belongs to an overdue record of the shopkeeper, addressed to its customer |
| Reminders.BulkCoversOverdue | backend/reminders/views.py:111-123 | every overdue record gets a bulk reminder |
| Cart.AddProductToOrder | Screens/CreateOrder.tsx:77-98 | an existing line's quantity rises and its total is recomputed from its own price; otherwise one line is appended; unique ids and consistent totals are kept, and the total rises by price × quantity |
| Cart.IndexOf | Screens/CreateOrder.tsx:79 | the position of the product's line, or -1 iff no line holds it |
| Cart.MergedLineKeeps | Screens/CreateOrder.tsx:82-86 | raising one line's quantity keeps ids unique and totals consistent and raises the order total by its price × the added quantity |
| Cart.AppendedLineKeeps | Screens/CreateOrder.tsx:87-95 | appending the line of a new product keeps ids unique and totals consistent and adds its total |
| Cart.UpdateItemQuantity | Screens/CreateOrder.tsx:100-117 | quantity ≤ 0 removes the product; otherwise its lines take the new quantity and total and other lines are unchanged |
| Cart.RemoveItem | Screens/CreateOrder.tsx:119-121 | exactly the lines of other products remain |
| Cart.RemoveAbsent | Screens/CreateOrder.tsx:119-121 | removing a product no line holds changes nothing |
| Cart.RemoveItemSplit | Screens/CreateOrder.tsx:119-121 | with one line per product, removal cuts out exactly that line |
| Cart.RemoveItemTotal | Screens/CreateOrder.tsx:119-125 | removing a present product lowers the count by one and the total by its line total |
| Cart.CalculateTotalAppend | Screens/CreateOrder.tsx:123-125 | an appended line adds its total; the empty order totals 0 |
| Cart.SubmitOrder | Screens/CreateOrder.tsx:127-151 | an empty order and an unknown first product are refused; otherwise the first product's shopkeeper, every line's product and quantity, and the chosen payment status are sent |
| Cart.AddToCart | Screens/ProductCatalog.tsx:107-112 | the product's count rises by one from 0 when absent, other counts unchanged |
| Cart.AddToCartCount | Screens/ProductCatalog.tsx:133-135 | adding to the cart raises the item count by exactly one |
| Cart.AddToCartTotal | Screens/ProductCatalog.tsx:126-131 | adding raises the cart total by the product's price, or by nothing when it is not loaded |
| Cart.RemoveFromCart | Screens/ProductCatalog.tsx:114-124 | a count above one is decremented, any other entry deleted; counts stay ≥ 1 and the item count falls by one |
| Cart.SortedKeysAscending | Screens/ProductCatalog.tsx:127-143 | cart entries are visited in strictly ascending product id order |
| Cart.MapSumRemove | Screens/ProductCatalog.tsx:126-135 | a reduction over the entries can take any entry out first, whatever the visiting order |
| Cart.EntryValueStep | Screens/ProductCatalog.tsx:126-131 | one more unit of an entry adds the product's price, or nothing when it is not loaded |
| Cart.CartLines | Screens/ProductCatalog.tsx:143-153 | one line per cart entry, each priced from its loaded product |
| Cart.CartLinesKeys | Screens/ProductCatalog.tsx:143 | the lines follow the cart's keys in ascending order |
| Cart.CartLinesCover | Screens/ProductCatalog.tsx:143-153 | a product has a line iff it is in the cart |
| Cart.CartLinesTotal | Screens/ProductCatalog.tsx:143-159 | the handed-over lines add up to the handed-over cart total |
| Cart.ProceedToOrder | Screens/ProductCatalog.tsx:137-164 | an empty cart is refused; otherwise one consistent line per entry in id order, a total equal to the lines' sum, and an emptied cart |
| Cart.FilterProducts | Screens/ProductCatalog.tsx:86-105 | a product is kept iff it matches the category (or All) and, for a non-blank search, its lower-cased name, description or category contains the lower-cased search |
| Cart.ProductCategories | Screens/ProductCatalog.tsx:61 | every product category exactly once |
| Cart.Categories | Screens/ProductCatalog.tsx:61-65 | "All" first, then each product category exactly once |
| MockStore.Merge | services/DataService.ts:230-241 | the given fields overwrite, `updatedAt` becomes now, remaining and status are not recomputed |
| MockStore.MergeLeavesBalanceStale | services/DataService.ts:230-241 | an update of the paid amount leaves the old remaining amount and status |
| MockStore.DataService.AuthenticateUser | services/DataService.ts:154-158 | the first user with that email and type, or none |
| MockStore.PasswordIgnored | services/DataService.ts:154-158 | the password does not affect authentication |
| MockStore.DataService.CheckEmailExists | services/DataService.ts:184-187 | true iff some user has that email |
| MockStore.DataService.RegisterUser | services/DataService.ts:161-181 | an existing email is refused and nothing changes; otherwise one user with id = old count + 1 is appended; sequential ids and unique emails are kept |
| MockStore.DataService.GetProducts | services/DataService.ts:190-195 | every product, or exactly that shopkeeper's |
| MockStore.DataService.GetProductsByCategory | services/DataService.ts:197-199 | exactly the products of that category |
| MockStore.DataService.SearchProducts | services/DataService.ts:201-208 | exactly the products whose lower-cased name, description or category contains the lower-cased query |
| MockStore.EmptySearchKeepsAll | services/DataService.ts:201-208 | the empty query keeps every product |
| MockStore.DataService.GetCategories | services/DataService.ts:282-285 | every product category exactly once |
| MockStore.DataService.GetCreditRecords | services/DataService.ts:211-217 | a customer's own records, otherwise the shopkeeper's |
| MockStore.DataService.CreateCreditRecord | services/DataService.ts:219-228 | one record appended with id, created and updated time now |
| MockStore.DataService.UpdateCreditRecord | services/DataService.ts:230-241 | none and no change for an unknown id; otherwise exactly that record is replaced by the merge |
| MockStore.DataService.GetOverdueCreditRecords | services/DataService.ts:272-279 | exactly the pending records past due with something remaining |
| MockStore.OverdueDisagreement | services/DataService.ts:272-279 | a past-due record is listed iff its status is pending, so one already marked overdue is not |
| MockStore.DataService.GetOrders | services/DataService.ts:244-250 | a customer's own orders, otherwise the shopkeeper's |
| MockStore.DataService.CreateOrder | services/DataService.ts:252-260 | one order appended with id and order date now |
| MockStore.DataService.UpdateOrderStatus | services/DataService.ts:262-269 | none for an unknown id; otherwise only that order's status changes |
| LedgerViews.FilteredRecords | Screens/CreditRecords.tsx:75-78 | all records for `all`, else exactly those with that status |
| LedgerViews.TotalStats | Screens/CreditRecords.tsx:119-124 | the count never exceeds the list and equals it for `all` |
| LedgerViews.StatsPartition | Screens/CreditRecords.tsx:119-124 | the `all` figures are the sums of the pending, overdue and paid figures |
| LedgerViews.StatsBalance | Screens/CreditRecords.tsx:119-124 | for reconciled records outstanding + paid equals the sum of totals, for every filter |
| LedgerViews.SumsBalance | Screens/CreditRecords.tsx:121-122 | for reconciled records the outstanding and paid sums add up to the sum of totals |
| LedgerViews.SumByStatus | Screens/CreditRecords.tsx:75-78 | any sum, and the count, over all records is the sum over the pending, overdue and paid records |
| LedgerViews.HandlePayment | Screens/CreditRecords.tsx:80-98 | no record or empty input is refused; a number ≤ 0 or above remaining is refused; otherwise a cash payment "Payment via app" is sent, and NaN is let through |
| LedgerViews.NaNPassesGuard | Screens/CreditRecords.tsx:86-91 | text that parses to NaN is submitted |
| LedgerViews.HandlePaymentChecked | Screens/CreditRecords.tsx:80-98 | as above, and accepted iff the amount is a number in (0, remaining] |
| LedgerViews.CheckedAgreesOnNumbers | Screens/CreditRecords.tsx:86-91 | the corrected guard agrees with the written one on every number |
| LedgerViews.CheckedPaymentAccepted | Screens/CreditRecords.tsx:94-98 | a payment the corrected guard passes is accepted by the backend for the record's owner as a cash payment |
| LedgerViews.AppPaymentAccepted | backend/credits/views.py:91-119 | the body the payment screen sends, cash with its fixed note, is accepted from the record's owner for any positive amount within a balance that fits |
| LedgerViews.ButtonsExclusive | Screens/CreditRecords.tsx:218-239 | no record offers both buttons, a paid record neither; the reminder button iff shopkeeper and overdue |
| LedgerViews.CeilDiv | Screens/Reminders.tsx:87-99 | the ceiling of x / d |
| LedgerViews.DaysUntilWithinWeek | Screens/Reminders.tsx:94-99 | something due within the week is due in 1 to 7 days |
| LedgerViews.DaysOverdueAtLeastOne | Screens/Reminders.tsx:87-92 | something past due is at least one day overdue |
| LedgerViews.LoadReminders | Screens/Reminders.tsx:34-73 | overdue: the shopkeeper's shop's or the user's own as customer; due soon: pending and due in the coming week |
| LedgerViews.ReminderLists | Screens/Reminders.tsx:34-73 | fed from the data service, overdue records are the user's, still pending with something remaining and ≥ 1 day overdue; due-soon ones 1–7 days away; no record on both |
| LedgerViews.ReminderMessageMentions | Screens/Reminders.tsx:101-102 | the reminder text names the customer, the amount and the due date |
| LedgerViews.SendBulkReminders | Screens/Reminders.tsx:111-134 | nothing overdue gives the notice; a declined prompt sends nothing; a confirmed one logs one notice per overdue record and reports the count |
| LedgerViews.TotalOverdueCounts | Screens/Reminders.tsx:164 | with positive amounts the total overdue is at least one paise per record and positive iff the list is non-empty |
| RegisterForm.Utf16Length | Screens/RegisterScreen.tsx:49 | JavaScript length: between the character count and twice it, equal to it without astral characters |
| RegisterForm.FormError | Screens/RegisterScreen.tsx:32-66 | the first failing check's message in the fixed order name, email, email shape, phone, phone length, password, password length, confirmation |
| RegisterForm.FormAcceptedIff | Screens/RegisterScreen.tsx:32-66 | the form is accepted iff every check passes |
| RegisterForm.FormLaterChecks | Screens/RegisterScreen.tsx:45-64 | the phone, password and confirmation checks report in order, each only after the earlier ones pass |
| RegisterForm.FirstFailureOnly | Screens/RegisterScreen.tsx:33-36 | a blank name hides every other mistake |
| RegisterForm.RefusalMessages | Screens/RegisterScreen.tsx:32-66 | a refused form shows one of the eight messages |
| RegisterForm.BlankPhoneRefusedFirst | Screens/RegisterScreen.tsx:45-52 | a ten-space phone is refused as missing, not as short |
| RegisterForm.AcceptedEmailShape | Screens/RegisterScreen.tsx:41-44 | an accepted email has at least two characters |
| RegisterForm.HandleRegister | Screens/RegisterScreen.tsx:68-101 | an invalid form or a known email shows its error and stores nothing; otherwise one user is registered and greeted by name |
| RegisterForm.WelcomeNamesUser | Screens/RegisterScreen.tsx:85-87 | the welcome text contains the new user's name |
| ErrorFormat.FormatApiError | services/ApiService.ts:344-388 | the loop computes exactly the API formatter's message |
| ErrorFormat.FormatAuthError | services/AuthService.ts:278-302 | the loop computes exactly the authentication formatter's message |
| ErrorFormat.CollectFieldLines | services/ApiService.ts:358-367 | one `key: value` line per entry, in key order |
| ErrorFormat.FieldLine | services/ApiService.ts:359-366 | every field line starts with the key and ": " |
| ErrorFormat.StringBodyVerbatim | services/ApiService.ts:345-347 | a string body is the message, in both formatters |
| ErrorFormat.DetailBeforeError | services/ApiService.ts:349-355 | a truthy `detail` wins over `error` and the fields; a truthy `error` wins over the fields |
| ErrorFormat.FieldErrorsListed | services/ApiService.ts:357-371 | otherwise each member gives a line starting with its key and the message holds every line |
| ErrorFormat.EmptyBodyFallback | services/ApiService.ts:369-387 | with no entries the API formatter falls back to the status message, the other to "An error occurred" |
| ErrorFormat.StatusMessages | services/ApiService.ts:373-387 | the fallback texts for 400, 401, 403, 404, 500 and every other status |
| ErrorFormat.FormattersAgree | services/AuthService.ts:292-301 | without object or null field values the two formatters give the same message |
| ErrorFormat.NestedObjectDiffers | services/AuthService.ts:292-299 | a nested object shows as JSON in one formatter and "[object Object]" in the other |
| ErrorFormat.ErrorBody | services/ApiService.ts:357-367 | a rejected body is a JSON object with one member per failing field, in order |
| ErrorFormat.RejectedBodyMessage | services/ApiService.ts:357-371 | a rejected body of message lists shows as one "field: message, message" line per failing field, in field order, in both clients |
| ErrorFormat.BuildProductsEndpoint | services/ApiService.ts:140-147 | the builder produces exactly the specified endpoint |
| ErrorFormat.QueryPairsSpec | services/ApiService.ts:140-147 | the sent names are exactly the present filters in the order category, shopkeeper, search, ordering, each with its value; no '?' iff nothing is sent |

## Left out

- The backend's persistence, authentication, URL routing, pagination,
  `SearchFilter` and `OrderingFilter` on the product list, and the
  `created_at` ordering of querysets: lists keep table order.
- Network and storage I/O: `fetch`, the token refresh and retry, and the
  AsyncStorage token handling. The client screens' state setters, alerts
  other than the ones modelled, navigation and rendering.
- The credit record screen's `sendReminder` alert, a fixed text with no
  state change.
- Floating-point money on the client (`parseFloat`, `toFixed`): amounts
  are exact paise. `parseFloat` is a parameter that yields a number or
  NaN.
- `Date`, `timezone.now()` and `toLocaleDateString`: they are parameters.
  The two clock reads of `loadReminders` are one `now`.
- The data service's seed data: its arrays are constructor arguments.
  `Date.now()` ids that could collide within one millisecond are a
  parameter.
- Keys set to `undefined` in a partial update: an update field is either
  given or absent.
- ErrorFormat.Text: a non-string `detail` or `error` is returned as-is by
  the source and only turned into text later; the model gives its text
  directly.
- JSON numbers other than integers, and objects that repeat a key. A
  parsed object never repeats a key.
- Cart.AddProductToOrder: the source's shallow copy shares line objects
  with the previous state, so the old list sees the raised quantity too.
  The model returns a new list and does not capture that aliasing.
- Common.Lower: only the ASCII letters are lower-cased. JavaScript's
  `toLowerCase` also folds other alphabets.
- RegisterForm.HandleRegister: the "Registration Failed" alert cannot be
  reached. The form check and the email lookup come first, so the data
  service never refuses the email.
- The bulk reminders of the backend are created with ids from a
  parameter; database id allocation is not modelled.
- Orders.OrderBook.Create: an order whose total or line amounts reach
  10^10 paise fails when its reply is rendered, and the model answers 500
  with nothing stored. Whether the order and some of its lines were
  written before the failure depends on the Django version and the
  database (PostgreSQL refuses such a value on insert, SQLite stores it),
  and is not modelled.
- Orders.OrderBook.Confirm, Orders.OrderBook.Cancel: an order that
  cannot be rendered exists only where the database stored it, so the
  model takes the status save to succeed before the 500.
- Absent optional fields and their defaults (category "other", stock 0,
  notes and description empty, the product image) are not modelled: a
  request gives every field. Values of the wrong JSON type and numbers
  with more than two decimals are not modelled either.
- FieldChecks.CheckMoney: amounts are taken as written in their
  shortest form, as `JSON.stringify` writes them. Trailing zeros written
  by another client would count as digits.
- FieldChecks.CheckText: the framework's refusal of null characters and
  lone surrogates is not modelled.
- Products.ValidateProduct: the database's integer range on stock is not
  modelled.
- The error page of an unhandled exception: the model gives only its
  status code.
- MockStore.DataService.UpdateOrderStatus: the source changes the stored
  order object in place, so every earlier reference to it sees the new
  status. The model replaces the element of the list and does not capture
  that aliasing.
- MockStore.DataService.GetProducts: without a shopkeeper the source
  returns its own array, so a caller that changes it changes the store.
  The model returns a value.

## Findings

| source | as written | input that shows it | evidently intended | confidence | as-written member | corrected member |
|---|---|---|---|---|---|---|
| Screens/CreditRecords.tsx:86-91 | the amount guard only rejects `amount <= 0` or `amount > remaining`, both false for NaN | amount text "abc" on any selected record: `parseFloat` gives NaN, the guard passes and NaN is submitted as the amount | refuse any amount that is not a number in (0, remaining] | not executed | LedgerViews.NaNPassesGuard | LedgerViews.HandlePaymentChecked |
