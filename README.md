# Payme merchant API of the Texnokross shop server, in Dafny

The shop server (`server/index.js`) takes card payments through the Payme provider.
The provider calls the server's merchant endpoint with JSON-RPC 2.0 requests
(section 5 of the JSON-RPC 2.0 specification). Each request carries HTTP Basic
credentials (section 2 of RFC 7617). The server keeps two collections:

- **orders**, created at checkout;
- **transactions**, each keyed by the provider's transaction id (`payme_id`).

Six methods drive a transaction's state:

| method | what it does |
|---|---|
| CheckPerformTransaction | read-only: the order can be paid |
| CreateTransaction | creates a transaction in state 1 |
| PerformTransaction | 1 → 2 |
| CancelTransaction | 1 → -1, 2 → -2 |
| CheckTransaction | read-only |
| GetStatement | read-only |

Every error carries a code and a trilingual message from one fixed table. The
server also builds the checkout link that sends a buyer to the provider. The
parameter string `m=…;ac.order_id=…;a=…[;c=…]` is UTF-8 encoded, Base64 encoded
(section 4 of RFC 4648) and appended to the checkout host. A second endpoint
upserts products from the IMPROSOFT point-of-sale system by barcode and reprices
the matching catalog products.

The model has these modules:

- `Common`: `Option`, `Result`, bytes, and JavaScript truthiness (`x || 0`).
- `PaymeErrors`: the error table and `createPaymeError`.
- `Orders`: the order record, what checkout stores, and lookup by id.
- `MerchantSpec`: each RPC method as a pure function from the stored state to a
  reply, the new state, and the operator notification it sends.
- `MerchantInvariants`: the global invariant of the store, and the proof that every
  method keeps it.
- `MerchantLemmas`: each method's cases, replay idempotence, and the provider's
  usual call sequences.
- `Rpc`: Basic authentication, JavaScript `split`, and the dispatcher.
- `MerchantApi`: the class `PaymentStore`. It holds `orders` and `transactions` as
  fields, and its handlers update them in place, by index and by push. Each
  handler is proved equal to its `MerchantSpec` function and to keep the invariant.
- `Base64` and `Utf8`: encoders and decoders, with round-trip lemmas. The UTF-8 decoder rejects malformed continuation octets, overlong forms, surrogates and values past U+10FFFF.
- `PaymentLink`: the link builder, and the proof that its token decodes back to
  the parameter string.
- `ImprosoftSync`: the class `ImprosoftStore`, whose sync runs the upsert loop and
  the price loop. Both loops are proved against recursive specification functions,
  with lemmas about the counters, the values written, barcode uniqueness,
  re-sending a batch, and which catalog prices change. A barcode field is missing,
  `null` or a string, and the price loop's strict equality tells the three apart.

The invariant `MerchantInvariants.Valid` requires five things:

- every state is one of 1, 2, -1, -2, and the timestamps match the state;
- `payme_id` is unique;
- an order has at most one active (state 1 or 2) transaction;
- every transaction's order exists and was charged `total * 100` tiyin;
- an active transaction is the one its order points to, and the order's payment
  status follows the transaction state.

Behaviours of the code as written, kept in the model:

- The password is the second `:`-separated piece of the decoded credentials. A
  secret containing `:` therefore can never be presented
  (`Rpc.ColonInSecretNeverAuthorized`).
- With no secret configured, `Paycom:` is accepted (`Rpc.EmptySecretAcceptsBareLogin`).
- An authentication failure is answered with a bare `{error}` object, without
  `jsonrpc` or `id`.
- A missing `params` object makes the handler throw. The catch block answers -32400.
- CreateTransaction reports a second active transaction for the same order with
  code -31050 ("order not found" in the table).
- CheckPerformTransaction compares the amount with `order.total * 100`. Nothing
  checks `total` against the sum of the items.
- In the IMPROSOFT price loop, an item whose barcode key is missing matches the first
  catalog product whose barcode key is missing too. The raw upsert skips that item,
  but the price loop still reprices that product
  (`ImprosoftSync.BarcodelessItemRepricesBarcodelessProduct`). A `null` barcode is not
  strictly equal to a missing one, so it does not match such a product
  (`ImprosoftSync.NullBarcodeSkipsMissingBarcode`); it matches a product whose
  barcode is `null`.

## Model

| member | source | states |
|---|---|---|
| PaymeErrors.TableMessage | server/index.js:682-692 | exactly the nine listed codes have a fixed trilingual message |
| PaymeErrors.CreatePaymeError | server/index.js:681-701 | code and data are passed through; a listed code gets its table message whatever text is given, any other code gets the given text in all three languages |
| PaymeErrors.SystemFault | server/index.js:666-676 | a fault is code -32400 with the fixed "system error" message, which is not in the table |
| Orders.NewOrder | server/index.js:288-301 | a new order keeps the given id, customer, items and total; both statuses are pending; nothing is linked, paid or cancelled; it is payable exactly until `now + 12 h` |
| Orders.FindOrder | server/index.js:713 | the result is the first order with the id, and none means no order has it |
| Orders.FindOrderSameIds | server/index.js:845-856 | updating orders in place without touching ids never changes which order a lookup finds |
| Orders.FindOrderPrepend | server/index.js:303 | after `unshift` the new order is found first and every other lookup shifts by one |
| MerchantSpec.FindTx | server/index.js:819 | the result is the first transaction with the provider id, and none means no transaction has it |
| MerchantSpec.CheckPerform | server/index.js:704-736 | allow exactly when the order is named and stored, the amount equals total × 100, it is not expired and not paid; otherwise the first failing check's code (-31050, -31051, -31052, -31053) with its table message |
| MerchantSpec.Create | server/index.js:739-811 | no notification; a failure leaves the state unchanged and carries a table message |
| MerchantSpec.Perform | server/index.js:815-884 | a failure leaves the state unchanged and sends nothing; the number of orders and transactions never changes |
| MerchantSpec.Cancel | server/index.js:887-970 | a failure leaves the state unchanged and sends nothing; the number of orders and transactions never changes |
| MerchantSpec.ReasonText | server/index.js:938-945 | the operator text is "Не указана" exactly when the reason is not one of the codes 1 to 5 |
| MerchantLemmas.ReasonTextsDistinct | server/index.js:938-944 | the five reason codes have five different texts |
| MerchantSpec.ReportedReason | server/index.js:990 | `reason \|\| null`: reported exactly when present and non-zero, and then unchanged |
| MerchantSpec.CheckTx | server/index.js:973-993 | not found exactly when no transaction has the id; otherwise a snapshot of the first stored transaction with the id, with absent times as 0 and a missing reason as null |
| MerchantSpec.InPeriodTxs | server/index.js:1001-1004 | a transaction is kept exactly when it is stored and `from <= create_time <= to` |
| MerchantSpec.InPeriodTxsAppend | server/index.js:1001-1004 | the period filter distributes over concatenation, so it keeps stored order |
| MerchantSpec.Statement | server/index.js:996-1020 | always a result; an entry is listed exactly when it is the provider view of a stored transaction in the period |
| MerchantInvariants.AtMostOneCreatedPerOrder | server/index.js:770-778 | in a valid store no two state-1 transactions share an order |
| MerchantInvariants.EmptyValid | server/index.js:749 | the empty store is valid |
| MerchantInvariants.PlaceOrderKeepsValid | server/index.js:288-304 | prepending a pending order with a fresh id keeps the store valid |
| MerchantInvariants.LinkedAfterOrderUpdate | server/index.js:796-800 | updating another order in place keeps a transaction's link to its order |
| MerchantInvariants.CreateKeepsValid | server/index.js:739-811 | CreateTransaction keeps states, uniqueness of `payme_id`, one active transaction per order, and the order links |
| MerchantInvariants.PerformKeepsValid | server/index.js:815-884 | PerformTransaction keeps the invariant |
| MerchantInvariants.CancelKeepsValid | server/index.js:887-970 | CancelTransaction keeps the invariant |
| MerchantLemmas.CreateCheckFirst | server/index.js:743-747 | when the check fails, CreateTransaction returns its error verbatim and changes nothing |
| MerchantLemmas.CreateKnownId | server/index.js:750-767 | a known `payme_id` appends nothing: the stored `{create_time, transaction, state}` when in state 1, else -31099 |
| MerchantLemmas.CreateFreshId | server/index.js:770-811 | a fresh `payme_id` either fails with -31050 and changes nothing when the order has another state-1 transaction, or appends exactly one state-1 record with `create_time = time` and the checked amount, and marks only that order processing and linked |
| MerchantLemmas.CreateWrongAmount | server/index.js:720-723 | a wrong amount is refused with -31051 and nothing is stored |
| MerchantLemmas.CreateExpired | server/index.js:725-728 | an expired order is refused with -31052 and nothing is stored |
| MerchantLemmas.RecheckAfterCreate | server/index.js:795-801 | after CreateTransaction marks the order as processing, the order check still passes unless the order has expired |
| MerchantLemmas.ExpiryIsFinal | server/index.js:725-728 | the expiry test is strict, so `expire_at` is the last payable instant: once the order check answers -31052, every later check answers the same |
| MerchantLemmas.OtherCreatedMeansProcessing | server/index.js:771-779 | in a valid store, another state-1 transaction for the order means the order is marked processing and points to that transaction |
| MerchantLemmas.CreateReplay | server/index.js:754-763 | repeating a successful CreateTransaction returns the same result and changes nothing, unless the order has expired meanwhile |
| MerchantLemmas.PerformRefused | server/index.js:818-841 | an unknown id, or a state other than 1 and 2, gives -31099 and changes nothing |
| MerchantLemmas.PerformOnPerformed | server/index.js:828-836 | a performed transaction returns its stored `perform_time` and changes nothing |
| MerchantLemmas.PerformOnCreated | server/index.js:843-884 | in a valid store state 1 becomes 2 with `perform_time = now`; only that record changes; its order becomes paid; the operator is told |
| MerchantLemmas.PerformReplay | server/index.js:828-836 | repeating a successful PerformTransaction returns the same result and changes nothing |
| MerchantLemmas.CancelUnknown | server/index.js:890-895 | an unknown id gives -31099 and changes nothing |
| MerchantLemmas.CancelOnCancelled | server/index.js:900-908 | a cancelled transaction returns its stored `cancel_time` and state and changes nothing |
| MerchantLemmas.CancelOnActive | server/index.js:910-969 | in a valid store 1 becomes -1 and 2 becomes -2 with `cancel_time = now` and the reason recorded; only that record changes; its order becomes cancelled; the operator is told the reason text |
| MerchantLemmas.CancelNeverRefusedWhenValid | server/index.js:916-918 | in a valid store -31060 never occurs; the only failure is an unknown id |
| MerchantLemmas.CancelReplay | server/index.js:900-908 | repeating a successful CancelTransaction returns the same result and changes nothing |
| MerchantLemmas.PerformAfterCancel | server/index.js:839-841 | after a cancellation PerformTransaction is refused with -31099 |
| MerchantLemmas.CreateStoresLast | server/index.js:780-811 | a fresh CreateTransaction on a payable order succeeds, stores a state-1 record last where a lookup by provider id finds it, and leaves the order lookup in place |
| MerchantLemmas.PerformKeepsPlace | server/index.js:843-856 | performing a created transaction succeeds, keeps the store valid, and leaves it, now in state 2, where a lookup finds it; its order becomes paid |
| MerchantLemmas.PaymentLifecycle | server/index.js:739-970 | create, perform, cancel on a payable order yields states 1, 2, -2 and order statuses processing, paid, cancelled |
| MerchantLemmas.SecondCreateConflicts | server/index.js:770-778 | once an order has a state-1 transaction, a second provider id for it is refused and nothing is stored: with -31050 "Another transaction in progress" when the order check passes, and with the order check's own error otherwise |
| MerchantLemmas.DispatchKeepsValid | server/index.js:610-677 | any request, authorised or not, leaves a valid store valid |
| MerchantLemmas.StatementAppend | server/index.js:1001-1017 | GetStatement lists transactions in stored order |
| MerchantLemmas.EntriesAppend | server/index.js:1006-1017 | mapping transactions to statement entries distributes over concatenation |
| Rpc.Split | server/index.js:622 | at least one piece, no piece holds the separator, and several pieces exactly when the text holds it |
| Rpc.JoinSplit | server/index.js:622 | joining the pieces of a split restores the text |
| Rpc.SplitWithoutSep | server/index.js:620 | text without the separator splits into itself |
| Rpc.SplitAtFirst | server/index.js:622 | splitting `a + sep + b`, with no separator in `a`, gives `a` then the pieces of `b` |
| Rpc.SplitJoin | server/index.js:622 | splitting a join of separator-free pieces gives the pieces back |
| Rpc.Credentials | server/index.js:620-622 | neither the login nor the password ever contains `:` |
| Rpc.AuthorizedExactly | server/index.js:613-628 | a header `Basic <token>` is accepted exactly when the active secret has no `:` and the decoded token is `Paycom:<secret>`, optionally followed by `:` and anything |
| Rpc.InactiveKeyIgnored | server/index.js:625 | only the key of the current mode is compared: in test mode the production key is never read, and the reverse |
| Rpc.AcceptsProviderCredentials | server/index.js:613-629 | a `Basic` header whose token decodes to `Paycom:<active secret>` is accepted when the secret has no `:` |
| Rpc.ColonInSecretNeverAuthorized | server/index.js:622-628 | when the active secret contains `:`, no header is accepted |
| Rpc.EmptySecretAcceptsBareLogin | server/index.js:622-628 | with an empty active secret, `Paycom:` is accepted |
| Rpc.Dispatch | server/index.js:610-677 | unauthorised: bare -32504 before any handler and nothing changes; otherwise the reply echoes the request id; an unknown method gives -32601; missing params give -32400; each of the six methods is answered by its own handler, whose reply, new state and notification are passed on; only Create, Perform and Cancel change the store |
| MerchantApi.PaymentStore.constructor | server/index.js:89-100 | both collections start empty and the store is valid |
| MerchantApi.PaymentStore.PlaceOrder | server/index.js:288-304 | the new order goes to the front; transactions are unchanged; the operator is told; validity is kept for a fresh id |
| MerchantApi.PaymentStore.CreateTransaction | server/index.js:739-811 | the in-place update yields exactly the reply, state and notification of `MerchantSpec.Create`, and keeps the store valid |
| MerchantApi.PaymentStore.PerformTransaction | server/index.js:815-884 | the in-place update yields exactly the reply, state and notification of `MerchantSpec.Perform`, and keeps the store valid |
| MerchantApi.PaymentStore.CancelTransaction | server/index.js:887-970 | the in-place update yields exactly the reply, state and notification of `MerchantSpec.Cancel`, and keeps the store valid |
| MerchantApi.PaymentStore.HandleRequest | server/index.js:610-677 | the endpoint answers and updates the store exactly as `Rpc.Dispatch` says, and keeps the store valid |
| Base64.IndexChar | server/index.js:585 | each of the 64 alphabet positions maps to a character that maps back to it |
| Base64.Encode | server/index.js:585 | every output character is from the alphabet or `=` |
| Base64.EncodeLength | server/index.js:585 | the output has four characters per started group of three octets |
| Base64.DecodeEncode | server/index.js:585 | decoding the encoding of any byte string gives it back |
| Utf8.EncodeChar | server/index.js:585 | a character takes one to four bytes, one byte exactly for ASCII, and that byte is its code |
| Utf8.Encode | server/index.js:585 | the encoding is never shorter than the text |
| Utf8.EncodeAppend | server/index.js:585 | encoding distributes over concatenation |
| Utf8.DecodeFirstEncodeChar | server/index.js:585 | the first character decoded from an encoded character followed by anything is that character |
| Utf8.DecodeEncode | server/index.js:585 | decoding the encoding of any text gives it back |
| PaymentLink.CreatePayment | server/index.js:560-604 | 400 exactly when `order_id` or `amount` is missing or falsy; 500 exactly when that passes and no merchant id is set; otherwise the amount in tiyin is `amount * 100` and the URL is the mode's checkout host, `/`, and the token of the parameter string |
| PaymentLink.LinkTokenRoundTrip | server/index.js:577-588 | the URL starts with the checkout host and `/`, and the rest decodes (Base64, then UTF-8) to exactly the parameter string |
| PaymentLink.ParamFieldsRecoverable | server/index.js:577-583 | when no value contains `;`, splitting the parameter string at `;` gives back `m=`, `ac.order_id=`, `a=` and, only when a return URL is given, `c=` |
| PaymentLink.CheckoutBase | server/index.js:41-43 | the test host exactly in test mode, the production host otherwise |
| PaymentLink.ParamStringIsJoin | server/index.js:577-583 | the parameter string is the `;`-join of `m=`, `ac.order_id=`, `a=` and, only when a return URL is given, `c=` |
| PaymentLink.Digits | server/index.js:577 | a natural number prints as decimal digits without a leading zero that read back as the number |
| PaymentLink.IntToString | server/index.js:577 | an integer below 1e21 in magnitude prints as an optional `-` and decimal digits that read back as the number; the `-` appears exactly for a negative one |
| PaymentLink.LinkAmountRecoverable | server/index.js:574-577 | the third field of a created link is `a=` and the printed amount in tiyin, which reads back as `amount * 100` |
| ImprosoftSync.FindBarcode | server/index.js:428 | the result is the first raw record with the barcode, and none means no record has it |
| ImprosoftSync.Upsert | server/index.js:425-445 | an unusable item changes nothing; a usable one with a known barcode adds one to `updated` and keeps the length, one with a new barcode adds one to `added` and grows the list by one; the barcode set gains exactly the item's barcode; unique barcodes stay unique |
| ImprosoftSync.UpsertRecord | server/index.js:428-444 | after one upsert, the first record with the item's barcode is the updated one (or the appended one when there was none); it holds the item's name and its non-zero price, else the old price (0 on append); an update sets `updated_at` and keeps `created_at`, an append sets `created_at`; every other record is unchanged |
| ImprosoftSync.SyncRaw | server/index.js:424-445 | `added + updated` is the number of items with a name and barcode, and the list grows by `added` |
| ImprosoftSync.SyncRawBarcodes | server/index.js:424-445 | afterwards the barcodes are exactly the old ones plus those of the usable items |
| ImprosoftSync.SyncRawKeepsUnique | server/index.js:428-444 | unique barcodes stay unique |
| ImprosoftSync.KnownBarcodesAddNothing | server/index.js:428-434 | when every usable barcode is known, nothing is appended |
| ImprosoftSync.ResyncAddsNothing | server/index.js:424-445 | sending the same batch again appends nothing and updates one record per usable item |
| ImprosoftSync.FindCatalog | server/index.js:453 | the result is the first catalog product whose barcode is strictly equal to the item's (missing equals missing and `null` equals `null`, never each other), and none means no product matches |
| ImprosoftSync.Reprice | server/index.js:452-457 | only prices change; with a non-zero price the first matching product takes the item's price and the counter grows by one; every other product is unchanged; a zero or missing price changes nothing |
| ImprosoftSync.SyncCatalog | server/index.js:452-458 | only prices change, and the counter is at most the number of items |
| ImprosoftSync.SyncCatalogCount | server/index.js:452-458 | `catalogUpdated` is the number of items with a non-zero price and a barcode found in the catalog |
| ImprosoftSync.UntouchedProductKeepsPrice | server/index.js:452-457 | a product whose barcode no item carries keeps its record |
| ImprosoftSync.BarcodelessItemRepricesBarcodelessProduct | server/index.js:426-455 | an item whose barcode key is missing is skipped by the upsert but reprices a catalog product whose barcode key is missing |
| ImprosoftSync.NullBarcodeSkipsMissingBarcode | server/index.js:453-456 | an item with a `null` barcode does not match a product whose barcode key is missing, which keeps its price |
| ImprosoftSync.ImprosoftStore.constructor | server/index.js:419 | the store holds the given raw list and catalog |
| ImprosoftSync.ImprosoftStore.Sync | server/index.js:411-478 | a missing batch gives 400 and changes nothing; otherwise the raw list and catalog become those of the two loops, and the summary reports their counters and the new list length |
| ImprosoftSync.UpsertItem | server/index.js:425-444 | one pass of the loop body updates the first record with the barcode or appends one, exactly as one `Upsert` step |
| ImprosoftSync.UpsertRaw | server/index.js:424-445 | the loop yields exactly `SyncRaw`'s list and counters |
| ImprosoftSync.RepriceItem | server/index.js:453-457 | one pass of the loop body reprices the first matching product, exactly as one `Reprice` step |
| ImprosoftSync.RepriceCatalog | server/index.js:452-458 | the loop yields exactly `SyncCatalog`'s catalog and counter |

## Left out

- HTTP plumbing is not modelled: Express routing, `cors`, status codes other than the stated ones, and `res.json`/`res.redirect`. Replies are datatypes.
- File persistence (`readJSON`/`writeJSON`) is not modelled. The collections are in-memory sequences, and a missing file reads as empty.
- The read-modify-write race between concurrent calls is not modelled. It is a concurrency concern, and each call runs atomically in the model.
- Telegram delivery and message formatting are not modelled: `toLocaleString`, time zones and HTML. A notification is a `Notice` value, a ghost log in the class. The throw when an order has no `customer` happens after the state is written and is not modelled.
- Clocks are integer parameters: `Date.now()` and the ISO timestamp strings become `now`. `performed_at`, `paid_at` and `cancelled_at` carry the same instant as `perform_time`/`cancel_time`. `created_at` is `now`.
- Generated ids are parameters, not values built from the clock: the transaction's `tx_<now>` is `txId`. `MerchantApi.PaymentStore.PlaceOrder` keeps the store valid only for an id not already stored, because `order_<now>` can collide. The random IMPROSOFT record id is not modelled.
- PaymentLink.CreatePayment: amounts are exact integers, and `Math.round(amount * 100)` is their product with 100. JavaScript numbers are doubles, so this matches the source only while |amount × 100| ≤ 2^53. Fractional and non-numeric amounts (floating point) are not modelled.
- PaymentLink.IntToString: prints every integer as plain digits. A template literal does so only below 1e21 in magnitude, and prints larger numbers in exponent form (`1e+21`), so the `a=` field matches the source only below that bound.
- MerchantSpec.CheckPerform: compares `amount` with `total * 100` on exact integers. The source's double product is exact only while |total × 100| ≤ 2^53, so above that bound the amount check may answer differently.
- Rpc.Dispatch: Base64 and UTF-8 decoding of the `Authorization` header is the parameter `decode`. Node's decoder is lenient: it skips invalid characters and replaces malformed sequences. The link builder uses the strict round trip in `Base64` and `Utf8`.
- Rpc.Dispatch: request fields are typed. A `params` object that is absent is modelled, but fields of the wrong JSON type are not. A transaction keyed by an absent `id` (where `undefined === undefined`) is not modelled either.
- Utf8: Dafny characters are Unicode scalar values. Lone UTF-16 surrogates in JavaScript strings are not modelled.
- The product, category, banner, city and settings CRUD endpoints are not modelled. Neither are the IMPROSOFT status and product-creation endpoints, or `PUT /api/orders/:id`, which can overwrite order fields outside the state machine and so is outside the invariant. These are generic merges over untyped JSON.
- The React client files are not modelled: the cart, pages, contexts, hooks and Excel import. Neither is the process-manager config. They are UI and library glue.
- ImprosoftSync.ImprosoftStore.Sync: items are records. An item that is `null` makes the loop throw (HTTP 500), and that case is not modelled. The catalog is written back only when a price changed, which is the same stored value.
