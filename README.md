# Odoo ↔ Magento synchronization bridge, modelled in Dafny

The bridge pushes catalogue data from an Odoo ERP to a Magento storefront and
pulls new storefront orders into the ERP as sale orders. This project models
its three core pieces:

- the **synchronizers** (`app/middleware/sync.py`). `sync_product` runs a
  fixed sequence: ERP lookup, shop lookup, stock update, price update, and an
  optional special-price update. It then combines the results. `sync_order`
  maps a shop order to customer data and order lines. The batch loops
  `sync_all_products` and `sync_new_orders` keep the success and failure
  tallies;
- the **Magento client** (`app/magento/client.py`). It caches a bearer token
  with an expiry and never sends an API request without a token. It also
  builds the request payloads and query parameters, and concatenates the
  pending and processing order searches;
- the **Odoo client** (`app/odoo/client.py`). It keeps the connection flag
  and reconnects lazily. It maps product records and truncates listings by a
  limit. It assembles a sale order: reuse or create the partner, resolve the
  lines by SKU, and create the order only when at least one line resolved.

Files: `wrappers.dfy` (Option), `text.dfy` (the Python string operations
used: `strip`, `rstrip('/')`, `upper`, `str(int)`, substring test),
`json.dfy` (decoded JSON values with Python truthiness, `dict.get` and
`str()`), `seqs.dfy` (order-keeping selection and subsequences),
`magento.dfy`, `odoo.dfy`, `sync.dfy`.

How the model is built:

- The network is an oracle. The Magento transport is
  `server(n, request)`, which answers the n-th request the client sends. The
  ERP is a model `Database` (products, partners, countries, sale orders)
  plus `fault(n)`, which says whether the n-th remote call raises. Each
  client logs what it sent (`sent`, `rpcs`). It also keeps a ghost
  `history` of its public operations with their results. The
  synchronizers' contracts are stated over these histories. A batch
  returns ghost `bounds` that split the history it added into one stretch
  per item, so each item's success is tied to the calls that item made and
  to no other item's calls.
- Python's `None` and JSON `null` are both `Null`. A value that Python
  would reject with an exception is `None` in an `Option`. The broad
  `try/except` blocks map such failures to the same negative result as the
  source.
- The clock is a parameter. A single operation runs at one instant `now`.
  A batch takes `clock`: products use `clock(i)` for item `i`; orders use
  `clock(0)` for the order search and `clock(i + 1)` for order `i`.
- The stateful parts are classes with `modifies` clauses. These are the
  token cache, the connection flag, the database, the logs, and the loops
  that fill `results`, `products`, `sale_order_lines` and `order_lines`.
  Each such method is proved against a function of the old state (for
  example `Authenticate`, `Request`, `ResolveLines`, `TallyProducts`,
  `OrderLines`).

The country lookup upper-cases its argument and then searches for an exact
match, so a country stored with a lower-case code is never found.

## Model

| member | source | states |
|---|---|---|
| Text.RStrip | app/magento/client.py:22 | the result is a prefix of the input, only `/` characters were removed, and the result does not end in `/` |
| Text.TrimStart | app/middleware/sync.py:187 | leading whitespace (Python's `isspace` set) is removed, and only whitespace |
| Text.TrimEnd | app/middleware/sync.py:187 | trailing whitespace is removed, and only whitespace |
| Text.Strip | app/middleware/sync.py:187 | `strip()` returns a part of the string with only whitespace before and after it, and that part neither starts nor ends with whitespace |
| Text.StripUnique | app/middleware/sync.py:187 | any part padded only by whitespace that neither starts nor ends with whitespace is the `strip()` result, so the two properties above pin it down |
| Text.StripUntrimmed | app/middleware/sync.py:187 | `strip()` leaves a string unchanged when it neither starts nor ends with whitespace |
| Text.Upper | app/odoo/client.py:213 | `upper()` keeps the length and leaves no lower-case ASCII letter; each lower-case letter becomes its capital; every other character is kept; a code with no lower-case letter is unchanged |
| Seqs.Filter | app/odoo/client.py:74 | a search returns matching records only; it is empty exactly when nothing matches |
| Seqs.FilterSubsequence | app/odoo/client.py:74 | the records found keep their stored order (the result is a subsequence of the stored records) |
| Seqs.FilterComplete | app/odoo/client.py:74 | every stored record that matches is found |
| Seqs.FilterHead | app/odoo/client.py:79 | the first element of a non-empty search result is the earliest matching record |
| Seqs.FilterMapEmpty | app/odoo/client.py:180 | nothing is selected exactly when no element yields a value |
| Seqs.FilterMapSubsequence | app/middleware/sync.py:130 | a stricter selection is a subsequence of a looser one |
| Seqs.SubsequenceExtend | app/middleware/sync.py:130 | appending the same element to both sides keeps the subsequence relation |
| Magento.MagentoClient.constructor | app/magento/client.py:13-27 | `base_url` is the URL with every trailing `/` removed; no token, expiry 0, lifetime 3600 |
| Magento.MagentoClient.Authenticate | app/magento/client.py:29-60 | a truthy token that has not expired is returned with no request sent; otherwise exactly one token request is sent; a reply sets the token and `expiry = now + lifetime`; a failure sets the token to None and keeps the expiry |
| Magento.MagentoClient.TokenReused | app/magento/client.py:39-40 | a token fetched at `now` answers every call before `now + lifetime` without a new token request |
| Magento.MagentoClient.TokenRefreshed | app/magento/client.py:39-54 | a call at or after the expiry sends exactly one new token request |
| Magento.MagentoClient.GetToken | app/magento/client.py:29-60 | the method's new state and result are those of `Authenticate` |
| Magento.MagentoClient.Request | app/magento/client.py:62-103 | without a token nothing more is sent and the result is None; with one, exactly one request goes to `base_url + endpoint` with `Bearer <token>`; the result is None on failure, True for an empty body, and the decoded body otherwise |
| Magento.MagentoClient.MakeApiRequest | app/magento/client.py:62-103 | the method's new state and result are those of `Request` |
| Magento.MagentoClient.Send | app/magento/client.py:87-93 | the reply is the transport's answer to this request, which is appended to the log |
| Magento.Outcome | app/magento/client.py:94-101 | a refused request gives None; an empty body gives True; any other body gives the decoded JSON, so the result is None only for a refusal or a body that decodes to `null` |
| Magento.PricePayload | app/magento/client.py:151-155 | the payload is `{"product": {"price": price}}` with no other key at either level |
| Magento.MagentoClient.GetProductBySku | app/magento/client.py:105-116 | one gated GET to `/rest/V1/products/<sku>`; the result is the request's result |
| Magento.StockPayload | app/magento/client.py:130-135 | `stockItem` has exactly the keys `qty` and `is_in_stock`; `qty` is the quantity and `is_in_stock` is `quantity > 0` |
| Magento.MagentoClient.UpdateProductStock | app/magento/client.py:118-137 | one gated PUT to `/stockItems/1` with the stock payload; true iff the result is not None |
| Magento.MagentoClient.UpdateProductPrice | app/magento/client.py:139-157 | one gated PUT with the price payload; true iff the result is not None |
| Magento.SpecialPriceAttributes | app/magento/client.py:174-196 | `special_price` comes first; `special_from_date` is present only for a given start date and `special_to_date` only for a given end date, in that order; 1 to 3 entries |
| Magento.MagentoClient.UpdateProductSpecialPrice | app/magento/client.py:159-199 | one gated PUT with those attributes; true iff the result is not None |
| Magento.OrdersQuery | app/magento/client.py:215-224 | the page size and page keys are always present; the three filter keys (`status`, the value, `eq`) are present exactly when a status is given |
| Magento.MagentoClient.GetOrders | app/magento/client.py:201-226 | one gated GET to `/rest/V1/orders` with that query |
| Magento.MagentoClient.GetOrderById | app/magento/client.py:228-239 | one gated GET to `/rest/V1/orders/<id>` |
| Magento.Extended | app/magento/client.py:254-258 | `list.extend` by a list adds its elements; by a string, one element per character; by an empty dict, nothing; by a non-list, non-string, non-dict value it raises |
| Magento.ExtendedString | app/magento/client.py:254-258 | extending by a string adds each character as a one-character string, in order |
| Magento.ListedItems | app/magento/client.py:254-258 | a falsy response adds nothing, and so does a dict without `items`; a dict whose `items` is a list adds exactly those items |
| Magento.NewOrders | app/magento/client.py:249-260 | the result exists iff both searches can be read; it is the pending items followed by the processing items, with nothing removed or reordered |
| Magento.SilentSearchAddsNothing | app/magento/client.py:257-258 | a processing search with no items leaves the pending items as the result |
| Magento.MagentoClient.GetNewOrders | app/magento/client.py:241-260 | the pending search, then the processing search, then their concatenation as in `NewOrders` |
| Odoo.OdooClient.constructor | app/odoo/client.py:12-29 | no session, not connected |
| Odoo.OdooClient.Invoke | app/odoo/client.py:73-74 | each remote call is appended to the call log; it fails exactly when the fault oracle says that call raises |
| Odoo.OdooClient.Connect | app/odoo/client.py:31-47 | `connected` and the result are true iff opening the session and logging in both succeed; a session that opened is kept even when the login fails |
| Odoo.OdooClient.EnsureConnection | app/odoo/client.py:49-58 | when connected with a session, the result is true and nothing changes; otherwise it behaves as `Connect`; the result equals `connected and session` |
| Odoo.ProductRecord | app/odoo/client.py:80-88 | the record maps field by field: `id`, `name`, `sku = default_code`, `retail_price = list_price`, `promo_price = lst_price`, `quantity = qty_available`, `type` |
| Odoo.ProductsWithCodeHead | app/odoo/client.py:74-79 | the first product found by a code search is the first stored product with that code |
| Odoo.OdooClient.FindProduct | app/odoo/client.py:70-91 | a record is returned iff every remote call works and some product has the SKU; it is the mapping of the first such product |
| Odoo.OdooClient.GetProductBySku | app/odoo/client.py:60-91 | the same as `FindProduct`, and the record's `sku` is the SKU searched for |
| Odoo.Truncate | app/odoo/client.py:108-109 | with no limit or a zero limit the result is everything; a positive limit keeps the first `limit`; a negative limit drops that many from the end (Python slicing); the result is always a prefix |
| Odoo.OdooClient.ListProducts | app/odoo/client.py:103-125 | after a remote failure the result is `[]`; otherwise there is one mapped record per kept product, in order |
| Odoo.OdooClient.GetAllProducts | app/odoo/client.py:93-125 | the same as `ListProducts`, and the call is logged |
| Odoo.CountryFor | app/odoo/client.py:211-215 | an id is returned only for a string code; it is the id of the first stored country whose code is the upper-cased argument; one is always returned when such a country exists |
| Odoo.CountriesWithCodeHead | app/odoo/client.py:211-215 | the first country found by the code search is the first stored country with that code |
| Odoo.OdooClient.GetCountryId | app/odoo/client.py:198-218 | any id returned is the lookup's answer; when no remote call fails, the result is exactly that answer (None for a code that is not a string) |
| Odoo.LineFor | app/odoo/client.py:165-178 | a line exists iff some product has the SKU; it uses the first such product's id, the quantity (1 when missing) and the unit price |
| Odoo.ResolveLines | app/odoo/client.py:164-178 | at most one sale-order line per requested line |
| Odoo.ResolveLinesStep | app/odoo/client.py:165-178 | lines come in the order requested: one more requested line appends its own sale-order line when its SKU resolves, and nothing otherwise |
| Odoo.ResolveLinesEmpty | app/odoo/client.py:164-182 | there is no sale-order line exactly when none of the requested SKUs resolves |
| Odoo.OdooClient.ChoosePartner | app/odoo/client.py:145-161 | an existing partner with the email is reused (the first one) and the partners are unchanged; otherwise exactly one partner is created from the customer fields, with the country lookup's id |
| Odoo.OdooClient.MatchLines | app/odoo/client.py:164-178 | when every product search works, the result is `ResolveLines` |
| Odoo.OdooClient.PlaceOrder | app/odoo/client.py:140-196 | products and countries are unchanged; there is no order when no line resolves; a created order has the chosen partner, `client_order_ref = external id` and the resolved lines; when no call fails, an order is created iff some line resolved |
| Odoo.OdooClient.CreateSaleOrder | app/odoo/client.py:127-196 | the same as `PlaceOrder`, and the call is logged |
| Sync.ProductCalls | app/middleware/sync.py:44-70 | the shop calls of one `sync_product`: the lookup alone when the shop lacks the product; otherwise the stock update, then the price update, then the special-price update exactly when it is wanted |
| Sync.SpecialPriceOnlyBelowRetail | app/middleware/sync.py:64-70 | a special price is pushed only as the promo price, only when it is non-zero and below the retail price, and always in that case once the shop knows the product |
| Sync.ProductCallsAccepted | app/middleware/sync.py:72-91 | the calls of one `sync_product` form an accepted synchronization (product found, stock, price and any special price accepted) exactly when every update made succeeded |
| Sync.ShopAcceptedStable | app/middleware/sync.py:111-130 | calls appended later do not change whether an earlier stretch of the shop's history was accepted |
| Sync.ProductStretchesExtend | app/middleware/sync.py:111-130 | one more product, with its calls appended, keeps the split of the shop's history into one stretch per product |
| Sync.ProductAttemptStep | app/middleware/sync.py:118-125 | one more attempt, made for the next product, keeps the attempts one per product in input order |
| Sync.FailedOperations | app/middleware/sync.py:79-89 | the list is empty iff all updates succeeded; it names exactly the failed updates, each once, in the order stock, price, special price |
| Sync.ProductSynchronizer.constructor | app/middleware/sync.py:12-21 | the synchronizer holds the two clients it was given |
| Sync.ProductSynchronizer.FetchFromShop | app/middleware/sync.py:44 | one shop lookup of the SKU |
| Sync.ProductSynchronizer.PushUpdates | app/middleware/sync.py:52-70 | the stock update, then the price update, then the special-price update exactly when the promo price is truthy and below the retail price (otherwise it counts as succeeded) |
| Sync.ProductSynchronizer.SyncProduct | app/middleware/sync.py:23-98 | if the ERP has no record: "not found in Odoo" and the shop is untouched; if the shop has no product: "not found in Magento" and no update; otherwise the updates above; success iff every update made succeeded; on failure the failed operations are listed; the ERP database is left as it was |
| Sync.TallyProducts | app/middleware/sync.py:111-130 | `successful + failed` equals the number of products; `failed_skus` is no longer than `failed` |
| Sync.TallyFailedSkus | app/middleware/sync.py:118-130 | `failed_skus` holds exactly the SKUs whose synchronization failed, in input order; products without a SKU are not in it |
| Sync.TallySuccessful | app/middleware/sync.py:125-127 | `successful` counts the products whose synchronization succeeded |
| Sync.TriedSkusOfInput | app/middleware/sync.py:118-125 | the SKUs synchronized are the input's non-empty SKUs, in input order |
| Sync.FailedSkusFromInput | app/middleware/sync.py:118-130 | `failed_skus` is a subsequence of the input's SKUs |
| Sync.ProductSynchronizer.SyncProductSucceeded | app/middleware/sync.py:125-126 | the shop's history only grows, and success holds exactly when the calls this synchronization added are an accepted one for the SKU (lookup found, stock, price and, when made, special price accepted); the ERP database is left as it was |
| Sync.ProductSynchronizer.SyncListed | app/middleware/sync.py:118-130 | a product without a SKU is skipped and the shop is untouched; otherwise it is synchronized, and its success holds exactly when its calls were accepted; the ERP database is left as it was |
| Sync.ProductSynchronizer.SyncAllProducts | app/middleware/sync.py:100-139 | lists all ERP products with no limit; `total` is their number; there is one attempt per product, skipped exactly when it has no SKU; the counters are `TallyProducts` of the attempts; the shop's new history splits into one stretch per product, empty when skipped, and accepted exactly when that product is counted successful; the ERP database is left as it was |
| Sync.StreetOf | app/middleware/sync.py:190 | the street is the first element of a list, the value itself otherwise, and "" when missing; an empty list raises |
| Sync.CustomerName | app/middleware/sync.py:187 | the name is the first and last name joined by one space with only the whitespace at both ends removed: it sits in the joined string padded by whitespace alone, and neither starts nor ends with whitespace |
| Sync.CustomerNameJoins | app/middleware/sync.py:187 | names `A` and `B` without surrounding whitespace give exactly `A B` |
| Sync.CustomerNameWithoutFirst | app/middleware/sync.py:187 | with no first name, the name is the last name alone, with no stray leading space |
| Sync.CustomerNameWithoutLast | app/middleware/sync.py:187 | with no last name, the name is the first name alone, with no stray trailing space |
| Sync.CustomerOf | app/middleware/sync.py:185-194 | the customer data exists iff the billing address is a dict with a usable street; each field comes from its key with "" as the default |
| Sync.LineOf | app/middleware/sync.py:199-203 | an item gives a line iff it is a dict; the SKU defaults to "", the quantity to 1 and the price to 0, and every key is present |
| Sync.LinesOf | app/middleware/sync.py:197-203 | one line per item, in item order; there are lines iff every item is a dict |
| Sync.OrderLines | app/middleware/sync.py:196-203 | a list of items gives lines iff every item is a dict, one line per item in order; a dict gives lines iff it is empty (none); a value that cannot be iterated gives none |
| Sync.OrderLinesOfString | app/middleware/sync.py:196-203 | a string of items gives lines only when empty, since its characters are not dicts |
| Sync.Extract | app/middleware/sync.py:185-203 | the customer data and lines exist iff both can be built, and are those two; an order without `items` and a usable billing address gives no lines |
| Sync.OrderSynchronizer.ExtractOrderLines | app/middleware/sync.py:196-203 | the loop's result is `OrderLines` of the order's `items` |
| Sync.OrderSynchronizer.constructor | app/middleware/sync.py:153-162 | the synchronizer holds the two clients it was given |
| Sync.OrderSynchronizer.SyncOrder | app/middleware/sync.py:164-230 | one shop fetch; a falsy order is "not found" and the ERP is untouched; a malformed order fails and the ERP is untouched; otherwise the ERP receives the extracted customer and lines with the order id as external reference; success iff the ERP returns a truthy id, that is iff the one ERP call added records a sale order for this order; `orders_synced` is `[id]` on success and `[]` otherwise |
| Sync.OrderSynchronizer.RecordSaleOrder | app/middleware/sync.py:205-223 | one ERP order creation; the result is `Created` with `[id]` iff the id returned is truthy, `CreationFailed` otherwise, and success iff the call added records a sale order for this order |
| Sync.OrderSynchronizer.SyncOrderSucceeded | app/middleware/sync.py:258-259 | the ERP history grows by at most one call, and success holds exactly when that call records a sale order created for this order id; the ERP's products and countries are unchanged |
| Sync.OrderSynchronizer.SyncListed | app/middleware/sync.py:251-264 | an order with a falsy `entity_id` is skipped and the ERP is untouched; otherwise it is synchronized, and its success holds exactly when its one ERP call records its sale order; the ERP's products and countries are unchanged |
| Sync.RecordedStable | app/middleware/sync.py:251-264 | calls appended later do not change what an earlier position of the ERP history records |
| Sync.OrderStretchesExtend | app/middleware/sync.py:251-264 | one more order, with its ERP call appended, keeps the split of the ERP history into one stretch per order |
| Sync.SyncedOrdersRecorded | app/middleware/sync.py:258-262 | each order counted as synced has a sale order at the start of its own stretch, and no other order's non-empty stretch starts there, so two synced orders never share one ERP record |
| Sync.StretchesOrdered | app/middleware/sync.py:251-264 | the stretches follow each other: one ends no later than any later one starts |
| Sync.OrderAttemptStep | app/middleware/sync.py:251-258 | one more attempt, made for the next order, keeps the attempts one per order in input order |
| Sync.TallyOrders | app/middleware/sync.py:243-264 | `successful + failed` equals the number of orders handled; `len(synced_orders) = successful` |
| Sync.TallyOrderLists | app/middleware/sync.py:251-264 | `synced_orders` and `failed_orders` hold exactly the successful and the failed ids, each in input order |
| Sync.TallyOrdersPartition | app/middleware/sync.py:258-264 | every id sent to `sync_order` lands in exactly one of `synced_orders` and `failed_orders` (as multisets) |
| Sync.SentIdsOfInput | app/middleware/sync.py:251-258 | the ids sent are the input's truthy `entity_id`s, in input order |
| Sync.OrderListsFromInput | app/middleware/sync.py:251-264 | `synced_orders` and `failed_orders` are subsequences of the input's order ids |
| Sync.OrderSynchronizer.FetchNewOrders | app/middleware/sync.py:241 | the shop's new-orders query, logged |
| Sync.OrderSynchronizer.SyncOrders | app/middleware/sync.py:251-267 | one attempt per order, skipped exactly when `entity_id` is falsy; the report is the tally of the attempts iff every order is a dict; otherwise the loop stops at the first one that is not; the ERP's new history splits into one stretch of at most one call per order, empty when skipped, and recording that order's sale order exactly when it is counted as synced; the ERP's products and countries are unchanged |
| Sync.OrderSynchronizer.SyncNewOrders | app/middleware/sync.py:232-281 | a failed new-orders query gives the failure report; otherwise `total` is the number of new orders and the counters are `TallyOrders` of the attempts; the ERP history splits as in `SyncOrders`, and products and countries are unchanged; `orders_synced` lists the synchronized ids in input order, and is empty on failure |

## Left out

- The HTTP and RPC libraries (`requests`, `odoorpc`) are replaced by the transport oracle `server` and the ERP's `Database` and `fault` oracle. Headers other than `Authorization`, status codes and response text are not modelled. A body that does not decode counts as a failed request, as the source's exception handler treats it.
- Logging, `time.sleep(0.5)` between batch items, and the wording of result messages. The model returns the reason for a result as a datatype (`ProductOutcome`, `OrderOutcome`).
- `time.time()` is the `now` parameter (an integer). Within one `sync_product` or `sync_order`, every shop call happens at the same instant.
- Floating point: prices and quantities are `real`.
- Json.Show: `str()` of a float, list or dict renders as "". This affects only a bearer token, an order id or a billing name of those types.
- Text.Upper: only ASCII letters are upper-cased.
- Magento.MagentoClient.UpdateProductSpecialPrice: the special price is sent as a number, not as `str(special_price)`.
- Magento.Extended: extending a list by a non-empty dict is treated as a failure (None). Python appends the dict's keys in insertion order, which a Dafny map cannot represent. `Sync.OrderLines` agrees with Python here, because iterating such a dict fails on the first key anyway.
- Magento.ListedItems: a search whose `items` is a non-empty dict makes the whole new-orders query fail, so `sync_new_orders` synchronizes no order and reports failure. Python would instead list the dict's keys after the orders before them, synchronize those earlier orders into the ERP, and only then fail on the first key (a string has no `.get`), reporting failure after those sale orders were created.
- ERP searches: the model's searches return matches in stored order. The ERP's own default ordering is not modelled. A search for a missing SKU (None) finds nothing, whereas the ERP would match products without a code.
- Odoo.OdooClient.GetAllProducts: reading the records is one remote call. The lazy per-field reads of `odoorpc` records are not modelled.
- Odoo.OdooClient.CreateSaleOrder: "no `sale.order` create is issued" when no line resolves is stated on the database (no sale order row is added and the result is None), not on the log of remote calls.
- Sync.ProductSynchronizer.SyncProduct: the `except` branch is unreachable in the model, because every client method it calls handles its own failures.
- Sync.ProductSynchronizer.SyncAllProducts: the `except` branch is unreachable for the same reason, so the report always says success.
- Record ids in the ERP come from `Database.nextId`, so the model can create an order with id 0. `sync_order` then reports a failure, because the id is falsy. This follows Python truthiness.
- app/main.py, the launcher, the example scripts and the connectivity tests are not part of this model.
