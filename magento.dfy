/**
 * The storefront client (app/magento/client.py): a cached bearer token
 * with an expiry, the rule that no request goes out without a token, and
 * the payloads and query parameters of the product and order calls.
 *
 * The network is an oracle: `server(n, req)` is the transport's answer to
 * `req` when it is the n-th request the client sends. The clock is the
 * `now` parameter (seconds).
 */
module Magento {
  import opened Wrappers
  import opened Json
  import Text

  datatype Verb = GET | PUT | POST

  /** One HTTP request as handed to the transport; `authorization` is the Authorization header, if any. */
  datatype HttpRequest = HttpRequest(
    verb: Verb, url: string, authorization: Option<string>, body: Json, query: map<string, Json>)

  /**
   * The transport's answer. `Refused` covers a connection error, a non-2xx
   * status and a body that does not decode as JSON, all of which the client
   * catches as a request exception.
   */
  datatype Reply = Refused | NoContent | Content(body: Json)

  /** The part of the client that its calls change: token, token expiry and the requests sent so far. */
  datatype Conn = Conn(token: Json, expiry: int, sent: seq<HttpRequest>)

  /** A public operation invoked on the client, with what it returned. */
  datatype MagentoCall =
    | ProductFetched(sku: string, product: Json)
    | StockUpdated(sku: string, quantity: real, ok: bool)
    | PriceUpdated(sku: string, price: real, ok: bool)
    | SpecialPriceUpdated(sku: string, specialPrice: real, fromDate: Option<string>, toDate: Option<string>, ok: bool)
    | OrdersFetched(pageSize: int, currentPage: int, status: Option<string>, orders: Json)
    | OrderFetched(orderId: Json, order: Json)
    | NewOrdersFetched(newOrders: Option<seq<Json>>)

  const PageSizeKey := "searchCriteria[pageSize]"
  const CurrentPageKey := "searchCriteria[currentPage]"
  const FilterFieldKey := "searchCriteria[filterGroups][0][filters][0][field]"
  const FilterValueKey := "searchCriteria[filterGroups][0][filters][0][value]"
  const FilterConditionKey := "searchCriteria[filterGroups][0][filters][0][conditionType]"

  /**
   * What `_make_api_request` returns for a reply: None (Null) on failure,
   * `True` for an empty body, the decoded body otherwise.
   */
  function Outcome(reply: Reply): (r: Json)
    ensures r == Null <==> reply.Refused? || reply == Content(Null)
    ensures reply.NoContent? ==> r == Bool(true)
    ensures reply.Content? ==> r == reply.body
  {
    match reply
    case Refused => Null
    case NoContent => Bool(true)
    case Content(body) => body
  }

  /** The truth of an optional string argument (`if from_date:`, `if status:`). */
  predicate Given(s: Option<string>) {
    s.Some? && s.value != ""
  }

  function Attribute(code: string, value: Json): Json {
    Obj(map["attribute_code" := Str(code), "value" := value])
  }

  /** Body of the stock update. */
  function StockPayload(quantity: real): (data: Json)
    ensures data.Obj? && "stockItem" in data.fields && data.fields["stockItem"].Obj?
    ensures data.fields["stockItem"].fields.Keys == {"qty", "is_in_stock"}
    ensures data.fields["stockItem"].fields["qty"] == Float(quantity)
    ensures data.fields["stockItem"].fields["is_in_stock"] == Bool(quantity > 0.0)
  {
    Obj(map["stockItem" := Obj(map["qty" := Float(quantity), "is_in_stock" := Bool(quantity > 0.0)])])
  }

  /** Body of the regular price update. */
  function PricePayload(price: real): (data: Json)
    ensures data.Obj? && data.fields.Keys == {"product"} && data.fields["product"].Obj?
    ensures data.fields["product"].fields.Keys == {"price"}
    ensures data.fields["product"].fields["price"] == Float(price)
  {
    Obj(map["product" := Obj(map["price" := Float(price)])])
  }

  /**
   * The custom attributes of a special-price update: `special_price` first,
   * then `special_from_date` only for a given start date, then
   * `special_to_date` only for a given end date.
   */
  function SpecialPriceAttributes(specialPrice: real, fromDate: Option<string>, toDate: Option<string>): (attrs: seq<Json>)
    ensures |attrs| == 1 + (if Given(fromDate) then 1 else 0) + (if Given(toDate) then 1 else 0)
    ensures attrs[0] == Attribute("special_price", Float(specialPrice))
    ensures Given(fromDate) ==> attrs[1] == Attribute("special_from_date", Str(fromDate.value))
    ensures Given(toDate) ==> attrs[|attrs| - 1] == Attribute("special_to_date", Str(toDate.value))
  {
    [Attribute("special_price", Float(specialPrice))]
    + (if Given(fromDate) then [Attribute("special_from_date", Str(fromDate.value))] else [])
    + (if Given(toDate) then [Attribute("special_to_date", Str(toDate.value))] else [])
  }

  function SpecialPricePayload(attrs: seq<Json>): Json {
    Obj(map["product" := Obj(map["custom_attributes" := Arr(attrs)])])
  }

  /**
   * Query parameters of an order search: page size and page always, the
   * three keys of an equality filter on `status` only for a given status.
   */
  function OrdersQuery(pageSize: int, currentPage: int, status: Option<string>): (q: map<string, Json>)
    ensures q.Keys == {PageSizeKey, CurrentPageKey}
                      + (if Given(status) then {FilterFieldKey, FilterValueKey, FilterConditionKey} else {})
    ensures q[PageSizeKey] == Int(pageSize) && q[CurrentPageKey] == Int(currentPage)
    ensures Given(status) ==>
              q[FilterFieldKey] == Str("status") && q[FilterValueKey] == Str(status.value)
              && q[FilterConditionKey] == Str("eq")
  {
    var page := map[PageSizeKey := Int(pageSize), CurrentPageKey := Int(currentPage)];
    if Given(status) then
      page[FilterFieldKey := Str("status")][FilterValueKey := Str(status.value)][FilterConditionKey := Str("eq")]
    else page
  }

  /** The elements `list.extend(v)` appends; None where Python raises (see README for a JSON object). */
  function Extended(v: Json): (elems: Option<seq<Json>>)
    ensures v.Arr? ==> elems == Some(v.elems)
    ensures v.Str? ==> elems.Some? && |elems.value| == |v.s|
    ensures v.Obj? ==> (elems.Some? <==> v.fields == map[]) && (elems.Some? ==> elems.value == [])
    ensures !v.Arr? && !v.Str? && !v.Obj? ==> elems.None?
  {
    match v
    case Arr(a) => Some(a)
    case Str(s) => Some(seq(|s|, i requires 0 <= i < |s| => Str([s[i]])))
    case Obj(m) => if m == map[] then Some([]) else None
    case _ => None
  }

  /** Extending a list by a string appends its characters, each as a one-character string. */
  lemma ExtendedString(s: string)
    ensures Extended(Str(s)).Some?
    ensures forall i :: 0 <= i < |s| ==> Extended(Str(s)).value[i] == Str([s[i]])
  {
  }

  /**
   * What `if r and 'items' in r: orders.extend(r['items'])` adds for one
   * search response `r`; None where Python raises a TypeError.
   */
  function ListedItems(r: Json): (items: Option<seq<Json>>)
    ensures !Truthy(r) ==> items == Some([])
    ensures r.Obj? && "items" !in r.fields ==> items == Some([])
    ensures r.Obj? && "items" in r.fields && r.fields["items"].Arr? ==> items == Some(r.fields["items"].elems)
  {
    if !Truthy(r) then Some([])
    else
      match r
      case Obj(m) => if "items" in m then Extended(m["items"]) else Some([])
      case Arr(a) => if Str("items") in a then None else Some([])
      case Str(s) => if Text.Contains(s, "items") then None else Some([])
      case _ => None
  }

  /**
   * The new orders: the pending search's items followed by the processing
   * search's items, nothing removed and nothing reordered.
   */
  function NewOrders(pending: Json, processing: Json): (orders: Option<seq<Json>>)
    ensures orders.Some? <==> ListedItems(pending).Some? && ListedItems(processing).Some?
    ensures orders.Some? ==> |orders.value| == |ListedItems(pending).value| + |ListedItems(processing).value|
    ensures orders.Some? ==> orders.value[..|ListedItems(pending).value|] == ListedItems(pending).value
    ensures orders.Some? ==> orders.value[|ListedItems(pending).value|..] == ListedItems(processing).value
  {
    match ListedItems(pending)
    case None => None
    case Some(first) =>
      match ListedItems(processing)
      case None => None
      case Some(second) => Some(first + second)
  }

  /** A search that answers with no items, or with an object without `items`, adds nothing. */
  lemma SilentSearchAddsNothing(pending: Json, processing: Json)
    requires !Truthy(processing) || (processing.Obj? && "items" !in processing.fields)
    requires ListedItems(pending).Some?
    ensures NewOrders(pending, processing) == ListedItems(pending)
  {
    assert ListedItems(pending).value + [] == ListedItems(pending).value;
  }

  class MagentoClient {
    const baseUrl: string
    const username: string
    const password: string
    const tokenLifetime: int
    /** The storefront behind the transport: the reply to the n-th request sent. */
    const server: (nat, HttpRequest) -> Reply
    var token: Json
    var tokenExpiry: int
    var sent: seq<HttpRequest>
    /** The public operations invoked so far, with their results. */
    ghost var history: seq<MagentoCall>

    /** `__init__`: every trailing '/' of the base URL is dropped; no token yet. */
    constructor (url: string, username: string, password: string, server: (nat, HttpRequest) -> Reply)
      ensures baseUrl == Text.RStrip(url, '/')
      ensures this.username == username && this.password == password && this.server == server
      ensures token == Null && tokenExpiry == 0 && tokenLifetime == 3600
      ensures sent == [] && history == []
    {
      baseUrl := Text.RStrip(url, '/');
      this.username := username;
      this.password := password;
      this.server := server;
      token := Null;
      tokenExpiry := 0;
      tokenLifetime := 3600;
      sent := [];
      history := [];
    }

    ghost function State(): Conn
      reads this
    {
      Conn(token, tokenExpiry, sent)
    }

    /** The credential exchange with the token endpoint. */
    function TokenRequest(): HttpRequest {
      HttpRequest(POST, baseUrl + "/rest/V1/integration/admin/token", None,
                  Obj(map["username" := Str(username), "password" := Str(password)]), map[])
    }

    /** An API request: the endpoint appended to the base URL, with the bearer token. */
    function ApiRequest(verb: Verb, endpoint: string, bearer: Json, data: Json, params: map<string, Json>): HttpRequest {
      HttpRequest(verb, baseUrl + endpoint, Some("Bearer " + Show(bearer)), data, params)
    }

    /** Whether `_get_token` can answer from the cache at time `now`. */
    predicate Cached(c: Conn, now: int) {
      Truthy(c.token) && now < c.expiry
    }

    /** `_get_token` at time `now`, from the state before it: the state after it and the token it returns. */
    function Authenticate(c: Conn, now: int): (r: (Conn, Json))
      ensures r.1 == r.0.token
      ensures Cached(c, now) ==> r.0 == c
      ensures !Cached(c, now) ==> r.0.sent == c.sent + [TokenRequest()]
      ensures !Cached(c, now) && server(|c.sent|, TokenRequest()).Content? ==>
                r.0.token == server(|c.sent|, TokenRequest()).body && r.0.expiry == now + tokenLifetime
      ensures !Cached(c, now) && !server(|c.sent|, TokenRequest()).Content? ==>
                r.0.token == Null && r.0.expiry == c.expiry
    {
      if Cached(c, now) then (c, c.token)
      else
        var reply := server(|c.sent|, TokenRequest());
        var sent := c.sent + [TokenRequest()];
        if reply.Content? then (Conn(reply.body, now + tokenLifetime, sent), reply.body)
        else (Conn(Null, c.expiry, sent), Null)
    }

    /** A token fetched at `now` serves, without a second token request, every call before it expires. */
    lemma TokenReused(c: Conn, now: int, later: int)
      requires !Cached(c, now) && Truthy(Authenticate(c, now).1)
      requires now <= later < now + tokenLifetime
      ensures Authenticate(Authenticate(c, now).0, later) == Authenticate(c, now)
    {
    }

    /** Once the token has expired, the next call makes exactly one new token request. */
    lemma TokenRefreshed(c: Conn, now: int, later: int)
      requires later >= Authenticate(c, now).0.expiry
      ensures var c' := Authenticate(c, now).0;
              Authenticate(c', later).0.sent == c'.sent + [TokenRequest()]
    {
    }

    /**
     * `_make_api_request` at time `now`: the token gate, then at most one
     * request to `baseUrl + endpoint`. Without a token nothing more is sent
     * and the result is None.
     */
    function Request(c: Conn, verb: Verb, endpoint: string, data: Json, params: map<string, Json>, now: int): (r: (Conn, Json))
      ensures var g := Authenticate(c, now).0;
              && r.0.token == g.token && r.0.expiry == g.expiry
              && (!Truthy(g.token) ==> r.0.sent == g.sent && r.1 == Null)
              && (Truthy(g.token) ==>
                    |r.0.sent| == |g.sent| + 1 && r.0.sent[..|g.sent|] == g.sent
                    && r.0.sent[|g.sent|].url == baseUrl + endpoint
                    && r.0.sent[|g.sent|] == ApiRequest(verb, endpoint, g.token, data, params)
                    && r.1 == Outcome(server(|g.sent|, r.0.sent[|g.sent|])))
    {
      var (g, bearer) := Authenticate(c, now);
      if !Truthy(bearer) then (g, Null)
      else
        var req := ApiRequest(verb, endpoint, bearer, data, params);
        (g.(sent := g.sent + [req]), Outcome(server(|g.sent|, req)))
    }

    /** Hands one request to the transport. */
    method Send(req: HttpRequest) returns (reply: Reply)
      modifies this`sent
      ensures reply == server(|old(sent)|, req) && sent == old(sent) + [req]
    {
      reply := server(|sent|, req);
      sent := sent + [req];
    }

    /** `_get_token`. */
    method GetToken(now: int) returns (t: Json)
      modifies this`token, this`tokenExpiry, this`sent
      ensures (State(), t) == Authenticate(old(State()), now)
    {
      if Truthy(token) && now < tokenExpiry {
        return token;
      }
      var reply := Send(TokenRequest());
      if reply.Content? {
        token := reply.body;
        tokenExpiry := now + tokenLifetime;
        t := token;
      } else {
        token := Null;
        t := Null;
      }
    }

    /** `_make_api_request`. */
    method MakeApiRequest(verb: Verb, endpoint: string, data: Json, params: map<string, Json>, now: int)
      returns (r: Json)
      modifies this`token, this`tokenExpiry, this`sent
      ensures (State(), r) == Request(old(State()), verb, endpoint, data, params, now)
    {
      var bearer := GetToken(now);
      if !Truthy(bearer) {
        return Null;
      }
      var reply := Send(ApiRequest(verb, endpoint, bearer, data, params));
      r := Outcome(reply);
    }

    /** `get_product_by_sku`: the product record, or None. */
    method GetProductBySku(sku: string, now: int) returns (product: Json)
      modifies this
      ensures (State(), product) == Request(old(State()), GET, "/rest/V1/products/" + sku, Null, map[], now)
      ensures history == old(history) + [ProductFetched(sku, product)]
    {
      product := MakeApiRequest(GET, "/rest/V1/products/" + sku, Null, map[], now);
      history := history + [ProductFetched(sku, product)];
    }

    /** `update_product_stock`: true iff the request returned something other than None. */
    method UpdateProductStock(sku: string, quantity: real, now: int) returns (ok: bool)
      modifies this
      ensures var r := Request(old(State()), PUT, "/rest/V1/products/" + sku + "/stockItems/1",
                               StockPayload(quantity), map[], now);
              State() == r.0 && ok == (r.1 != Null)
      ensures history == old(history) + [StockUpdated(sku, quantity, ok)]
    {
      var data := StockPayload(quantity);
      var result := MakeApiRequest(PUT, "/rest/V1/products/" + sku + "/stockItems/1", data, map[], now);
      ok := result != Null;
      history := history + [StockUpdated(sku, quantity, ok)];
    }

    /** `update_product_price`: true iff the request returned something other than None. */
    method UpdateProductPrice(sku: string, price: real, now: int) returns (ok: bool)
      modifies this
      ensures var r := Request(old(State()), PUT, "/rest/V1/products/" + sku, PricePayload(price), map[], now);
              State() == r.0 && ok == (r.1 != Null)
      ensures history == old(history) + [PriceUpdated(sku, price, ok)]
    {
      var data := PricePayload(price);
      var result := MakeApiRequest(PUT, "/rest/V1/products/" + sku, data, map[], now);
      ok := result != Null;
      history := history + [PriceUpdated(sku, price, ok)];
    }

    /** `update_product_special_price`: the attribute list grows by the given dates only. */
    method UpdateProductSpecialPrice(sku: string, specialPrice: real, fromDate: Option<string>,
                                     toDate: Option<string>, now: int) returns (ok: bool)
      modifies this
      ensures var r := Request(old(State()), PUT, "/rest/V1/products/" + sku,
                               SpecialPricePayload(SpecialPriceAttributes(specialPrice, fromDate, toDate)),
                               map[], now);
              State() == r.0 && ok == (r.1 != Null)
      ensures history == old(history) + [SpecialPriceUpdated(sku, specialPrice, fromDate, toDate, ok)]
    {
      var attributes := [Attribute("special_price", Float(specialPrice))];
      if Given(fromDate) {
        attributes := attributes + [Attribute("special_from_date", Str(fromDate.value))];
      }
      if Given(toDate) {
        attributes := attributes + [Attribute("special_to_date", Str(toDate.value))];
      }
      assert attributes == SpecialPriceAttributes(specialPrice, fromDate, toDate);
      var result := MakeApiRequest(PUT, "/rest/V1/products/" + sku, SpecialPricePayload(attributes), map[], now);
      ok := result != Null;
      history := history + [SpecialPriceUpdated(sku, specialPrice, fromDate, toDate, ok)];
    }

    /** `get_orders`: one order search. */
    method GetOrders(pageSize: int, currentPage: int, status: Option<string>, now: int) returns (orders: Json)
      modifies this
      ensures (State(), orders)
              == Request(old(State()), GET, "/rest/V1/orders", Null, OrdersQuery(pageSize, currentPage, status), now)
      ensures history == old(history) + [OrdersFetched(pageSize, currentPage, status, orders)]
    {
      var params := map[PageSizeKey := Int(pageSize), CurrentPageKey := Int(currentPage)];
      if Given(status) {
        params := params[FilterFieldKey := Str("status")];
        params := params[FilterValueKey := Str(status.value)];
        params := params[FilterConditionKey := Str("eq")];
      }
      orders := MakeApiRequest(GET, "/rest/V1/orders", Null, params, now);
      history := history + [OrdersFetched(pageSize, currentPage, status, orders)];
    }

    /** `get_order_by_id`: the order, or None. */
    method GetOrderById(orderId: Json, now: int) returns (order: Json)
      modifies this
      ensures (State(), order) == Request(old(State()), GET, "/rest/V1/orders/" + Show(orderId), Null, map[], now)
      ensures history == old(history) + [OrderFetched(orderId, order)]
    {
      order := MakeApiRequest(GET, "/rest/V1/orders/" + Show(orderId), Null, map[], now);
      history := history + [OrderFetched(orderId, order)];
    }

    /**
     * `get_new_orders`: a search for pending orders, then one for
     * processing orders, and their items concatenated. None stands for the
     * TypeError Python raises on a response it cannot search for `items`.
     */
    method GetNewOrders(now: int) returns (orders: Option<seq<Json>>, ghost pending: Json, ghost processing: Json)
      modifies this
      ensures var first := Request(old(State()), GET, "/rest/V1/orders", Null, OrdersQuery(10, 1, Some("pending")), now);
              var second := Request(first.0, GET, "/rest/V1/orders", Null, OrdersQuery(10, 1, Some("processing")), now);
              pending == first.1 && processing == second.1 && State() == second.0
      ensures history == old(history) + [OrdersFetched(10, 1, Some("pending"), pending),
                                         OrdersFetched(10, 1, Some("processing"), processing),
                                         NewOrdersFetched(orders)]
      ensures orders == NewOrders(pending, processing)
    {
      var first := GetOrders(10, 1, Some("pending"), now);
      var second := GetOrders(10, 1, Some("processing"), now);
      pending, processing := first, second;
      var fromPending := ListedItems(first);
      if fromPending.None? {
        orders := None;
      } else {
        var fromProcessing := ListedItems(second);
        if fromProcessing.None? {
          orders := None;
        } else {
          var list: seq<Json> := [];
          list := list + fromPending.value;
          list := list + fromProcessing.value;
          assert list == fromPending.value + fromProcessing.value;
          orders := Some(list);
        }
      }
      history := history + [NewOrdersFetched(orders)];
    }
  }
}
