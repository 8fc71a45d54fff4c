/**
 * The ERP client (app/odoo/client.py): the lazily (re)established session,
 * product lookups mapped to the canonical product record, and the
 * assembly of a sale order from customer data and order lines.
 *
 * The ERP is a model database plus a fault oracle: `fault(n)` says whether
 * the n-th remote call the client makes raises (an unreachable server, a
 * refused login, an access error, ...). Every remote call is logged in
 * `rpcs`; a search returns the matching records in stored order.
 */
module Odoo {
  import opened Wrappers
  import opened Json
  import Text
  import Seqs

  /** A `product.product` record as stored; `defaultCode` is the SKU. */
  datatype ProductRow = ProductRow(
    id: nat, name: Json, defaultCode: Option<string>, listPrice: real,
    lstPrice: Option<real>, qtyAvailable: real, kind: Json)

  /** A `res.partner` record; fields hold whatever value they were created with (Null when unset). */
  datatype PartnerRow = PartnerRow(
    id: nat, name: Json, email: Json, phone: Json, street: Json, city: Json, zip: Json, countryId: Option<nat>)

  datatype CountryRow = CountryRow(id: nat, code: string)

  datatype SaleLine = SaleLine(productId: nat, quantity: Json, priceUnit: Json)

  datatype SaleOrderRow = SaleOrderRow(id: nat, partnerId: nat, clientOrderRef: Json, lines: seq<SaleLine>)

  /** The ERP's tables, and the id the next created record receives. */
  datatype Database = Database(
    products: seq<ProductRow>, partners: seq<PartnerRow>, countries: seq<CountryRow>,
    saleOrders: seq<SaleOrderRow>, nextId: nat)

  /** The canonical product record handed to the synchronizers. */
  datatype Product = Product(
    id: nat, name: Json, sku: Option<string>, retailPrice: real, promoPrice: Option<real>,
    quantity: real, kind: Json)

  /** The customer dict `create_sale_order` reads with `.get` (Null for a missing key). */
  datatype Customer = Customer(
    name: Json, email: Json, phone: Json, street: Json, city: Json, zip: Json, countryCode: Json)

  /** One order line dict handed to `create_sale_order`; None stands for a missing key. */
  datatype LineRequest = LineRequest(sku: Option<Json>, quantity: Option<Json>, priceUnit: Option<Json>)

  /** A remote call; `SearchProducts(None)` is the unfiltered search. */
  datatype Rpc =
    | OpenSession
    | Login
    | SearchProducts(code: Option<Json>)
    | ReadProducts(ids: seq<nat>)
    | SearchPartners(email: Json)
    | CreatePartner(partner: PartnerRow)
    | SearchCountries(countryCode: string)
    | CreateSaleOrder(order: SaleOrderRow)

  /** A public operation invoked on the client, with what it returned. */
  datatype OdooCall =
    | ProductLookup(sku: string, product: Option<Product>)
    | ProductsListed(limit: Option<int>, products: seq<Product>)
    | SaleOrderCreated(customer: Customer, lines: seq<LineRequest>, externalId: Json, orderId: Option<nat>)

  /** The record built from a stored product: `sku` is `default_code`, the promo price is `lst_price`. */
  function ProductRecord(row: ProductRow): (p: Product)
    ensures p.id == row.id && p.name == row.name && p.sku == row.defaultCode
    ensures p.retailPrice == row.listPrice && p.promoPrice == row.lstPrice
    ensures p.quantity == row.qtyAvailable && p.kind == row.kind
  {
    Product(row.id, row.name, row.defaultCode, row.listPrice, row.lstPrice, row.qtyAvailable, row.kind)
  }

  predicate HasCode(row: ProductRow, code: Json) {
    row.defaultCode.Some? && code == Str(row.defaultCode.value)
  }

  /** `search([('default_code', '=', code)])` on products. */
  function ProductsWithCode(products: seq<ProductRow>, code: Json): seq<ProductRow> {
    Seqs.Filter(products, (row: ProductRow) => HasCode(row, code))
  }

  /** `search([('email', '=', email)])` on partners. */
  function PartnersWithEmail(partners: seq<PartnerRow>, email: Json): seq<PartnerRow> {
    Seqs.Filter(partners, (p: PartnerRow) => p.email == email)
  }

  /** `search([('code', '=', code)])` on countries. */
  function CountriesWithCode(countries: seq<CountryRow>, code: string): seq<CountryRow> {
    Seqs.Filter(countries, (c: CountryRow) => c.code == code)
  }

  /**
   * `_get_country_id` on a working connection: the first country whose
   * code is the upper-cased argument; None when none has it, and None for
   * a code that is not a string (its `.upper()` raises).
   */
  function CountryFor(countries: seq<CountryRow>, code: Json): (id: Option<nat>)
    ensures id.Some? ==>
              code.Str? && exists k :: FirstWithCountryCode(countries, Text.Upper(code.s), k) && countries[k].id == id.value
    ensures code.Str? && (exists c :: c in countries && c.code == Text.Upper(code.s)) ==> id.Some?
  {
    if !code.Str? then None
    else
      var found := CountriesWithCode(countries, Text.Upper(code.s));
      CountriesWithCodeFound(countries, Text.Upper(code.s));
      if found == [] then None
      else
        CountriesWithCodeHead(countries, Text.Upper(code.s));
        Some(found[0].id)
  }

  /** `countries[k]` is the first stored country whose code is `code`. */
  ghost predicate FirstWithCountryCode(countries: seq<CountryRow>, code: string, k: int) {
    0 <= k < |countries| && countries[k].code == code && forall j :: 0 <= j < k ==> countries[j].code != code
  }

  /** A country search that finds something starts with the first stored country with that code. */
  lemma CountriesWithCodeHead(countries: seq<CountryRow>, code: string)
    requires CountriesWithCode(countries, code) != []
    ensures exists k :: FirstWithCountryCode(countries, code, k) && CountriesWithCode(countries, code)[0] == countries[k]
  {
    var keep := (c: CountryRow) => c.code == code;
    Seqs.FilterHead(countries, keep);
    var k :| Seqs.FirstWith(countries, keep, k) && Seqs.Filter(countries, keep)[0] == countries[k];
    assert FirstWithCountryCode(countries, code, k);
  }

  /** A country search finds countries with that code only, and finds one whenever one exists. */
  lemma CountriesWithCodeFound(countries: seq<CountryRow>, code: string)
    ensures forall c :: c in CountriesWithCode(countries, code) ==> c in countries && c.code == code
    ensures CountriesWithCode(countries, code) == [] <==> forall c :: c in countries ==> c.code != code
  {
    var keep := (c: CountryRow) => c.code == code;
    assert forall i :: 0 <= i < |countries| ==> (keep(countries[i]) <==> countries[i].code == code);
  }

  /**
   * `ids[:limit]` when `limit` is truthy, with Python's slicing (a negative
   * limit drops that many from the end); all of `s` for no limit or 0.
   */
  function Truncate<T>(s: seq<T>, limit: Option<int>): (r: seq<T>)
    ensures |r| <= |s| && r == s[..|r|]
    ensures limit.None? || limit.value == 0 ==> r == s
    ensures limit.Some? && limit.value > 0 ==> |r| == if limit.value < |s| then limit.value else |s|
    ensures limit.Some? && limit.value < 0 ==> |r| == if |s| + limit.value > 0 then |s| + limit.value else 0
  {
    if limit.None? || limit.value == 0 then s
    else if limit.value > 0 then (if limit.value < |s| then s[..limit.value] else s)
    else if |s| + limit.value > 0 then s[..|s| + limit.value]
    else []
  }

  function Ids(rows: seq<ProductRow>): seq<nat> {
    seq(|rows|, i requires 0 <= i < |rows| => rows[i].id)
  }

  /** `line.get('sku')`. */
  function SkuOf(line: LineRequest): Json {
    line.sku.GetOr(Null)
  }

  /** `products[k]` is the first product whose code is `code`. */
  ghost predicate FirstWithCode(products: seq<ProductRow>, code: Json, k: int) {
    0 <= k < |products| && HasCode(products[k], code) && forall j :: 0 <= j < k ==> !HasCode(products[j], code)
  }

  /** A code search that finds something starts with the first product that has the code. */
  lemma ProductsWithCodeHead(products: seq<ProductRow>, code: Json)
    requires ProductsWithCode(products, code) != []
    ensures exists k :: FirstWithCode(products, code, k) && ProductsWithCode(products, code)[0] == products[k]
  {
    var keep := (row: ProductRow) => HasCode(row, code);
    Seqs.FilterHead(products, keep);
    var k :| Seqs.FirstWith(products, keep, k) && Seqs.Filter(products, keep)[0] == products[k];
    assert FirstWithCode(products, code, k);
  }

  /**
   * The sale-order line for one requested line: the first product whose
   * code is the line's SKU, the quantity (1 when missing) and the unit
   * price; no line when no product has that code.
   */
  function LineFor(products: seq<ProductRow>, line: LineRequest): (r: Option<SaleLine>)
    ensures r.Some? <==> exists k :: 0 <= k < |products| && HasCode(products[k], SkuOf(line))
    ensures r.Some? ==> exists k :: FirstWithCode(products, SkuOf(line), k) && r.value.productId == products[k].id
    ensures r.Some? ==> r.value.quantity == line.quantity.GetOr(Int(1)) && r.value.priceUnit == line.priceUnit.GetOr(Null)
  {
    var found := ProductsWithCode(products, SkuOf(line));
    if found == [] then None
    else
      ProductsWithCodeHead(products, SkuOf(line));
      Some(SaleLine(found[0].id, line.quantity.GetOr(Int(1)), line.priceUnit.GetOr(Null)))
  }

  /** The sale-order lines for the requested lines, in their order, without the unresolved ones. */
  function ResolveLines(products: seq<ProductRow>, lines: seq<LineRequest>): (r: seq<SaleLine>)
    ensures |r| <= |lines|
  {
    Seqs.FilterMap(lines, (line: LineRequest) => LineFor(products, line))
  }

  /** No sale-order line comes out exactly when none of the requested SKUs resolves. */
  lemma ResolveLinesEmpty(products: seq<ProductRow>, lines: seq<LineRequest>)
    ensures ResolveLines(products, lines) == [] <==> forall i :: 0 <= i < |lines| ==> LineFor(products, lines[i]).None?
  {
    Seqs.FilterMapEmpty(lines, (line: LineRequest) => LineFor(products, line));
  }

  /** Resolving one more requested line appends at most its own sale-order line. */
  lemma ResolveLinesStep(products: seq<ProductRow>, lines: seq<LineRequest>, i: nat)
    requires i < |lines|
    ensures ResolveLines(products, lines[..i + 1])
            == ResolveLines(products, lines[..i])
               + (if LineFor(products, lines[i]).Some? then [LineFor(products, lines[i]).value] else [])
  {
    assert lines[..i + 1][..i] == lines[..i];
  }

  /** `after` is `before` with one partner appended, built from the customer's fields. */
  ghost predicate NewPartner(before: Database, after: seq<PartnerRow>, customer: Customer) {
    && |after| == |before.partners| + 1
    && after[..|before.partners|] == before.partners
    && var p := after[|before.partners|];
       && p.name == customer.name && p.email == customer.email && p.phone == customer.phone
       && p.street == customer.street && p.city == customer.city && p.zip == customer.zip
       && (p.countryId.Some? ==> p.countryId == CountryFor(before.countries, customer.countryCode))
  }

  class OdooClient {
    const host: string
    const port: int
    const database: string
    const username: string
    const password: string
    /** Whether the n-th remote call raises. */
    const fault: nat -> bool
    /** `self.odoo is not None`. */
    var hasSession: bool
    var connected: bool
    var db: Database
    var rpcs: seq<Rpc>
    /** The public operations invoked so far, with their results. */
    ghost var history: seq<OdooCall>

    constructor (host: string, port: int, database: string, username: string, password: string,
                 db: Database, fault: nat -> bool)
      ensures this.host == host && this.port == port && this.database == database
      ensures this.username == username && this.password == password
      ensures this.db == db && this.fault == fault
      ensures !hasSession && !connected && rpcs == [] && history == []
    {
      this.host := host;
      this.port := port;
      this.database := database;
      this.username := username;
      this.password := password;
      this.db := db;
      this.fault := fault;
      hasSession := false;
      connected := false;
      rpcs := [];
      history := [];
    }

    /** None of the remote calls numbered `from` up to, not including, `to` fails. */
    ghost predicate Clean(from: nat, to: nat) {
      forall k :: from <= k < to ==> !fault(k)
    }

    /** Makes one remote call. */
    method Invoke(call: Rpc) returns (ok: bool)
      modifies this`rpcs
      ensures rpcs == old(rpcs) + [call] && ok == !fault(|old(rpcs)|)
    {
      ok := !fault(|rpcs|);
      rpcs := rpcs + [call];
    }

    /**
     * `connect`: open a session, then log in. `connected` and the result
     * say whether both worked; a session that opened stays even when the
     * login fails.
     */
    method Connect() returns (ok: bool)
      modifies this`hasSession, this`connected, this`rpcs
      ensures ok == connected
      ensures ok <==> Clean(|old(rpcs)|, |rpcs|)
      ensures hasSession == (old(hasSession) || !fault(|old(rpcs)|))
      ensures rpcs == old(rpcs) + (if fault(|old(rpcs)|) then [OpenSession] else [OpenSession, Login])
    {
      var sessionOpened := Invoke(OpenSession);
      if !sessionOpened {
        connected := false;
        return false;
      }
      hasSession := true;
      var loggedIn := Invoke(Login);
      connected := loggedIn;
      ok := loggedIn;
    }

    /** `ensure_connection`: reconnect only when not connected or without a session. */
    method EnsureConnection() returns (ok: bool)
      modifies this`hasSession, this`connected, this`rpcs
      ensures old(connected && hasSession) ==>
                ok && connected && hasSession && rpcs == old(rpcs)
      ensures !old(connected && hasSession) ==>
                && rpcs == old(rpcs) + (if fault(|old(rpcs)|) then [OpenSession] else [OpenSession, Login])
                && hasSession == (old(hasSession) || !fault(|old(rpcs)|))
      ensures ok == (connected && hasSession)
      ensures ok <==> Clean(|old(rpcs)|, |rpcs|)
    {
      if !connected || !hasSession {
        ok := Connect();
      } else {
        ok := true;
      }
    }

    method FindProduct(sku: string) returns (product: Option<Product>)
      modifies this`hasSession, this`connected, this`rpcs
      ensures old(connected && hasSession) ==> connected && hasSession
      ensures product.Some? <==>
                Clean(|old(rpcs)|, |rpcs|) && exists k :: 0 <= k < |db.products| && HasCode(db.products[k], Str(sku))
      ensures product.Some? ==>
                exists k :: FirstWithCode(db.products, Str(sku), k) && product.value == ProductRecord(db.products[k])
    {
      product := None;
      var ok := EnsureConnection();
      if !ok {
        return;
      }
      var searched := Invoke(SearchProducts(Some(Str(sku))));
      if !searched {
        return;
      }
      var found := ProductsWithCode(db.products, Str(sku));
      if found == [] {
        return;
      }
      var read := Invoke(ReadProducts([found[0].id]));
      if read {
        ProductsWithCodeHead(db.products, Str(sku));
        product := Some(ProductRecord(found[0]));
      }
    }

    /**
     * `get_product_by_sku`: the record of the first product whose code is
     * `sku`; None when there is none or when any remote call fails.
     */
    method GetProductBySku(sku: string) returns (product: Option<Product>)
      modifies this`hasSession, this`connected, this`rpcs, this`history
      ensures history == old(history) + [ProductLookup(sku, product)]
      ensures old(connected && hasSession) ==> connected && hasSession
      ensures product.Some? <==>
                Clean(|old(rpcs)|, |rpcs|) && exists k :: 0 <= k < |db.products| && HasCode(db.products[k], Str(sku))
      ensures product.Some? ==>
                exists k :: FirstWithCode(db.products, Str(sku), k) && product.value == ProductRecord(db.products[k])
      ensures product.Some? ==> product.value.sku == Some(sku)
    {
      product := FindProduct(sku);
      history := history + [ProductLookup(sku, product)];
    }

    method ListProducts(limit: Option<int>) returns (products: seq<Product>)
      modifies this`hasSession, this`connected, this`rpcs
      ensures old(connected && hasSession) ==> connected && hasSession
      ensures !Clean(|old(rpcs)|, |rpcs|) ==> products == []
      ensures Clean(|old(rpcs)|, |rpcs|) ==>
                |products| == |Truncate(db.products, limit)|
                && forall i :: 0 <= i < |products| ==> products[i] == ProductRecord(Truncate(db.products, limit)[i])
    {
      products := [];
      var ok := EnsureConnection();
      if !ok {
        return;
      }
      var searched := Invoke(SearchProducts(None));
      if !searched {
        return;
      }
      var rows := Truncate(db.products, limit);
      var read := Invoke(ReadProducts(Ids(rows)));
      if !read {
        return;
      }
      var i := 0;
      while i < |rows|
        invariant 0 <= i <= |rows|
        invariant |products| == i
        invariant forall j :: 0 <= j < i ==> products[j] == ProductRecord(rows[j])
      {
        products := products + [ProductRecord(rows[i])];
        i := i + 1;
      }
    }

    /**
     * `get_all_products`: one record per stored product, in order, cut to
     * the first `limit` when `limit` is truthy; the empty list when any
     * remote call fails.
     */
    method GetAllProducts(limit: Option<int>) returns (products: seq<Product>)
      modifies this`hasSession, this`connected, this`rpcs, this`history
      ensures history == old(history) + [ProductsListed(limit, products)]
      ensures old(connected && hasSession) ==> connected && hasSession
      ensures !Clean(|old(rpcs)|, |rpcs|) ==> products == []
      ensures Clean(|old(rpcs)|, |rpcs|) ==>
                |products| == |Truncate(db.products, limit)|
                && forall i :: 0 <= i < |products| ==> products[i] == ProductRecord(Truncate(db.products, limit)[i])
    {
      products := ListProducts(limit);
      history := history + [ProductsListed(limit, products)];
    }

    /** `_get_country_id`: None on any failure, including a code that is not a string. */
    method GetCountryId(code: Json) returns (id: Option<nat>)
      modifies this`hasSession, this`connected, this`rpcs
      ensures old(connected && hasSession) ==> connected && hasSession && |rpcs| <= |old(rpcs)| + 1
      ensures |old(rpcs)| <= |rpcs|
      ensures id.Some? ==> id == CountryFor(db.countries, code)
      ensures Clean(|old(rpcs)|, |rpcs|) ==> id == CountryFor(db.countries, code)
    {
      id := None;
      var ok := EnsureConnection();
      if !ok || !code.Str? {
        return;
      }
      var searched := Invoke(SearchCountries(Text.Upper(code.s)));
      if !searched {
        return;
      }
      var found := CountriesWithCode(db.countries, Text.Upper(code.s));
      if found != [] {
        id := Some(found[0].id);
      }
    }

    /**
     * What `create_sale_order` guarantees, given the database `before` it
     * and the number `n` of remote calls made before it.
     */
    ghost predicate SaleOrderOutcome(before: Database, n: nat, customer: Customer, lines: seq<LineRequest>,
                                     externalId: Json, orderId: Option<nat>)
      reads this`db, this`rpcs
    {
      var matches := PartnersWithEmail(before.partners, customer.email);
      var saleLines := ResolveLines(before.products, lines);
      && db.products == before.products && db.countries == before.countries
      && n <= |rpcs|
      // the first partner with the customer's email, or at most one new partner
      && (matches != [] ==> db.partners == before.partners)
      && (matches == [] ==> db.partners == before.partners || NewPartner(before, db.partners, customer))
      && (matches == [] && Clean(n, |rpcs|) ==>
            NewPartner(before, db.partners, customer)
            && db.partners[|before.partners|].countryId == CountryFor(before.countries, customer.countryCode))
      // no order without a resolved line, and nothing else changes the orders
      && (saleLines == [] ==> orderId.None?)
      && (orderId.None? ==> db.saleOrders == before.saleOrders)
      && (orderId.Some? ==>
            && saleLines != []
            && (matches == [] ==> NewPartner(before, db.partners, customer))
            && var partnerId := if matches != [] then matches[0].id else db.partners[|before.partners|].id;
               db.saleOrders == before.saleOrders + [SaleOrderRow(orderId.value, partnerId, externalId, saleLines)])
      && (Clean(n, |rpcs|) ==> (orderId.Some? <==> saleLines != []))
    }

    /** The partner search of `create_sale_order`, and the partner creation when the search finds none. */
    method ChoosePartner(customer: Customer) returns (partnerId: Option<nat>)
      modifies this`hasSession, this`connected, this`rpcs, this`db
      ensures db.products == old(db.products) && db.countries == old(db.countries)
      ensures db.saleOrders == old(db.saleOrders)
      ensures |old(rpcs)| <= |rpcs|
      ensures partnerId.None? ==> db.partners == old(db.partners) && !Clean(|old(rpcs)|, |rpcs|)
      ensures var matches := PartnersWithEmail(old(db.partners), customer.email);
              && (matches != [] ==> db.partners == old(db.partners))
              && (matches != [] && partnerId.Some? ==> partnerId.value == matches[0].id)
              && (matches == [] && partnerId.Some? ==>
                    NewPartner(old(db), db.partners, customer) && partnerId.value == db.partners[|old(db.partners)|].id)
              && (matches == [] && Clean(|old(rpcs)|, |rpcs|) ==>
                    db.partners[|old(db.partners)|].countryId == CountryFor(old(db.countries), customer.countryCode))
      ensures Clean(|old(rpcs)|, |rpcs|) ==> partnerId.Some?
    {
      partnerId := None;
      var searched := Invoke(SearchPartners(customer.email));
      if !searched {
        return;
      }
      var matches := PartnersWithEmail(db.partners, customer.email);
      if matches != [] {
        partnerId := Some(matches[0].id);
        return;
      }
      ghost var beforeCountry := |rpcs|;
      var country := GetCountryId(customer.countryCode);
      var partner := PartnerRow(db.nextId, customer.name, customer.email, customer.phone,
                                customer.street, customer.city, customer.zip, country);
      var created := Invoke(CreatePartner(partner));
      if !created {
        return;
      }
      db := db.(partners := db.partners + [partner], nextId := db.nextId + 1);
      partnerId := Some(partner.id);
    }

    /** The product search for each requested line of `create_sale_order`; None when a search fails. */
    method MatchLines(lines: seq<LineRequest>) returns (saleLines: Option<seq<SaleLine>>)
      modifies this`rpcs
      ensures |old(rpcs)| <= |rpcs|
      ensures saleLines.Some? <==> Clean(|old(rpcs)|, |rpcs|)
      ensures saleLines.Some? ==> saleLines.value == ResolveLines(db.products, lines)
    {
      var found: seq<SaleLine> := [];
      var i := 0;
      while i < |lines|
        invariant 0 <= i <= |lines|
        invariant found == ResolveLines(db.products, lines[..i])
        invariant |old(rpcs)| <= |rpcs|
        invariant Clean(|old(rpcs)|, |rpcs|)
      {
        var searched := Invoke(SearchProducts(Some(SkuOf(lines[i]))));
        if !searched {
          return None;
        }
        ResolveLinesStep(db.products, lines, i);
        var line := LineFor(db.products, lines[i]);
        if line.Some? {
          found := found + [line.value];
        }
        i := i + 1;
      }
      assert lines[..|lines|] == lines;
      saleLines := Some(found);
    }

    method PlaceOrder(customer: Customer, lines: seq<LineRequest>, externalId: Json) returns (orderId: Option<nat>)
      modifies this`hasSession, this`connected, this`rpcs, this`db
      ensures SaleOrderOutcome(old(db), |old(rpcs)|, customer, lines, externalId, orderId)
    {
      orderId := None;
      var ok := EnsureConnection();
      if !ok {
        return;
      }
      var partnerId := ChoosePartner(customer);
      if partnerId.None? {
        return;
      }
      var saleLines := MatchLines(lines);
      if saleLines.None? || saleLines.value == [] {
        return;
      }
      var order := SaleOrderRow(db.nextId, partnerId.value, externalId, saleLines.value);
      var placed := Invoke(Rpc.CreateSaleOrder(order));
      if !placed {
        return;
      }
      db := db.(saleOrders := db.saleOrders + [order], nextId := db.nextId + 1);
      orderId := Some(order.id);
    }

    /**
     * `create_sale_order`: reuse the first partner with the customer's
     * email or create one, resolve the lines against the products, and
     * create the order only when at least one line resolved. None on any
     * failure.
     */
    method CreateSaleOrder(customer: Customer, lines: seq<LineRequest>, externalId: Json) returns (orderId: Option<nat>)
      modifies this`hasSession, this`connected, this`rpcs, this`db, this`history
      ensures history == old(history) + [SaleOrderCreated(customer, lines, externalId, orderId)]
      ensures SaleOrderOutcome(old(db), |old(rpcs)|, customer, lines, externalId, orderId)
    {
      orderId := PlaceOrder(customer, lines, externalId);
      history := history + [SaleOrderCreated(customer, lines, externalId, orderId)];
    }
  }
}
