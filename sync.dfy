/**
 * The synchronization engine (app/middleware/sync.py): products flow from
 * the ERP to the shop (stock, price, special price), orders flow from the
 * shop to the ERP (customer and lines become a sale order). Each batch
 * tallies per-item outcomes; a failing item never stops a batch.
 *
 * Time is a parameter: a single synchronization runs at one instant `now`;
 * a batch reads its instants from `clock`.
 */
module Sync {
  import opened Wrappers
  import opened Json
  import Text
  import Seqs
  import Magento
  import Odoo

  // ---------------------------------------------------------------------
  // Products, ERP to shop
  // ---------------------------------------------------------------------

  /** The three shop updates `sync_product` can make, in the order it makes them. */
  datatype Operation = StockUpdate | PriceUpdate | SpecialPriceUpdate

  function Rank(op: Operation): nat {
    match op
    case StockUpdate => 0
    case PriceUpdate => 1
    case SpecialPriceUpdate => 2
  }

  /** Why `sync_product` answered as it did; the message text follows from it. */
  datatype ProductOutcome =
    | Synchronized
    | MissingInOdoo
    | MissingInMagento
    | FailedFor(operations: seq<Operation>)

  datatype ProductResult = ProductResult(outcome: ProductOutcome, sku: string) {
    /** The result's `success` entry. */
    predicate Succeeded() {
      outcome.Synchronized?
    }
  }

  /** A promo price is pushed only when it is truthy and below the retail price. */
  predicate WantsSpecialPrice(p: Odoo.Product) {
    p.promoPrice.Some? && p.promoPrice.value != 0.0 && p.promoPrice.value < p.retailPrice
  }

  /** The failed updates named in the failure message: exactly the failed ones, each once, in update order. */
  function FailedOperations(stockOk: bool, priceOk: bool, specialOk: bool): (ops: seq<Operation>)
    ensures ops == [] <==> stockOk && priceOk && specialOk
    ensures StockUpdate in ops <==> !stockOk
    ensures PriceUpdate in ops <==> !priceOk
    ensures SpecialPriceUpdate in ops <==> !specialOk
    ensures forall i, j :: 0 <= i < j < |ops| ==> Rank(ops[i]) < Rank(ops[j])
  {
    (if stockOk then [] else [StockUpdate])
    + (if priceOk then [] else [PriceUpdate])
    + (if specialOk then [] else [SpecialPriceUpdate])
  }

  /**
   * The shop calls `sync_product` makes once the ERP record `p` is found:
   * the product lookup; then, when the shop knows the product, the stock
   * and price updates, and the special price update when it is wanted.
   */
  function ProductCalls(sku: string, p: Odoo.Product, page: Json, stockOk: bool, priceOk: bool, specialOk: bool)
    : (calls: seq<Magento.MagentoCall>)
    ensures |calls| == if !Truthy(page) then 1 else if WantsSpecialPrice(p) then 4 else 3
    ensures calls[0] == Magento.ProductFetched(sku, page)
    ensures Truthy(page) ==>
              calls[1] == Magento.StockUpdated(sku, p.quantity, stockOk)
              && calls[2] == Magento.PriceUpdated(sku, p.retailPrice, priceOk)
    ensures |calls| == 4 ==> calls[3] == Magento.SpecialPriceUpdated(sku, p.promoPrice.value, None, None, specialOk)
  {
    [Magento.ProductFetched(sku, page)]
    + if !Truthy(page) then []
      else
        [Magento.StockUpdated(sku, p.quantity, stockOk), Magento.PriceUpdated(sku, p.retailPrice, priceOk)]
        + if WantsSpecialPrice(p) then [Magento.SpecialPriceUpdated(sku, p.promoPrice.value, None, None, specialOk)]
          else []
  }

  /**
   * A special price is pushed only as the product's promo price, only when
   * it is non-zero and below the retail price, and always then once the
   * shop knows the product.
   */
  lemma SpecialPriceOnlyBelowRetail(sku: string, p: Odoo.Product, page: Json, stockOk: bool, priceOk: bool, specialOk: bool)
    ensures forall c :: c in ProductCalls(sku, p, page, stockOk, priceOk, specialOk) && c.SpecialPriceUpdated? ==>
              p.promoPrice == Some(c.specialPrice) && c.specialPrice != 0.0 && c.specialPrice < p.retailPrice
    ensures Truthy(page) && p.promoPrice.Some? && p.promoPrice.value != 0.0 && p.promoPrice.value < p.retailPrice ==>
              exists c :: c in ProductCalls(sku, p, page, stockOk, priceOk, specialOk) && c.SpecialPriceUpdated?
  {
    var calls := ProductCalls(sku, p, page, stockOk, priceOk, specialOk);
    if Truthy(page) && WantsSpecialPrice(p) {
      assert calls[3] in calls;
    }
  }

  /**
   * The shop calls at positions `lo` up to `hi` of its history are one
   * accepted synchronization of `sku`: a lookup that found the product, an
   * accepted stock update, an accepted price update and, when there is a
   * fourth call, an accepted special-price update.
   */
  ghost predicate ShopAccepted(h: seq<Magento.MagentoCall>, lo: int, hi: int, sku: string) {
    && 0 <= lo && hi <= |h| && (hi == lo + 3 || hi == lo + 4)
    && h[lo].ProductFetched? && h[lo].sku == sku && Truthy(h[lo].product)
    && h[lo + 1].StockUpdated? && h[lo + 1].sku == sku && h[lo + 1].ok
    && h[lo + 2].PriceUpdated? && h[lo + 2].sku == sku && h[lo + 2].ok
    && (hi == lo + 4 ==> h[lo + 3].SpecialPriceUpdated? && h[lo + 3].sku == sku && h[lo + 3].ok)
  }

  /** The calls of one `sync_product` form an accepted synchronization exactly when every update made succeeded. */
  lemma ProductCallsAccepted(h: seq<Magento.MagentoCall>, sku: string, p: Odoo.Product, page: Json,
                             stockOk: bool, priceOk: bool, specialOk: bool)
    requires Truthy(page) && !WantsSpecialPrice(p) ==> specialOk
    ensures var h' := h + ProductCalls(sku, p, page, stockOk, priceOk, specialOk);
            ShopAccepted(h', |h|, |h'|, sku) <==> Truthy(page) && stockOk && priceOk && specialOk
  {
    var calls := ProductCalls(sku, p, page, stockOk, priceOk, specialOk);
    var h' := h + calls;
    assert forall k :: 0 <= k < |calls| ==> h'[|h| + k] == calls[k];
  }

  /**
   * The shop history `h` from position `base` on splits at `bounds` into
   * one stretch per attempt: empty for a product without a SKU, and for a
   * synchronized product an accepted synchronization exactly when the
   * attempt succeeded.
   */
  ghost predicate ProductStretches(h: seq<Magento.MagentoCall>, base: int, attempts: seq<ProductAttempt>, bounds: seq<int>) {
    && |bounds| == |attempts| + 1 && bounds[0] == base && bounds[|attempts|] == |h|
    && (forall j :: 0 <= j <= |attempts| ==> base <= bounds[j] <= |h|)
    && (forall j :: 0 <= j < |attempts| ==> bounds[j] <= bounds[j + 1])
    && (forall j :: 0 <= j < |attempts| && attempts[j].NoSku? ==> bounds[j] == bounds[j + 1])
    && (forall j :: 0 <= j < |attempts| && attempts[j].Tried? ==>
          (attempts[j].success <==> ShopAccepted(h, bounds[j], bounds[j + 1], attempts[j].sku)))
  }

  /** One more attempt, with the calls it made appended, keeps the split. */
  lemma ProductStretchesExtend(h: seq<Magento.MagentoCall>, h': seq<Magento.MagentoCall>, base: int,
                               attempts: seq<ProductAttempt>, bounds: seq<int>, a: ProductAttempt)
    requires ProductStretches(h, base, attempts, bounds)
    requires |h| <= |h'| && h'[..|h|] == h
    requires a.NoSku? ==> h' == h
    requires a.Tried? ==> (a.success <==> ShopAccepted(h', |h|, |h'|, a.sku))
    ensures ProductStretches(h', base, attempts + [a], bounds + [|h'|])
  {
    var attempts', bounds' := attempts + [a], bounds + [|h'|];
    forall j | 0 <= j < |attempts| && attempts[j].Tried?
      ensures attempts'[j].success <==> ShopAccepted(h', bounds'[j], bounds'[j + 1], attempts'[j].sku)
    {
      ShopAcceptedStable(h, h', bounds[j], bounds[j + 1], attempts[j].sku);
    }
  }

  /** Calls appended later do not change whether an earlier stretch of the history was accepted. */
  lemma ShopAcceptedStable(h: seq<Magento.MagentoCall>, h': seq<Magento.MagentoCall>, lo: int, hi: int, sku: string)
    requires hi <= |h| <= |h'| && h'[..|h|] == h
    ensures ShopAccepted(h, lo, hi, sku) <==> ShopAccepted(h', lo, hi, sku)
  {
    assert forall k :: 0 <= k < |h| ==> h'[k] == h[k];
  }

  /** One product of `sync_all_products`: skipped for want of a SKU, or synchronized with some success. */
  datatype ProductAttempt = NoSku | Tried(sku: string, success: bool)

  /** `not sku` for the record's SKU. */
  predicate HasSku(p: Odoo.Product) {
    p.sku.Some? && p.sku.value != ""
  }

  /** `attempts` are the attempts made for `products`, one each, in order. */
  ghost predicate ProductAttemptsFor(products: seq<Odoo.Product>, attempts: seq<ProductAttempt>) {
    && |attempts| == |products|
    && forall i :: 0 <= i < |attempts| ==>
         && (attempts[i].NoSku? <==> !HasSku(products[i]))
         && (attempts[i].Tried? ==> attempts[i].sku == products[i].sku.value)
  }

  /** One more attempt, made for the next product, extends the attempts. */
  lemma ProductAttemptStep(products: seq<Odoo.Product>, i: int, attempts: seq<ProductAttempt>, a: ProductAttempt)
    requires 0 <= i < |products| && ProductAttemptsFor(products[..i], attempts)
    requires a.NoSku? <==> !HasSku(products[i])
    requires a.Tried? ==> a.sku == products[i].sku.value
    ensures ProductAttemptsFor(products[..i + 1], attempts + [a])
  {
    var attempts' := attempts + [a];
    forall j | 0 <= j < |attempts'|
      ensures && (attempts'[j].NoSku? <==> !HasSku(products[..i + 1][j]))
              && (attempts'[j].Tried? ==> attempts'[j].sku == products[..i + 1][j].sku.value)
    {
      if j < i {
        assert attempts'[j] == attempts[j] && products[..i + 1][j] == products[..i][j];
      }
    }
  }

  /** The `results` counters of `sync_all_products`. */
  datatype ProductTally = ProductTally(successful: nat, failed: nat, failedSkus: seq<string>)

  function CountProduct(t: ProductTally, a: ProductAttempt): ProductTally {
    match a
    case NoSku => t.(failed := t.failed + 1)
    case Tried(sku, success) =>
      if success then t.(successful := t.successful + 1)
      else t.(failed := t.failed + 1, failedSkus := t.failedSkus + [sku])
  }

  /** The counters after the given attempts, counted one by one as the loop does. */
  function TallyProducts(attempts: seq<ProductAttempt>): (t: ProductTally)
    ensures t.successful + t.failed == |attempts|
    ensures |t.failedSkus| <= t.failed
    decreases |attempts|
  {
    if attempts == [] then ProductTally(0, 0, [])
    else CountProduct(TallyProducts(attempts[..|attempts| - 1]), attempts[|attempts| - 1])
  }

  function FailedSku(a: ProductAttempt): Option<string> {
    if a.Tried? && !a.success then Some(a.sku) else None
  }

  function SyncedSku(a: ProductAttempt): Option<string> {
    if a.Tried? && a.success then Some(a.sku) else None
  }

  /** `failed_skus` lists the SKUs whose synchronization failed, in order; skipped products are not in it. */
  lemma {:induction false} TallyFailedSkus(attempts: seq<ProductAttempt>)
    ensures TallyProducts(attempts).failedSkus == Seqs.FilterMap(attempts, FailedSku)
    decreases |attempts|
  {
    if attempts != [] {
      TallyFailedSkus(attempts[..|attempts| - 1]);
    }
  }

  /** `successful` counts the products whose synchronization succeeded. */
  lemma {:induction false} TallySuccessful(attempts: seq<ProductAttempt>)
    ensures TallyProducts(attempts).successful == |Seqs.FilterMap(attempts, SyncedSku)|
    decreases |attempts|
  {
    if attempts != [] {
      TallySuccessful(attempts[..|attempts| - 1]);
    }
  }

  function TriedSku(a: ProductAttempt): Option<string> {
    if a.Tried? then Some(a.sku) else None
  }

  /** The SKU `sync_all_products` synchronizes a product under, if any. */
  function SkuToSync(p: Odoo.Product): Option<string> {
    if HasSku(p) then Some(p.sku.value) else None
  }

  /** The SKUs tried are the input's non-empty SKUs, in input order. */
  lemma {:induction false} TriedSkusOfInput(products: seq<Odoo.Product>, attempts: seq<ProductAttempt>)
    requires ProductAttemptsFor(products, attempts)
    ensures Seqs.FilterMap(attempts, TriedSku) == Seqs.FilterMap(products, SkuToSync)
    decreases |products|
  {
    if products != [] {
      var n := |products| - 1;
      assert ProductAttemptsFor(products[..n], attempts[..n]);
      TriedSkusOfInput(products[..n], attempts[..n]);
      assert TriedSku(attempts[n]) == SkuToSync(products[n]);
    }
  }

  /** `failed_skus` is a subsequence of the input's SKUs. */
  lemma FailedSkusFromInput(products: seq<Odoo.Product>, attempts: seq<ProductAttempt>)
    requires ProductAttemptsFor(products, attempts)
    ensures Seqs.Subsequence(TallyProducts(attempts).failedSkus, Seqs.FilterMap(products, SkuToSync))
  {
    TallyFailedSkus(attempts);
    TriedSkusOfInput(products, attempts);
    Seqs.FilterMapSubsequence(attempts, FailedSku, TriedSku);
  }

  /** The report of `sync_all_products`; it always says `success`. */
  datatype ProductsReport = ProductsReport(total: nat, tally: ProductTally)

  class ProductSynchronizer {
    const odoo: Odoo.OdooClient
    const magento: Magento.MagentoClient

    constructor (odoo: Odoo.OdooClient, magento: Magento.MagentoClient)
      ensures this.odoo == odoo && this.magento == magento
    {
      this.odoo := odoo;
      this.magento := magento;
    }

    /** The shop lookup of `sync_product`. */
    method FetchFromShop(sku: string, now: int) returns (page: Json)
      modifies magento
      ensures magento.history == old(magento.history) + [Magento.ProductFetched(sku, page)]
    {
      page := magento.GetProductBySku(sku, now);
    }

    /** The updates of `sync_product` once both systems know the product. */
    method PushUpdates(sku: string, p: Odoo.Product, now: int) returns (stockOk: bool, priceOk: bool, specialOk: bool)
      modifies magento
      ensures magento.history
              == old(magento.history)
                 + [Magento.StockUpdated(sku, p.quantity, stockOk), Magento.PriceUpdated(sku, p.retailPrice, priceOk)]
                 + if WantsSpecialPrice(p) then [Magento.SpecialPriceUpdated(sku, p.promoPrice.value, None, None, specialOk)]
                   else []
      ensures !WantsSpecialPrice(p) ==> specialOk
    {
      stockOk := magento.UpdateProductStock(sku, p.quantity, now);
      priceOk := magento.UpdateProductPrice(sku, p.retailPrice, now);
      specialOk := true;
      if WantsSpecialPrice(p) {
        specialOk := magento.UpdateProductSpecialPrice(sku, p.promoPrice.value, None, None, now);
      }
    }

    /**
     * `sync_product`: look the SKU up in the ERP, then in the shop, then
     * push stock, price and, when wanted, the special price; succeed iff
     * every update made succeeded.
     */
    method SyncProduct(sku: string, now: int)
      returns (r: ProductResult, ghost found: Option<Odoo.Product>, ghost page: Json,
               ghost stockOk: bool, ghost priceOk: bool, ghost specialOk: bool)
      modifies odoo, magento
      ensures odoo.db == old(odoo.db)
      ensures r.sku == sku
      ensures odoo.history == old(odoo.history) + [Odoo.ProductLookup(sku, found)]
      ensures found.None? ==> r.outcome == MissingInOdoo && unchanged(magento)
      ensures found.Some? ==>
                && found.value.sku == Some(sku)
                && magento.history
                   == old(magento.history) + ProductCalls(sku, found.value, page, stockOk, priceOk, specialOk)
                && (!Truthy(page) ==> r.outcome == MissingInMagento)
                && (Truthy(page) && !WantsSpecialPrice(found.value) ==> specialOk)
                && (Truthy(page) && stockOk && priceOk && specialOk ==> r.outcome == Synchronized)
                && (Truthy(page) && !(stockOk && priceOk && specialOk) ==>
                      r.outcome == FailedFor(FailedOperations(stockOk, priceOk, specialOk)))
      ensures |old(magento.history)| <= |magento.history|
      ensures magento.history[..|old(magento.history)|] == old(magento.history)
    {
      page, stockOk, priceOk, specialOk := Null, false, false, false;
      var product := odoo.GetProductBySku(sku);
      found := product;
      if product.None? {
        return ProductResult(MissingInOdoo, sku), found, page, stockOk, priceOk, specialOk;
      }
      var p := product.value;
      var shopProduct := FetchFromShop(sku, now);
      page := shopProduct;
      if !Truthy(shopProduct) {
        return ProductResult(MissingInMagento, sku), found, page, stockOk, priceOk, specialOk;
      }
      var stockResult, priceResult, specialResult := PushUpdates(sku, p, now);
      stockOk, priceOk, specialOk := stockResult, priceResult, specialResult;
      if stockResult && priceResult && specialResult {
        r := ProductResult(Synchronized, sku);
      } else {
        r := ProductResult(FailedFor(FailedOperations(stockResult, priceResult, specialResult)), sku);
      }
    }

    /**
     * `self.sync_product(sku)["success"]`, as the batch loop reads it: true
     * exactly when the shop calls this synchronization made are an accepted
     * synchronization of `sku`.
     */
    method SyncProductSucceeded(sku: string, now: int) returns (success: bool)
      modifies odoo, magento
      ensures odoo.db == old(odoo.db)
      ensures |old(odoo.history)| <= |odoo.history| && odoo.history[..|old(odoo.history)|] == old(odoo.history)
      ensures |old(magento.history)| <= |magento.history|
      ensures magento.history[..|old(magento.history)|] == old(magento.history)
      ensures success <==> ShopAccepted(magento.history, |old(magento.history)|, |magento.history|, sku)
    {
      ghost var h := magento.history;
      var result;
      ghost var found, page, stockOk, priceOk, specialOk;
      result, found, page, stockOk, priceOk, specialOk := SyncProduct(sku, now);
      if found.Some? {
        ProductCallsAccepted(h, sku, found.value, page, stockOk, priceOk, specialOk);
      }
      success := result.Succeeded();
    }

    /**
     * `sync_all_products`: every ERP product, in order; one without a SKU
     * counts as failed without being synchronized; a failed
     * synchronization adds its SKU to `failed_skus`. The shop's history
     * splits at `bounds` into one stretch per product, and a product counts
     * as successful exactly when its stretch is an accepted synchronization.
     */
    /**
     * One product of the batch: skipped without a SKU, otherwise
     * synchronized, with the outcome tied to the calls it added.
     */
    method SyncListed(p: Odoo.Product, now: int) returns (attempt: ProductAttempt)
      modifies odoo, magento
      ensures odoo.db == old(odoo.db)
      ensures attempt.NoSku? <==> !HasSku(p)
      ensures attempt.Tried? ==> attempt.sku == p.sku.value
      ensures |old(odoo.history)| <= |odoo.history| && odoo.history[..|old(odoo.history)|] == old(odoo.history)
      ensures |old(magento.history)| <= |magento.history|
      ensures magento.history[..|old(magento.history)|] == old(magento.history)
      ensures attempt.NoSku? ==> magento.history == old(magento.history)
      ensures attempt.Tried? ==>
                (attempt.success <==> ShopAccepted(magento.history, |old(magento.history)|, |magento.history|, attempt.sku))
    {
      var sku := p.sku;
      if sku.None? || sku.value == "" {
        attempt := NoSku;
      } else {
        var success := SyncProductSucceeded(sku.value, now);
        attempt := Tried(sku.value, success);
      }
    }

    method SyncAllProducts(clock: nat -> int)
      returns (report: ProductsReport, ghost listed: seq<Odoo.Product>, ghost attempts: seq<ProductAttempt>,
               ghost bounds: seq<int>)
      modifies odoo, magento
      ensures odoo.db == old(odoo.db)
      ensures |old(odoo.history)| < |odoo.history|
      ensures odoo.history[|old(odoo.history)|] == Odoo.ProductsListed(None, listed)
      ensures ProductAttemptsFor(listed, attempts)
      ensures report == ProductsReport(|listed|, TallyProducts(attempts))
      ensures |old(magento.history)| <= |magento.history|
      ensures magento.history[..|old(magento.history)|] == old(magento.history)
      ensures ProductStretches(magento.history, |old(magento.history)|, attempts, bounds)
    {
      var products := odoo.GetAllProducts(None);
      listed := products;
      var successful, failed := 0, 0;
      var failedSkus: seq<string> := [];
      attempts := [];
      bounds := [|magento.history|];
      var i := 0;
      while i < |products|
        invariant 0 <= i <= |products|
        invariant ProductAttemptsFor(products[..i], attempts)
        invariant ProductTally(successful, failed, failedSkus) == TallyProducts(attempts)
        invariant |old(odoo.history)| < |odoo.history|
        invariant odoo.history[|old(odoo.history)|] == Odoo.ProductsListed(None, listed)
        invariant |old(magento.history)| <= |magento.history|
        invariant magento.history[..|old(magento.history)|] == old(magento.history)
        invariant ProductStretches(magento.history, |old(magento.history)|, attempts, bounds)
        invariant odoo.db == old(odoo.db)
      {
        ghost var h, oh := magento.history, odoo.history;
        var attempt := SyncListed(products[i], clock(i));
        assert odoo.history[|old(odoo.history)|] == oh[|old(odoo.history)|];
        assert magento.history[..|old(magento.history)|] == h[..|old(magento.history)|];
        match attempt {
          case NoSku =>
            failed := failed + 1;
          case Tried(sku, success) =>
            if success {
              successful := successful + 1;
            } else {
              failed := failed + 1;
              failedSkus := failedSkus + [sku];
            }
        }
        ProductStretchesExtend(h, magento.history, |old(magento.history)|, attempts, bounds, attempt);
        ProductAttemptStep(products, i, attempts, attempt);
        assert (attempts + [attempt])[..|attempts|] == attempts;
        attempts := attempts + [attempt];
        bounds := bounds + [|magento.history|];
        i := i + 1;
      }
      assert products[..|products|] == products;
      report := ProductsReport(|products|, ProductTally(successful, failed, failedSkus));
    }
  }

  // ---------------------------------------------------------------------
  // Orders, shop to ERP
  // ---------------------------------------------------------------------

  /** `billing_address`, an empty dict when missing. */
  function Billing(order: Json): Json
    requires order.Obj?
  {
    Field(order, "billing_address", Obj(map[]))
  }

  /**
   * The street: the first element when the entry is a list, the entry
   * itself otherwise, "" when missing; None for an empty list (IndexError).
   */
  function StreetOf(billing: Json): (street: Option<Json>)
    requires billing.Obj?
    ensures "street" !in billing.fields ==> street == Some(Str(""))
    ensures street.None? <==> "street" in billing.fields && billing.fields["street"] == Arr([])
    ensures street.Some? && "street" in billing.fields && billing.fields["street"].Arr? ==>
              street.value == billing.fields["street"].elems[0]
    ensures "street" in billing.fields && !billing.fields["street"].Arr? ==> street == Some(billing.fields["street"])
  {
    if "street" !in billing.fields then Some(Str(""))
    else
      match billing.fields["street"]
      case Arr(a) => if a == [] then None else Some(a[0])
      case v => Some(v)
  }

  /** First and last name (as `str()` shows them, "" when missing) joined by one space. */
  function JoinedName(billing: Json): string
    requires billing.Obj?
  {
    Show(Field(billing, "firstname", Str(""))) + " " + Show(Field(billing, "lastname", Str("")))
  }

  /**
   * The customer's name: the joined first and last name with the
   * whitespace at both ends removed, and nothing else.
   */
  function CustomerName(billing: Json): (name: string)
    requires billing.Obj?
    ensures name == [] || (!Text.IsSpace(name[0]) && !Text.IsSpace(name[|name| - 1]))
    ensures exists lo :: Text.Padded(JoinedName(billing), lo, name)
  {
    Text.Strip(JoinedName(billing))
  }

  /** Without a first name, the name is the last name alone, with no stray space in front. */
  lemma CustomerNameWithoutFirst(last: string, billing: Json)
    requires billing.Obj? && "firstname" !in billing.fields
    requires "lastname" in billing.fields && billing.fields["lastname"] == Str(last)
    requires last == [] || (!Text.IsSpace(last[0]) && !Text.IsSpace(last[|last| - 1]))
    ensures CustomerName(billing) == last
  {
    assert JoinedName(billing) == " " + last;
    assert (" " + last)[1..1 + |last|] == last;
    Text.StripUnique(" " + last, 1, last);
  }

  /** Without a last name, the name is the first name alone, with no stray space after it. */
  lemma CustomerNameWithoutLast(first: string, billing: Json)
    requires billing.Obj? && "lastname" !in billing.fields
    requires "firstname" in billing.fields && billing.fields["firstname"] == Str(first)
    requires first == [] || (!Text.IsSpace(first[0]) && !Text.IsSpace(first[|first| - 1]))
    ensures CustomerName(billing) == first
  {
    assert JoinedName(billing) == first + " ";
    assert (first + " ")[0..|first|] == first;
    Text.StripUnique(first + " ", 0, first);
  }

  /** Two names without surrounding whitespace are joined by exactly one space. */
  lemma CustomerNameJoins(first: string, last: string, billing: Json)
    requires first != [] && !Text.IsSpace(first[0])
    requires last != [] && !Text.IsSpace(last[|last| - 1])
    requires billing.Obj? && billing.fields == map["firstname" := Str(first), "lastname" := Str(last)]
    ensures CustomerName(billing) == first + " " + last
  {
    var joined := first + " " + last;
    assert joined[0] == first[0] && joined[|joined| - 1] == last[|last| - 1];
    Text.StripUntrimmed(joined);
  }

  /**
   * `customer_data` of `sync_order`; None where building it raises (a
   * billing address that is not a dict, an empty street list).
   */
  function CustomerOf(order: Json): (c: Option<Odoo.Customer>)
    requires order.Obj?
    ensures c.Some? <==> Billing(order).Obj? && StreetOf(Billing(order)).Some?
    ensures c.Some? ==>
              && c.value.name == Str(CustomerName(Billing(order)))
              && c.value.email == Field(order, "customer_email", Str(""))
              && c.value.street == StreetOf(Billing(order)).value
    ensures c.Some? ==>
              && c.value.phone == Field(Billing(order), "telephone", Str(""))
              && c.value.city == Field(Billing(order), "city", Str(""))
              && c.value.zip == Field(Billing(order), "postcode", Str(""))
              && c.value.countryCode == Field(Billing(order), "country_id", Str(""))
  {
    var billing := Billing(order);
    if !billing.Obj? then None
    else
      match StreetOf(billing)
      case None => None
      case Some(street) =>
        Some(Odoo.Customer(
          Str(CustomerName(billing)), Field(order, "customer_email", Str("")),
          Field(billing, "telephone", Str("")), street, Field(billing, "city", Str("")),
          Field(billing, "postcode", Str("")), Field(billing, "country_id", Str(""))))
  }

  /** One order line: SKU ("" when missing), ordered quantity (1) and price (0); None for an item that is not a dict. */
  function LineOf(item: Json): (line: Option<Odoo.LineRequest>)
    ensures line.Some? <==> item.Obj?
    ensures line.Some? ==> line.value.sku.Some? && line.value.quantity.Some? && line.value.priceUnit.Some?
    ensures line.Some? ==> line.value.sku.value == Field(item, "sku", Str(""))
    ensures line.Some? ==> line.value.quantity.value == Field(item, "qty_ordered", Int(1))
    ensures line.Some? ==> line.value.priceUnit.value == Field(item, "price", Int(0))
  {
    if !item.Obj? then None
    else
      Some(Odoo.LineRequest(
        Some(Field(item, "sku", Str(""))), Some(Field(item, "qty_ordered", Int(1))), Some(Field(item, "price", Int(0)))))
  }

  /** One line per item, in order; None when some item is not a dict. */
  function LinesOf(items: seq<Json>): (lines: Option<seq<Odoo.LineRequest>>)
    ensures lines.Some? <==> forall i :: 0 <= i < |items| ==> items[i].Obj?
    ensures lines.Some? ==> |lines.value| == |items|
    ensures lines.Some? ==> forall i :: 0 <= i < |items| ==> LineOf(items[i]) == Some(lines.value[i])
    decreases |items|
  {
    if items == [] then Some([])
    else
      match LinesOf(items[..|items| - 1])
      case None => None
      case Some(front) =>
        match LineOf(items[|items| - 1])
        case None => None
        case Some(line) => Some(front + [line])
  }

  /**
   * The order lines `sync_order` builds from an order's `items` (an empty
   * list when missing); None where iterating them raises: a list with an
   * item that is not a dict, a non-empty dict (its keys are strings), or
   * a value that cannot be iterated.
   */
  function OrderLines(items: Json): (lines: Option<seq<Odoo.LineRequest>>)
    ensures items.Arr? ==> (lines.Some? <==> forall i :: 0 <= i < |items.elems| ==> items.elems[i].Obj?)
    ensures items.Arr? && lines.Some? ==>
              |lines.value| == |items.elems| &&
              forall i :: 0 <= i < |items.elems| ==> LineOf(items.elems[i]) == Some(lines.value[i])
    ensures items.Obj? ==> (lines.Some? <==> items.fields == map[]) && (lines.Some? ==> lines.value == [])
    ensures !items.Arr? && !items.Str? && !items.Obj? ==> lines.None?
  {
    match Magento.Extended(items)
    case None => None
    case Some(elems) => LinesOf(elems)
  }

  /** A string of items yields lines only when empty: its characters are not dicts. */
  lemma OrderLinesOfString(s: string)
    ensures OrderLines(Str(s)).Some? <==> s == []
    ensures s == [] ==> OrderLines(Str(s)) == Some([])
  {
    Magento.ExtendedString(s);
    if s != [] {
      assert !Magento.Extended(Str(s)).value[0].Obj?;
    }
  }

  /** The customer data and the order lines `sync_order` hands to the ERP, when it gets that far. */
  function Extract(order: Json): (r: Option<(Odoo.Customer, seq<Odoo.LineRequest>)>)
    requires order.Obj?
    ensures r.Some? <==> CustomerOf(order).Some? && OrderLines(Field(order, "items", Arr([]))).Some?
    ensures r.Some? ==> r.value.0 == CustomerOf(order).value
    ensures r.Some? ==> r.value.1 == OrderLines(Field(order, "items", Arr([]))).value
    ensures "items" !in order.fields && CustomerOf(order).Some? ==> r.Some? && r.value.1 == []
  {
    match CustomerOf(order)
    case None => None
    case Some(customer) =>
      match OrderLines(Field(order, "items", Arr([])))
      case None => None
      case Some(lines) => Some((customer, lines))
  }

  /** Why `sync_order` answered as it did; Malformed is its exception branch. */
  datatype OrderOutcome = OrderMissing | Malformed | CreationFailed | Created(odooOrderId: nat)

  datatype OrderResult = OrderResult(outcome: OrderOutcome, ordersSynced: seq<Json>) {
    predicate Succeeded() {
      outcome.Created?
    }
  }

  /** At position `k` of the ERP's call history, a sale order was created with a truthy id for the shop order `orderId`. */
  ghost predicate RecordedAt(h: seq<Odoo.OdooCall>, k: int, orderId: Json) {
    0 <= k < |h| && h[k].SaleOrderCreated? && h[k].externalId == orderId && h[k].orderId.Some? && h[k].orderId.value != 0
  }

  /** Calls appended later do not change what was recorded before them. */
  lemma RecordedStable(h: seq<Odoo.OdooCall>, h': seq<Odoo.OdooCall>, k: int, orderId: Json)
    requires k < |h| <= |h'| && h'[..|h|] == h
    ensures RecordedAt(h', k, orderId) <==> RecordedAt(h, k, orderId)
  {
    if 0 <= k {
      assert h'[k] == h'[..|h|][k];
    }
  }

  /** The ERP history from `lo` to `hi` is exactly one call, recording `orderId`. */
  ghost predicate RecordedIn(h: seq<Odoo.OdooCall>, lo: int, hi: int, orderId: Json) {
    hi == lo + 1 && RecordedAt(h, lo, orderId)
  }

  /** One order of `sync_new_orders`: skipped for a falsy `entity_id`, or synchronized with some success. */
  datatype OrderAttempt = NoEntityId | Sent(orderId: Json, success: bool)

  /** `order.get("entity_id", "")`. */
  function EntityId(order: Json): Json
    requires order.Obj?
  {
    Field(order, "entity_id", Str(""))
  }

  /** `attempts` were made for the first |attempts| of `orders`, one each, in order. */
  ghost predicate OrderAttemptsFor(orders: seq<Json>, attempts: seq<OrderAttempt>) {
    && |attempts| <= |orders|
    && forall i :: 0 <= i < |attempts| ==>
         && orders[i].Obj?
         && (attempts[i].NoEntityId? <==> !Truthy(EntityId(orders[i])))
         && (attempts[i].Sent? ==> attempts[i].orderId == EntityId(orders[i]))
  }

  /** One more attempt, made for the next order, extends the attempts. */
  lemma OrderAttemptStep(orders: seq<Json>, attempts: seq<OrderAttempt>, a: OrderAttempt)
    requires OrderAttemptsFor(orders, attempts) && |attempts| < |orders| && orders[|attempts|].Obj?
    requires a.NoEntityId? <==> !Truthy(EntityId(orders[|attempts|]))
    requires a.Sent? ==> a.orderId == EntityId(orders[|attempts|])
    ensures OrderAttemptsFor(orders, attempts + [a])
  {
    var attempts' := attempts + [a];
    forall i | 0 <= i < |attempts'|
      ensures && orders[i].Obj?
              && (attempts'[i].NoEntityId? <==> !Truthy(EntityId(orders[i])))
              && (attempts'[i].Sent? ==> attempts'[i].orderId == EntityId(orders[i]))
    {
      if i < |attempts| {
        assert attempts'[i] == attempts[i];
      }
    }
  }

  /** The `results` counters of `sync_new_orders`. */
  datatype OrderTally = OrderTally(successful: nat, failed: nat, failedOrders: seq<Json>, syncedOrders: seq<Json>)

  function CountOrder(t: OrderTally, a: OrderAttempt): OrderTally {
    match a
    case NoEntityId => t.(failed := t.failed + 1)
    case Sent(orderId, success) =>
      if success then t.(successful := t.successful + 1, syncedOrders := t.syncedOrders + [orderId])
      else t.(failed := t.failed + 1, failedOrders := t.failedOrders + [orderId])
  }

  function TallyOrders(attempts: seq<OrderAttempt>): (t: OrderTally)
    ensures t.successful + t.failed == |attempts|
    ensures t.successful == |t.syncedOrders|
    ensures |t.failedOrders| <= t.failed
    decreases |attempts|
  {
    if attempts == [] then OrderTally(0, 0, [], [])
    else CountOrder(TallyOrders(attempts[..|attempts| - 1]), attempts[|attempts| - 1])
  }

  function SentId(a: OrderAttempt): Option<Json> {
    if a.Sent? then Some(a.orderId) else None
  }

  function SyncedId(a: OrderAttempt): Option<Json> {
    if a.Sent? && a.success then Some(a.orderId) else None
  }

  function FailedId(a: OrderAttempt): Option<Json> {
    if a.Sent? && !a.success then Some(a.orderId) else None
  }

  /** `synced_orders` and `failed_orders` list the synchronized and the failed order ids, each in order. */
  lemma {:induction false} TallyOrderLists(attempts: seq<OrderAttempt>)
    ensures TallyOrders(attempts).syncedOrders == Seqs.FilterMap(attempts, SyncedId)
    ensures TallyOrders(attempts).failedOrders == Seqs.FilterMap(attempts, FailedId)
    decreases |attempts|
  {
    if attempts != [] {
      TallyOrderLists(attempts[..|attempts| - 1]);
    }
  }

  /** Every order actually sent is in exactly one of `synced_orders` and `failed_orders`. */
  lemma {:induction false} TallyOrdersPartition(attempts: seq<OrderAttempt>)
    ensures multiset(TallyOrders(attempts).syncedOrders) + multiset(TallyOrders(attempts).failedOrders)
            == multiset(Seqs.FilterMap(attempts, SentId))
    decreases |attempts|
  {
    if attempts != [] {
      TallyOrdersPartition(attempts[..|attempts| - 1]);
    }
  }

  /** The order id `sync_new_orders` synchronizes an order under, if any. */
  function IdToSync(order: Json): Option<Json> {
    if order.Obj? && Truthy(EntityId(order)) then Some(EntityId(order)) else None
  }

  /** The order ids sent are the input's truthy `entity_id`s, in input order. */
  lemma {:induction false} SentIdsOfInput(orders: seq<Json>, attempts: seq<OrderAttempt>)
    requires OrderAttemptsFor(orders, attempts)
    ensures Seqs.FilterMap(attempts, SentId) == Seqs.FilterMap(orders[..|attempts|], IdToSync)
    decreases |attempts|
  {
    if attempts != [] {
      var n := |attempts| - 1;
      assert OrderAttemptsFor(orders, attempts[..n]);
      SentIdsOfInput(orders, attempts[..n]);
      assert orders[..|attempts|][..n] == orders[..n];
      assert SentId(attempts[n]) == IdToSync(orders[n]);
    }
  }

  /** `synced_orders` and `failed_orders` are subsequences of the input's order ids. */
  lemma OrderListsFromInput(orders: seq<Json>, attempts: seq<OrderAttempt>)
    requires OrderAttemptsFor(orders, attempts)
    ensures Seqs.Subsequence(TallyOrders(attempts).syncedOrders, Seqs.FilterMap(orders[..|attempts|], IdToSync))
    ensures Seqs.Subsequence(TallyOrders(attempts).failedOrders, Seqs.FilterMap(orders[..|attempts|], IdToSync))
  {
    TallyOrderLists(attempts);
    SentIdsOfInput(orders, attempts);
    Seqs.FilterMapSubsequence(attempts, SyncedId, SentId);
    Seqs.FilterMapSubsequence(attempts, FailedId, SentId);
  }

  /**
   * The ERP history `h` from position `base` on splits at `bounds` into
   * one stretch of at most one call per attempt: empty for an order
   * without an id, and for an order sent a sale order recorded for it
   * exactly when the attempt succeeded.
   */
  ghost predicate OrderStretches(h: seq<Odoo.OdooCall>, base: int, attempts: seq<OrderAttempt>, bounds: seq<int>) {
    && |bounds| == |attempts| + 1 && bounds[0] == base && bounds[|attempts|] == |h|
    && (forall j :: 0 <= j <= |attempts| ==> base <= bounds[j] <= |h|)
    && (forall j :: 0 <= j < |attempts| ==> bounds[j] <= bounds[j + 1] <= bounds[j] + 1)
    && (forall j :: 0 <= j < |attempts| && attempts[j].NoEntityId? ==> bounds[j] == bounds[j + 1])
    && (forall j :: 0 <= j < |attempts| && attempts[j].Sent? ==>
          (attempts[j].success <==> RecordedIn(h, bounds[j], bounds[j + 1], attempts[j].orderId)))
  }

  /** One more attempt, with the calls it made appended, keeps the split. */
  lemma OrderStretchesExtend(h: seq<Odoo.OdooCall>, h': seq<Odoo.OdooCall>, base: int,
                             attempts: seq<OrderAttempt>, bounds: seq<int>, a: OrderAttempt)
    requires OrderStretches(h, base, attempts, bounds)
    requires |h| <= |h'| <= |h| + 1 && h'[..|h|] == h
    requires a.NoEntityId? ==> h' == h
    requires a.Sent? ==> (a.success <==> RecordedIn(h', |h|, |h'|, a.orderId))
    ensures OrderStretches(h', base, attempts + [a], bounds + [|h'|])
  {
    var attempts', bounds' := attempts + [a], bounds + [|h'|];
    forall j | 0 <= j < |attempts| && attempts[j].Sent?
      ensures attempts'[j].success <==> RecordedIn(h', bounds'[j], bounds'[j + 1], attempts'[j].orderId)
    {
      if bounds[j] < |h| {
        RecordedStable(h, h', bounds[j], attempts[j].orderId);
      }
    }
  }

  /** Every order counted as synchronized has its own sale order in the ERP history. */
  lemma SyncedOrdersRecorded(h: seq<Odoo.OdooCall>, base: int, attempts: seq<OrderAttempt>, bounds: seq<int>, j: int)
    requires OrderStretches(h, base, attempts, bounds)
    requires 0 <= j < |attempts| && attempts[j].Sent? && attempts[j].success
    ensures RecordedAt(h, bounds[j], attempts[j].orderId)
    ensures forall j' :: 0 <= j' < |attempts| && j' != j ==> bounds[j'] != bounds[j] || bounds[j'] == bounds[j' + 1]
  {
    assert RecordedIn(h, bounds[j], bounds[j + 1], attempts[j].orderId);
    forall j' | 0 <= j' < |attempts| && j' != j && bounds[j'] < bounds[j' + 1]
      ensures bounds[j'] != bounds[j]
    {
      if j < j' {
        StretchesOrdered(bounds, |attempts|, j, j');
      } else {
        StretchesOrdered(bounds, |attempts|, j', j);
      }
    }
  }

  /** Monotone bounds: a stretch ends no later than any later one starts. */
  lemma {:induction false} StretchesOrdered(bounds: seq<int>, n: int, j: int, j': int)
    requires |bounds| == n + 1
    requires forall k :: 0 <= k < n ==> bounds[k] <= bounds[k + 1]
    requires 0 <= j < j' < n
    ensures bounds[j + 1] <= bounds[j']
    decreases j' - j
  {
    if j + 1 < j' {
      StretchesOrdered(bounds, n, j + 1, j');
    }
  }

  /** The report of `sync_new_orders`; Failed is its exception branch. */
  datatype OrdersReport = NewOrdersSynced(total: nat, tally: OrderTally) | NewOrdersFailed {
    /** The report's `orders_synced` entry. */
    function OrdersSynced(): seq<Json> {
      if NewOrdersSynced? then tally.syncedOrders else []
    }
  }

  class OrderSynchronizer {
    const odoo: Odoo.OdooClient
    const magento: Magento.MagentoClient

    constructor (odoo: Odoo.OdooClient, magento: Magento.MagentoClient)
      ensures this.odoo == odoo && this.magento == magento
    {
      this.odoo := odoo;
      this.magento := magento;
    }

    /** The loop of `sync_order` over the order's items. */
    method ExtractOrderLines(items: Json) returns (lines: Option<seq<Odoo.LineRequest>>)
      ensures lines == OrderLines(items)
    {
      var elems := Magento.Extended(items);
      if elems.None? {
        return None;
      }
      var list := elems.value;
      var found: seq<Odoo.LineRequest> := [];
      var i := 0;
      while i < |list|
        invariant 0 <= i <= |list|
        invariant LinesOf(list[..i]) == Some(found)
      {
        assert list[..i + 1][..i] == list[..i];
        var line := LineOf(list[i]);
        if line.None? {
          assert LinesOf(list) == None by {
            assert list[i] == list[..|list|][i];
          }
          return None;
        }
        found := found + [line.value];
        i := i + 1;
      }
      assert list[..|list|] == list;
      lines := Some(found);
    }

    /**
     * `sync_order`: fetch the order from the shop, build the customer data
     * and the lines, and ask the ERP for a sale order referring to the
     * shop order; succeed iff the ERP answers with a truthy id.
     */
    method SyncOrder(orderId: Json, now: int)
      returns (r: OrderResult, ghost order: Json, ghost created: Option<nat>)
      modifies odoo, magento
      ensures magento.history == old(magento.history) + [Magento.OrderFetched(orderId, order)]
      ensures !Truthy(order) ==> r == OrderResult(OrderMissing, []) && unchanged(odoo)
      ensures Truthy(order) && (!order.Obj? || Extract(order).None?) ==>
                r == OrderResult(Malformed, []) && unchanged(odoo)
      ensures Truthy(order) && order.Obj? && Extract(order).Some? ==>
                && var (customer, lines) := Extract(order).value;
                && odoo.history == old(odoo.history) + [Odoo.SaleOrderCreated(customer, lines, orderId, created)]
                && odoo.SaleOrderOutcome(old(odoo.db), |old(odoo.rpcs)|, customer, lines, orderId, created)
                && r.Succeeded() == (created.Some? && created.value != 0)
      ensures r.Succeeded() ==> r == OrderResult(Created(created.value), [orderId])
      ensures !r.Succeeded() ==> r.ordersSynced == []
      ensures |old(odoo.history)| <= |odoo.history| <= |old(odoo.history)| + 1
      ensures odoo.history[..|old(odoo.history)|] == old(odoo.history)
      ensures r.Succeeded() <==> RecordedIn(odoo.history, |old(odoo.history)|, |odoo.history|, orderId)
    {
      created := None;
      var fetched := magento.GetOrderById(orderId, now);
      order := fetched;
      if !Truthy(fetched) {
        return OrderResult(OrderMissing, []), order, created;
      }
      if !fetched.Obj? {
        return OrderResult(Malformed, []), order, created;
      }
      var customer := CustomerOf(fetched);
      if customer.None? {
        return OrderResult(Malformed, []), order, created;
      }
      var lines := ExtractOrderLines(Field(fetched, "items", Arr([])));
      if lines.None? {
        return OrderResult(Malformed, []), order, created;
      }
      r, created := RecordSaleOrder(customer.value, lines.value, orderId);
    }

    /** The end of `sync_order`: the ERP call and the answer built from its id. */
    method RecordSaleOrder(customer: Odoo.Customer, lines: seq<Odoo.LineRequest>, orderId: Json)
      returns (r: OrderResult, ghost created: Option<nat>)
      modifies odoo
      ensures odoo.history == old(odoo.history) + [Odoo.SaleOrderCreated(customer, lines, orderId, created)]
      ensures odoo.SaleOrderOutcome(old(odoo.db), |old(odoo.rpcs)|, customer, lines, orderId, created)
      ensures r.Succeeded() == (created.Some? && created.value != 0)
      ensures r.Succeeded() ==> r == OrderResult(Created(created.value), [orderId])
      ensures !r.Succeeded() ==> r == OrderResult(CreationFailed, [])
      ensures r.Succeeded() <==> RecordedIn(odoo.history, |old(odoo.history)|, |odoo.history|, orderId)
    {
      var odooOrderId := odoo.CreateSaleOrder(customer, lines, orderId);
      created := odooOrderId;
      assert odoo.history[|old(odoo.history)|] == Odoo.SaleOrderCreated(customer, lines, orderId, created);
      if odooOrderId.Some? && odooOrderId.value != 0 {
        r := OrderResult(Created(odooOrderId.value), [orderId]);
      } else {
        r := OrderResult(CreationFailed, []);
      }
    }

    /** `self.sync_order(order_id)["success"]`, as the batch loop reads it. */
    method SyncOrderSucceeded(orderId: Json, now: int) returns (success: bool)
      modifies odoo, magento
      ensures odoo.db.products == old(odoo.db.products) && odoo.db.countries == old(odoo.db.countries)
      ensures |old(magento.history)| <= |magento.history|
      ensures magento.history[..|old(magento.history)|] == old(magento.history)
      ensures |old(odoo.history)| <= |odoo.history| <= |old(odoo.history)| + 1
      ensures odoo.history[..|old(odoo.history)|] == old(odoo.history)
      ensures success <==> RecordedIn(odoo.history, |old(odoo.history)|, |odoo.history|, orderId)
    {
      var result, _, _ := SyncOrder(orderId, now);
      success := result.Succeeded();
    }

    /** One order of the batch: counted as failed without an id, otherwise synchronized. */
    method SyncListed(order: Json, now: int) returns (attempt: OrderAttempt)
      requires order.Obj?
      modifies odoo, magento
      ensures odoo.db.products == old(odoo.db.products) && odoo.db.countries == old(odoo.db.countries)
      ensures attempt.NoEntityId? <==> !Truthy(EntityId(order))
      ensures attempt.Sent? ==> attempt.orderId == EntityId(order)
      ensures |old(magento.history)| <= |magento.history|
      ensures magento.history[..|old(magento.history)|] == old(magento.history)
      ensures |old(odoo.history)| <= |odoo.history| <= |old(odoo.history)| + 1
      ensures odoo.history[..|old(odoo.history)|] == old(odoo.history)
      ensures attempt.NoEntityId? ==> odoo.history == old(odoo.history)
      ensures attempt.Sent? ==>
                (attempt.success <==> RecordedIn(odoo.history, |old(odoo.history)|, |odoo.history|, attempt.orderId))
    {
      var orderId := EntityId(order);
      if !Truthy(orderId) {
        attempt := NoEntityId;
      } else {
        var success := SyncOrderSucceeded(orderId, now);
        attempt := Sent(orderId, success);
      }
    }

    /** The shop query of `sync_new_orders`. */
    method FetchNewOrders(now: int) returns (orders: Option<seq<Json>>)
      modifies magento
      ensures |magento.history| == |old(magento.history)| + 3
      ensures magento.history[..|old(magento.history)|] == old(magento.history)
      ensures magento.history[|old(magento.history)| + 2] == Magento.NewOrdersFetched(orders)
    {
      ghost var pending, processing;
      orders, pending, processing := magento.GetNewOrders(now);
    }

    /** The loop of `sync_new_orders` over the fetched orders. */
    method SyncOrders(orders: seq<Json>, clock: nat -> int)
      returns (report: OrdersReport, ghost attempts: seq<OrderAttempt>, ghost bounds: seq<int>)
      modifies odoo, magento
      ensures odoo.db.products == old(odoo.db.products) && odoo.db.countries == old(odoo.db.countries)
      ensures |old(magento.history)| <= |magento.history|
      ensures magento.history[..|old(magento.history)|] == old(magento.history)
      ensures OrderAttemptsFor(orders, attempts)
      ensures report.NewOrdersSynced? <==> forall o :: o in orders ==> o.Obj?
      ensures report.NewOrdersSynced? ==> |attempts| == |orders| && report == NewOrdersSynced(|orders|, TallyOrders(attempts))
      ensures report.NewOrdersFailed? ==> |attempts| < |orders| && !orders[|attempts|].Obj?
      ensures |old(odoo.history)| <= |odoo.history|
      ensures odoo.history[..|old(odoo.history)|] == old(odoo.history)
      ensures OrderStretches(odoo.history, |old(odoo.history)|, attempts, bounds)
    {
      attempts := [];
      bounds := [|odoo.history|];
      var successful, failed := 0, 0;
      var failedOrders: seq<Json> := [];
      var syncedOrders: seq<Json> := [];
      var i := 0;
      while i < |orders|
        invariant 0 <= i <= |orders|
        invariant |attempts| == i && OrderAttemptsFor(orders, attempts)
        invariant OrderTally(successful, failed, failedOrders, syncedOrders) == TallyOrders(attempts)
        invariant |old(magento.history)| <= |magento.history|
        invariant magento.history[..|old(magento.history)|] == old(magento.history)
        invariant |old(odoo.history)| <= |odoo.history|
        invariant odoo.history[..|old(odoo.history)|] == old(odoo.history)
        invariant OrderStretches(odoo.history, |old(odoo.history)|, attempts, bounds)
        invariant odoo.db.products == old(odoo.db.products) && odoo.db.countries == old(odoo.db.countries)
      {
        var order := orders[i];
        if !order.Obj? {
          return NewOrdersFailed, attempts, bounds;
        }
        ghost var h, mh := odoo.history, magento.history;
        var attempt := SyncListed(order, clock(i + 1));
        assert odoo.history[..|old(odoo.history)|] == h[..|old(odoo.history)|];
        assert magento.history[..|old(magento.history)|] == mh[..|old(magento.history)|];
        match attempt {
          case NoEntityId =>
            failed := failed + 1;
          case Sent(orderId, success) =>
            if success {
              successful := successful + 1;
              syncedOrders := syncedOrders + [orderId];
            } else {
              failed := failed + 1;
              failedOrders := failedOrders + [orderId];
            }
        }
        OrderStretchesExtend(h, odoo.history, |old(odoo.history)|, attempts, bounds, attempt);
        OrderAttemptStep(orders, attempts, attempt);
        assert (attempts + [attempt])[..|attempts|] == attempts;
        attempts := attempts + [attempt];
        bounds := bounds + [|odoo.history|];
        i := i + 1;
      }
      report := NewOrdersSynced(|orders|, OrderTally(successful, failed, failedOrders, syncedOrders));
    }

    /**
     * `sync_new_orders`: fetch the new orders, then synchronize each one
     * with a truthy `entity_id`, counting the others as failed. An order
     * that is not a dict ends the batch in the exception branch.
     */
    method SyncNewOrders(clock: nat -> int)
      returns (report: OrdersReport, ghost newOrders: Option<seq<Json>>, ghost attempts: seq<OrderAttempt>,
               ghost bounds: seq<int>)
      modifies odoo, magento
      ensures odoo.db.products == old(odoo.db.products) && odoo.db.countries == old(odoo.db.countries)
      ensures |old(magento.history)| + 3 <= |magento.history|
      ensures magento.history[|old(magento.history)| + 2] == Magento.NewOrdersFetched(newOrders)
      ensures newOrders.None? ==> report == NewOrdersFailed && attempts == [] && odoo.history == old(odoo.history)
      ensures newOrders.Some? ==> OrderAttemptsFor(newOrders.value, attempts)
      ensures report.NewOrdersSynced? <==> newOrders.Some? && forall o :: o in newOrders.value ==> o.Obj?
      ensures report.NewOrdersSynced? ==>
                |attempts| == |newOrders.value| && report == NewOrdersSynced(|newOrders.value|, TallyOrders(attempts))
      ensures newOrders.Some? && report.NewOrdersFailed? ==>
                |attempts| < |newOrders.value| && !newOrders.value[|attempts|].Obj?
      ensures |old(odoo.history)| <= |odoo.history|
      ensures odoo.history[..|old(odoo.history)|] == old(odoo.history)
      ensures OrderStretches(odoo.history, |old(odoo.history)|, attempts, bounds)
      ensures report.NewOrdersSynced? ==> report.OrdersSynced() == Seqs.FilterMap(attempts, SyncedId)
      ensures report.NewOrdersFailed? ==> report.OrdersSynced() == []
    {
      var fetched := FetchNewOrders(clock(0));
      newOrders := fetched;
      attempts := [];
      bounds := [|odoo.history|];
      if fetched.None? {
        return NewOrdersFailed, newOrders, attempts, bounds;
      }
      ghost var mh := magento.history;
      report, attempts, bounds := SyncOrders(fetched.value, clock);
      TallyOrderLists(attempts);
      assert magento.history[|old(magento.history)| + 2] == mh[|old(magento.history)| + 2];
    }
  }
}
