/**
 * `POST /api/improsoft/sync`: a batch of products from the IMPROSOFT point-of-sale system is
 * upserted by barcode into the raw IMPROSOFT list, and the prices of catalog products with
 * the same barcode are overwritten.
 */
module ImprosoftSync {
  import opened Common

  /**
   * A JSON field where a string is expected: the key may be missing (`undefined`), hold
   * `null`, or hold a string. Strict equality tells all three apart.
   */
  datatype JsonString = Missing | Null | Str(value: string)

  /** JavaScript truthiness of such a field: missing, `null` and "" are falsy. */
  predicate TruthyStr(v: JsonString) {
    v.Str? && v.value != ""
  }

  /** One incoming product; every field may be missing. */
  datatype SyncItem = SyncItem(name: Option<string>, barcode: JsonString, price: Option<int>)

  /**
   * One record of the raw IMPROSOFT list (the generated record id is not modelled). The
   * barcode is only ever compared with a non-empty string, so a missing and a `null`
   * barcode are both `None`.
   */
  datatype RawProduct = RawProduct(name: string, barcode: Option<string>, price: int, created_at: int, updated_at: Option<int>)

  /** The fields of a catalog product that the sync reads or writes. */
  datatype CatalogProduct = CatalogProduct(id: string, name: string, barcode: JsonString, price: int)

  /** The JSON body of a successful sync. */
  datatype SyncSummary = SyncSummary(added: nat, updated: nat, catalogUpdated: nat, total: nat)

  /** An item the raw upsert takes: it has a non-empty name and barcode. */
  predicate Usable(item: SyncItem) {
    Truthy(item.name) && TruthyStr(item.barcode)
  }

  /** Index of the first raw record with barcode `b`. */
  function FindBarcode(raw: seq<RawProduct>, b: string): (r: Option<nat>)
    ensures r.None? <==> forall k :: 0 <= k < |raw| ==> raw[k].barcode != Some(b)
    ensures r.Some? ==> (r.value < |raw| && raw[r.value].barcode == Some(b)
      && forall k :: 0 <= k < r.value ==> raw[k].barcode != Some(b))
  {
    if |raw| == 0 then None
    else if raw[0].barcode == Some(b) then Some(0)
    else match FindBarcode(raw[1..], b)
      case None => None
      case Some(k) => Some(k + 1)
  }

  /** A record carrying `b` with none before it is the one found. */
  lemma FindBarcodeAt(raw: seq<RawProduct>, b: string, k: nat)
    requires k < |raw| && raw[k].barcode == Some(b)
    requires forall j :: 0 <= j < k ==> raw[j].barcode != Some(b)
    ensures FindBarcode(raw, b) == Some(k)
  {
  }

  /** Rewriting a record without touching its barcode keeps the barcode set. */
  lemma UpdateKeepsBarcodes(raw: seq<RawProduct>, k: nat, rec: RawProduct)
    requires k < |raw| && rec.barcode == raw[k].barcode
    ensures Barcodes(raw[k := rec]) == Barcodes(raw)
  {
    var raw' := raw[k := rec];
    assert forall j :: 0 <= j < |raw'| ==> raw'[j].barcode == raw[j].barcode;
    forall x | x in Barcodes(raw) ensures x in Barcodes(raw') {
      var j :| 0 <= j < |raw| && raw[j].barcode.Some? && raw[j].barcode.value == x;
      assert raw'[j].barcode == raw[j].barcode;
    }
  }

  /** Appending a record with barcode `b` adds exactly `b`. */
  lemma AppendAddsBarcode(raw: seq<RawProduct>, rec: RawProduct, b: string)
    requires rec.barcode == Some(b)
    ensures Barcodes(raw + [rec]) == Barcodes(raw) + {b}
  {
    var raw' := raw + [rec];
    assert raw'[|raw|].barcode == Some(b);
    forall x | x in Barcodes(raw') ensures x in Barcodes(raw) + {b} {
      var j :| 0 <= j < |raw'| && raw'[j].barcode.Some? && raw'[j].barcode.value == x;
      if j < |raw| { assert raw[j] == raw'[j]; }
    }
    forall x | x in Barcodes(raw) ensures x in Barcodes(raw') {
      var j :| 0 <= j < |raw| && raw[j].barcode.Some? && raw[j].barcode.value == x;
      assert raw'[j] == raw[j];
    }
  }

  /** The set of barcodes present in the raw list. */
  ghost function Barcodes(raw: seq<RawProduct>): set<string> {
    set k | 0 <= k < |raw| && raw[k].barcode.Some? :: raw[k].barcode.value
  }

  /** No barcode occurs on two raw records. */
  ghost predicate UniqueBarcodes(raw: seq<RawProduct>) {
    forall i, j :: 0 <= i < j < |raw| && raw[i].barcode.Some? ==> raw[i].barcode != raw[j].barcode
  }

  /** Number of usable items. */
  function UsableCount(items: seq<SyncItem>): nat {
    if |items| == 0 then 0
    else UsableCount(items[..|items| - 1]) + (if Usable(items[|items| - 1]) then 1 else 0)
  }

  /** Barcodes of the usable items. */
  ghost function UsableBarcodes(items: seq<SyncItem>): set<string> {
    set k | 0 <= k < |items| && Usable(items[k]) :: items[k].barcode.value
  }

  /** The raw list with the counters of the upsert loop. */
  datatype RawSync = RawSync(raw: seq<RawProduct>, added: nat, updated: nat)

  /**
   * One turn of the upsert loop: an unusable item is skipped; a known barcode gets the new
   * name and, when the new price is non-zero, the new price; an unknown barcode is appended
   * with price `price || 0`.
   */
  function Upsert(acc: RawSync, item: SyncItem, now: int): (r: RawSync)
    ensures !Usable(item) ==> r == acc
    ensures Usable(item) ==> r.added + r.updated == acc.added + acc.updated + 1
    ensures |r.raw| == |acc.raw| + (r.added - acc.added) && r.added >= acc.added
    ensures Barcodes(r.raw) == Barcodes(acc.raw) + (if Usable(item) then {item.barcode.value} else {})
    ensures UniqueBarcodes(acc.raw) ==> UniqueBarcodes(r.raw)
    ensures Usable(item) && item.barcode.value in Barcodes(acc.raw) ==>
      r.added == acc.added && r.updated == acc.updated + 1 && |r.raw| == |acc.raw|
    ensures Usable(item) && item.barcode.value !in Barcodes(acc.raw) ==>
      r.added == acc.added + 1 && r.updated == acc.updated && |r.raw| == |acc.raw| + 1
  {
    if !Usable(item) then acc
    else
      var b := item.barcode.value;
      match FindBarcode(acc.raw, b)
      case Some(k) =>
        var existing := acc.raw[k];
        var rec := existing.(name := item.name.value,
                             price := if TruthyNum(item.price) then item.price.value else existing.price,
                             updated_at := Some(now));
        var raw' := acc.raw[k := rec];
        UpdateKeepsBarcodes(acc.raw, k, rec);
        RawSync(raw', acc.added, acc.updated + 1)
      case None =>
        var raw' := acc.raw + [RawProduct(item.name.value, Some(b), OrZero(item.price), now, None)];
        AppendAddsBarcode(acc.raw, raw'[|acc.raw|], b);
        RawSync(raw', acc.added + 1, acc.updated)
  }

  /**
   * What one upsert writes: afterwards the first record with the item's barcode is the
   * updated one, or the appended one when there was none; it has the item's name and the
   * item's non-zero price, else the old price (0 on append); every other record is unchanged.
   */
  lemma UpsertRecord(acc: RawSync, item: SyncItem, now: int)
    requires Usable(item)
    ensures var r := Upsert(acc, item, now);
      var b := item.barcode.value;
      var found := FindBarcode(acc.raw, b);
      var k := if found.Some? then found.value else |acc.raw|;
      && FindBarcode(r.raw, b) == Some(k)
      && r.raw[k].name == item.name.value
      && r.raw[k].price == (if TruthyNum(item.price) then item.price.value else if found.Some? then acc.raw[k].price else 0)
      && (found.Some? ==> r.raw[k].created_at == acc.raw[k].created_at && r.raw[k].updated_at == Some(now))
      && (found.None? ==> r.raw[k].created_at == now && r.raw[k].updated_at.None?)
      && forall j :: 0 <= j < |acc.raw| && j != k ==> r.raw[j] == acc.raw[j]
  {
    var r := Upsert(acc, item, now);
    var b := item.barcode.value;
    match FindBarcode(acc.raw, b)
    case Some(k) => FindBarcodeAt(r.raw, b, k);
    case None => FindBarcodeAt(r.raw, b, |acc.raw|);
  }

  /** The upsert loop over `items`, in order. */
  function SyncRaw(raw: seq<RawProduct>, items: seq<SyncItem>, now: int): (r: RawSync)
    ensures r.added + r.updated == UsableCount(items)
    ensures |r.raw| == |raw| + r.added
    decreases |items|
  {
    if |items| == 0 then RawSync(raw, 0, 0)
    else Upsert(SyncRaw(raw, items[..|items| - 1], now), items[|items| - 1], now)
  }

  /** One more item of the loop is one more Upsert step. */
  lemma SyncRawStep(raw: seq<RawProduct>, items: seq<SyncItem>, i: nat, now: int)
    requires i < |items|
    ensures SyncRaw(raw, items[..i + 1], now) == Upsert(SyncRaw(raw, items[..i], now), items[i], now)
  {
    assert items[..i + 1][..i] == items[..i];
  }

  /** Afterwards every usable item's barcode is in the list, and no barcode was removed. */
  lemma {:induction false} SyncRawBarcodes(raw: seq<RawProduct>, items: seq<SyncItem>, now: int)
    ensures Barcodes(SyncRaw(raw, items, now).raw) == Barcodes(raw) + UsableBarcodes(items)
    decreases |items|
  {
    if |items| == 0 {
      assert UsableBarcodes(items) == {};
    } else {
      var init := items[..|items| - 1];
      var last := items[|items| - 1];
      SyncRawBarcodes(raw, init, now);
      assert UsableBarcodes(items) == UsableBarcodes(init) + (if Usable(last) then {last.barcode.value} else {}) by {
        forall x | x in UsableBarcodes(items)
          ensures x in UsableBarcodes(init) + (if Usable(last) then {last.barcode.value} else {})
        {
          var k :| 0 <= k < |items| && Usable(items[k]) && items[k].barcode.value == x;
          if k < |init| { assert init[k] == items[k]; }
        }
        forall x | x in UsableBarcodes(init) ensures x in UsableBarcodes(items) {
          var k :| 0 <= k < |init| && Usable(init[k]) && init[k].barcode.value == x;
          assert items[k] == init[k];
        }
      }
    }
  }

  /** Barcodes stay unique: an upsert never appends a second record for a known barcode. */
  lemma {:induction false} SyncRawKeepsUnique(raw: seq<RawProduct>, items: seq<SyncItem>, now: int)
    requires UniqueBarcodes(raw)
    ensures UniqueBarcodes(SyncRaw(raw, items, now).raw)
    decreases |items|
  {
    if |items| > 0 {
      SyncRawKeepsUnique(raw, items[..|items| - 1], now);
    }
  }

  /** When every usable barcode is already known, the batch appends nothing. */
  lemma {:induction false} KnownBarcodesAddNothing(raw: seq<RawProduct>, items: seq<SyncItem>, now: int)
    requires UsableBarcodes(items) <= Barcodes(raw)
    ensures SyncRaw(raw, items, now).added == 0
    ensures |SyncRaw(raw, items, now).raw| == |raw|
    decreases |items|
  {
    if |items| > 0 {
      var init := items[..|items| - 1];
      var last := items[|items| - 1];
      assert UsableBarcodes(init) <= UsableBarcodes(items) by {
        forall x | x in UsableBarcodes(init) ensures x in UsableBarcodes(items) {
          var k :| 0 <= k < |init| && Usable(init[k]) && init[k].barcode.value == x;
          assert items[k] == init[k];
        }
      }
      KnownBarcodesAddNothing(raw, init, now);
      SyncRawBarcodes(raw, init, now);
      if Usable(last) {
        assert last.barcode.value in UsableBarcodes(items);
      }
    }
  }

  /** Sending the same batch twice: the second sync only updates, it never appends. */
  lemma ResyncAddsNothing(raw: seq<RawProduct>, items: seq<SyncItem>, now: int, later: int)
    ensures SyncRaw(SyncRaw(raw, items, now).raw, items, later).added == 0
    ensures SyncRaw(SyncRaw(raw, items, now).raw, items, later).updated == UsableCount(items)
  {
    SyncRawBarcodes(raw, items, now);
    KnownBarcodesAddNothing(SyncRaw(raw, items, now).raw, items, later);
  }

  /** Index of the first catalog product whose barcode is strictly equal to `b`, missing and `null` included. */
  function FindCatalog(catalog: seq<CatalogProduct>, b: JsonString): (r: Option<nat>)
    ensures r.None? <==> forall k :: 0 <= k < |catalog| ==> catalog[k].barcode != b
    ensures r.Some? ==> (r.value < |catalog| && catalog[r.value].barcode == b
      && forall k :: 0 <= k < r.value ==> catalog[k].barcode != b)
  {
    if |catalog| == 0 then None
    else if catalog[0].barcode == b then Some(0)
    else match FindCatalog(catalog[1..], b)
      case None => None
      case Some(k) => Some(k + 1)
  }

  /** The catalog with the counter of the price loop. */
  datatype CatalogSync = CatalogSync(catalog: seq<CatalogProduct>, updated: nat)

  /** Only prices differ between `a` and `b`. */
  predicate SamePricesAside(a: seq<CatalogProduct>, b: seq<CatalogProduct>) {
    |a| == |b| && forall k :: 0 <= k < |a| ==> b[k] == a[k].(price := b[k].price)
  }

  /** Does an item reprice some catalog product: it has a non-zero price and a barcode match. */
  predicate Reprices(catalog: seq<CatalogProduct>, item: SyncItem) {
    TruthyNum(item.price) && exists k :: 0 <= k < |catalog| && catalog[k].barcode == item.barcode
  }

  /** One turn of the price loop: the first product with the item's barcode takes its non-zero price. */
  function Reprice(acc: CatalogSync, item: SyncItem): (r: CatalogSync)
    ensures SamePricesAside(acc.catalog, r.catalog)
    ensures r.updated == acc.updated + (if Reprices(acc.catalog, item) then 1 else 0)
    ensures forall k :: 0 <= k < |acc.catalog| && acc.catalog[k].barcode != item.barcode ==>
      r.catalog[k] == acc.catalog[k]
    ensures var found := FindCatalog(acc.catalog, item.barcode);
      found.Some? && TruthyNum(item.price) ==> r.catalog[found.value].price == item.price.value
    ensures forall k :: 0 <= k < |acc.catalog| && FindCatalog(acc.catalog, item.barcode) != Some(k) ==>
      r.catalog[k] == acc.catalog[k]
    ensures !TruthyNum(item.price) ==> r == acc
  {
    match FindCatalog(acc.catalog, item.barcode)
    case Some(k) =>
      if TruthyNum(item.price) then
        CatalogSync(acc.catalog[k := acc.catalog[k].(price := item.price.value)], acc.updated + 1)
      else acc
    case None => acc
  }

  /** The price loop over `items`, in order. */
  function SyncCatalog(catalog: seq<CatalogProduct>, items: seq<SyncItem>): (r: CatalogSync)
    ensures SamePricesAside(catalog, r.catalog)
    ensures r.updated <= |items|
    decreases |items|
  {
    if |items| == 0 then CatalogSync(catalog, 0)
    else Reprice(SyncCatalog(catalog, items[..|items| - 1]), items[|items| - 1])
  }

  /** One more item of the loop is one more Reprice step. */
  lemma SyncCatalogStep(catalog: seq<CatalogProduct>, items: seq<SyncItem>, i: nat)
    requires i < |items|
    ensures SyncCatalog(catalog, items[..i + 1]) == Reprice(SyncCatalog(catalog, items[..i]), items[i])
  {
    assert items[..i + 1][..i] == items[..i];
  }

  /** Number of items that reprice some product of `catalog`. */
  function RepricingCount(catalog: seq<CatalogProduct>, items: seq<SyncItem>): nat {
    if |items| == 0 then 0
    else RepricingCount(catalog, items[..|items| - 1]) + (if Reprices(catalog, items[|items| - 1]) then 1 else 0)
  }

  /** `catalogUpdated` counts the items with a non-zero price and a barcode found in the catalog. */
  lemma {:induction false} SyncCatalogCount(catalog: seq<CatalogProduct>, items: seq<SyncItem>)
    ensures SyncCatalog(catalog, items).updated == RepricingCount(catalog, items)
    decreases |items|
  {
    if |items| > 0 {
      var init := items[..|items| - 1];
      var last := items[|items| - 1];
      SyncCatalogCount(catalog, init);
      var mid := SyncCatalog(catalog, init).catalog;
      assert Reprices(mid, last) == Reprices(catalog, last) by {
        assert forall k :: 0 <= k < |catalog| ==> mid[k].barcode == catalog[k].barcode;
      }
    }
  }

  /** A product whose barcode no item carries keeps its price. */
  lemma {:induction false} UntouchedProductKeepsPrice(catalog: seq<CatalogProduct>, items: seq<SyncItem>, k: nat)
    requires k < |catalog|
    requires forall j :: 0 <= j < |items| ==> items[j].barcode != catalog[k].barcode
    ensures SyncCatalog(catalog, items).catalog[k] == catalog[k]
    decreases |items|
  {
    if |items| > 0 {
      UntouchedProductKeepsPrice(catalog, items[..|items| - 1], k);
    }
  }

  /**
   * The price loop compares barcodes without checking that the item has one, so an item
   * whose barcode key is missing, which the raw upsert skips, reprices the first catalog
   * product whose barcode key is missing too.
   */
  lemma BarcodelessItemRepricesBarcodelessProduct()
    ensures var catalog := [CatalogProduct("p1", "Tea", Missing, 100)];
      var items := [SyncItem(Some("Tea"), Missing, Some(5))];
      SyncRaw([], items, 0).raw == [] &&
      SyncCatalog(catalog, items) == CatalogSync([CatalogProduct("p1", "Tea", Missing, 5)], 1)
  {
    var catalog := [CatalogProduct("p1", "Tea", Missing, 100)];
    var items := [SyncItem(Some("Tea"), Missing, Some(5))];
    assert items[..0] == [];
    assert FindCatalog(catalog, Missing) == Some(0);
  }

  /** A `null` barcode is not strictly equal to a missing one, so that product keeps its price. */
  lemma NullBarcodeSkipsMissingBarcode()
    ensures var catalog := [CatalogProduct("p1", "Tea", Missing, 100)];
      var items := [SyncItem(Some("Tea"), Null, Some(5))];
      SyncCatalog(catalog, items) == CatalogSync(catalog, 0)
  {
    var catalog := [CatalogProduct("p1", "Tea", Missing, 100)];
    var items := [SyncItem(Some("Tea"), Null, Some(5))];
    assert items[..0] == [];
    assert FindCatalog(catalog, Null) == None;
  }

  /** The raw list and the product catalog as the sync endpoint sees them. */
  class ImprosoftStore {
    var raw: seq<RawProduct>
    var catalog: seq<CatalogProduct>

    constructor (raw0: seq<RawProduct>, catalog0: seq<CatalogProduct>)
      ensures raw == raw0 && catalog == catalog0
    {
      raw := raw0;
      catalog := catalog0;
    }

    /**
     * Upserts the batch into the raw list, then reprices the catalog; a missing or
     * non-array batch is refused with HTTP 400 and changes nothing.
     */
    method Sync(products: Option<seq<SyncItem>>, now: int) returns (r: Result<SyncSummary, int>)
      modifies this
      ensures products.None? ==> r == Failure(400) && raw == old(raw) && catalog == old(catalog)
      ensures products.Some? ==>
        var rs := SyncRaw(old(raw), products.value, now);
        var cs := SyncCatalog(old(catalog), products.value);
        raw == rs.raw && catalog == cs.catalog &&
        r == Success(SyncSummary(rs.added, rs.updated, cs.updated, |rs.raw|))
    {
      if products.None? {
        return Failure(400);
      }
      var list, added, updated := UpsertRaw(raw, products.value, now);
      raw := list;
      var priced, catalogUpdated := RepriceCatalog(catalog, products.value);
      catalog := priced;
      return Success(SyncSummary(added, updated, catalogUpdated, |raw|));
    }
  }

  /** One pass of the upsert loop: update the record with the item's barcode, or append one. */
  method UpsertItem(list: seq<RawProduct>, added: nat, updated: nat, item: SyncItem, now: int)
    returns (list': seq<RawProduct>, added': nat, updated': nat)
    ensures Upsert(RawSync(list, added, updated), item, now) == RawSync(list', added', updated')
  {
    list', added', updated' := list, added, updated;
    if Truthy(item.name) && TruthyStr(item.barcode) {
      var existing := FindBarcode(list, item.barcode.value);
      if existing.Some? {
        var k := existing.value;
        var price := if TruthyNum(item.price) then item.price.value else list[k].price;
        list' := list[k := list[k].(name := item.name.value, price := price, updated_at := Some(now))];
        updated' := updated + 1;
      } else {
        list' := list + [RawProduct(item.name.value, Some(item.barcode.value), OrZero(item.price), now, None)];
        added' := added + 1;
      }
    }
  }

  /** The upsert loop over the raw list. */
  method UpsertRaw(raw: seq<RawProduct>, items: seq<SyncItem>, now: int)
    returns (list: seq<RawProduct>, added: nat, updated: nat)
    ensures SyncRaw(raw, items, now) == RawSync(list, added, updated)
  {
    list := raw;
    added, updated := 0, 0;
    var i := 0;
    while i < |items|
      invariant 0 <= i <= |items|
      invariant SyncRaw(raw, items[..i], now) == RawSync(list, added, updated)
    {
      SyncRawStep(raw, items, i, now);
      list, added, updated := UpsertItem(list, added, updated, items[i], now);
      i := i + 1;
    }
    assert items[..i] == items;
  }

  /** One pass of the price loop: reprice the first product with the item's barcode. */
  method RepriceItem(products: seq<CatalogProduct>, catalogUpdated: nat, item: SyncItem)
    returns (products': seq<CatalogProduct>, catalogUpdated': nat)
    ensures Reprice(CatalogSync(products, catalogUpdated), item) == CatalogSync(products', catalogUpdated')
  {
    products', catalogUpdated' := products, catalogUpdated;
    var found := FindCatalog(products, item.barcode);
    if found.Some? && TruthyNum(item.price) {
      products' := products[found.value := products[found.value].(price := item.price.value)];
      catalogUpdated' := catalogUpdated + 1;
    }
  }

  /** The price loop over the catalog. */
  method RepriceCatalog(catalog: seq<CatalogProduct>, items: seq<SyncItem>)
    returns (products: seq<CatalogProduct>, catalogUpdated: nat)
    ensures SyncCatalog(catalog, items) == CatalogSync(products, catalogUpdated)
  {
    products := catalog;
    catalogUpdated := 0;
    var i := 0;
    while i < |items|
      invariant 0 <= i <= |items|
      invariant SyncCatalog(catalog, items[..i]) == CatalogSync(products, catalogUpdated)
    {
      SyncCatalogStep(catalog, items, i);
      products, catalogUpdated := RepriceItem(products, catalogUpdated, items[i]);
      i := i + 1;
    }
    assert items[..i] == items;
  }
}
