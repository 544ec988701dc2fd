/**
  Product creation and update: the checks of the service (catalog/service/service.go) and the
  transactions that replace a product's SKU rows (catalog/productdao/postgres.go).
  */
module Catalog {
  import opened Text
  import opened Auth

  datatype SKU = SKU(
    productID: nat,
    code: string,
    size: string,
    color: string,
    mrpAmount: int,
    sellingAmount: int,
    currency: string,
    isActive: bool)

  /** A product row; its SKUs are rows of their own. */
  datatype Product = Product(id: nat, categoryID: nat, name: string, slug: string, description: string, status: string)

  datatype CatalogError =
    | InvalidProductName | InvalidProductSlug | InvalidProductStatus | CategoryNotFound | ProductNotFound
    | InvalidSKUCode | InvalidMoneyAmount | InvalidCurrency | SKUCodeAlreadyExists
    | SlugClash | CodeClash      // unique indexes; the driver's error is passed on untranslated

  datatype Outcome = Stored(product: Product, skus: seq<SKU>) | Refused(error: CatalogError)

  datatype SKURequest = SKURequest(
    code: string, size: string, color: string, mrpAmount: int, sellingAmount: int, currency: string,
      isActive: Option<bool>)

  predicate IsValidStatus(status: string) {
    status == "draft" || status == "active" || status == "inactive" || status == "archived"
  }

  // ---- The SKU rules ----

  function CodeKey(sku: SKU): string { ToUpper(TrimSpace(sku.code)) }

  /** What is wrong with a SKU by itself: code, then amounts, then currency. */
  function OwnOffence(sku: SKU): Option<CatalogError> {
    if TrimSpace(sku.code) == "" then Some(InvalidSKUCode)
    else if sku.mrpAmount < 0 || sku.sellingAmount < 0 || sku.sellingAmount > sku.mrpAmount
      then Some(InvalidMoneyAmount)
    else if ByteLen(sku.currency) != 3 then Some(InvalidCurrency)
    else None
  }

  /** What is wrong with the i-th SKU of a list: its own offence, or a code that an earlier one has up to case. */
  ghost function OffenceAt(skus: seq<SKU>, i: nat): Option<CatalogError>
    requires i < |skus|
  {
    if OwnOffence(skus[i]).Some? then OwnOffence(skus[i])
    else if exists j :: 0 <= j < i && CodeKey(skus[j]) == CodeKey(skus[i]) then Some(SKUCodeAlreadyExists)
    else None
  }

  /** Every SKU has a code, 0 <= selling <= MRP and a three-byte currency, and no two codes differ in case only. */
  ghost predicate LegalSKUs(skus: seq<SKU>) {
    && (forall i :: 0 <= i < |skus| ==>
          && TrimSpace(skus[i].code) != ""
          && 0 <= skus[i].sellingAmount <= skus[i].mrpAmount
          && ByteLen(skus[i].currency) == 3)
    && (forall i, j :: 0 <= i < j < |skus| ==> CodeKey(skus[i]) != CodeKey(skus[j]))
  }

  /** e is what is wrong with the first offending SKU: all before it make a legal list. */
  ghost predicate FirstOffence(skus: seq<SKU>, e: CatalogError) {
    exists i :: 0 <= i < |skus| && OffenceAt(skus, i) == Some(e) && LegalSKUs(skus[..i])
  }

  /** Accepts exactly the legal lists, and names the offence of the first offending SKU. */
  method ValidateSKUs(skus: seq<SKU>) returns (r: Option<CatalogError>)
    ensures r.None? <==> LegalSKUs(skus)
    ensures r.Some? ==> FirstOffence(skus, r.value)
  {
    hide TrimSpace, ToUpper, ByteLen;
    var seen: set<string> := {};
    for i := 0 to |skus|
      invariant LegalSKUs(skus[..i])
      invariant forall k :: k in seen <==> exists j :: 0 <= j < i && CodeKey(skus[j]) == k
    {
      var sku := skus[i];
      var own := OwnOffence(sku);
      if own.Some? {
        assert OffenceAt(skus, i) == own;
        return own;
      }
      var key := CodeKey(sku);
      if key in seen {
        assert OffenceAt(skus, i) == Some(SKUCodeAlreadyExists);
        var j :| 0 <= j < i && CodeKey(skus[j]) == key;
        return Some(SKUCodeAlreadyExists);
      }
      assert forall j :: 0 <= j < i ==> CodeKey(skus[j]) in seen;
      seen := seen + {key};
    }
    assert skus[..|skus|] == skus;
    return None;
  }

  /** A list that is not legal has exactly one first offence. */
  lemma OneFirstOffence(skus: seq<SKU>, e: CatalogError, f: CatalogError)
    requires FirstOffence(skus, e) && FirstOffence(skus, f)
    ensures e == f && !LegalSKUs(skus)
  {
    hide LegalSKUs, OffenceAt;
    var i :| 0 <= i < |skus| && OffenceAt(skus, i) == Some(e) && LegalSKUs(skus[..i]);
    var j :| 0 <= j < |skus| && OffenceAt(skus, j) == Some(f) && LegalSKUs(skus[..j]);
    if i < j {
      NoOffenceInside(skus, i, j);
    }
    if j < i {
      NoOffenceInside(skus, j, i);
    }
    assert skus[..|skus|] == skus;
    NoOffenceInside(skus, i, |skus|);
  }

  lemma NoOffenceInside(skus: seq<SKU>, i: nat, n: nat)
    requires i < n <= |skus|
    ensures LegalSKUs(skus[..n]) ==> OffenceAt(skus, i).None?
  {
    hide TrimSpace, ToUpper, ByteLen;
    assert skus[..n][i] == skus[i];
    assert forall k :: 0 <= k < i ==> skus[..n][k] == skus[k];
    assert LegalSKUs(skus[..n]) ==> forall k :: 0 <= k < i ==> CodeKey(skus[..n][k]) != CodeKey(skus[..n][i]);
  }

  /** mapSKURequests: trimmed, with the currency in upper case and INR by default. */
  function MapSKU(r: SKURequest, productID: nat): SKU {
    var currency := ToUpper(TrimSpace(r.currency));
    SKU(productID, TrimSpace(r.code), TrimSpace(r.size), TrimSpace(r.color), r.mrpAmount, r.sellingAmount,
        if currency == "" then "INR" else currency, if r.isActive.None? then true else r.isActive.value)
  }

  function Mapped(requests: seq<SKURequest>, productID: nat): seq<SKU> {
    seq(|requests|, i requires 0 <= i < |requests| => MapSKU(requests[i], productID))
  }

  method MapSKURequests(requests: seq<SKURequest>, productID: nat) returns (out: seq<SKU>)
    ensures out == Mapped(requests, productID)
  {
    out := [];
    for i := 0 to |requests|
      invariant |out| == i && forall j :: 0 <= j < i ==> out[j] == MapSKU(requests[j], productID)
    {
      out := out + [MapSKU(requests[i], productID)];
    }
  }

  // ---- The tables ----

  /** The SKU rows of one product, in the order they were inserted. */
  function RowsOf(skus: seq<SKU>, id: nat): seq<SKU> {
    if skus == [] then []
    else (if skus[0].productID == id then [skus[0]] else []) + RowsOf(skus[1..], id)
  }

  /** The rows that DELETE ... WHERE product_id = id leaves. */
  function RowsWithout(skus: seq<SKU>, id: nat): seq<SKU> {
    if skus == [] then []
    else (if skus[0].productID == id then [] else [skus[0]]) + RowsWithout(skus[1..], id)
  }

  /**
    The rows an INSERT makes of a batch. The is_active column has the default true, and gorm
    writes a column's default in place of a zero value, so no row is ever inserted inactive.
    */
  function Inserted(skus: seq<SKU>, id: nat): seq<SKU> {
    seq(|skus|, i requires 0 <= i < |skus| => skus[i].(productID := id, isActive := true))
  }

  /** The unique index on the code column. */
  ghost predicate UniqueCodes(skus: seq<SKU>) {
    forall i, j :: 0 <= i < j < |skus| ==> skus[i].code != skus[j].code
  }

  /** Some code of the batch is taken by a row, or occurs twice in the batch. */
  predicate BatchClashes(skus: seq<SKU>, batch: seq<SKU>) {
    || (exists i, j :: 0 <= i < |skus| && 0 <= j < |batch| && skus[i].code == batch[j].code)
    || (exists i, j :: 0 <= i < j < |batch| && batch[i].code == batch[j].code)
  }

  /** Some code of the batch belongs to a row of a product other than id. */
  ghost predicate CodeTaken(skus: seq<SKU>, batch: seq<SKU>, id: nat) {
    exists i, j :: 0 <= i < |skus| && 0 <= j < |batch| && skus[i].productID != id && skus[i].code == batch[j].code
  }

  class CatalogRepository {
    var products: map<nat, Product>
    var skus: seq<SKU>
    var lastID: nat
    const categories: set<nat>

    constructor (categories: set<nat>)
      ensures Valid() && products == map[] && skus == [] && lastID == 0 && this.categories == categories
    {
      products, skus, lastID := map[], [], 0;
      this.categories := categories;
    }

    /** What every run keeps of the tables. */
    ghost predicate Valid()
      reads this
    {
      && (forall id :: id in products ==>
            1 <= id <= lastID && products[id].id == id && IsValidStatus(products[id].status))
      && (forall i :: 0 <= i < |skus| ==> skus[i].productID in products && skus[i].isActive)
      && UniqueCodes(skus)
      && forall id :: id in products ==> LegalSKUs(RowsOf(skus, id))
    }

    predicate SlugTaken(slug: string, id: nat)
      reads this
    {
      exists n :: n in products && n != id && products[n].slug == slug
    }

    /** CreateProduct: the product row and its SKU rows in one transaction. */
    method Insert(p: Product, batch: seq<SKU>) returns (r: Outcome)
      requires Valid() && IsValidStatus(p.status) && LegalSKUs(batch)
      modifies this
      ensures Valid()
      ensures r.Refused? ==> products == old(products) && skus == old(skus) && lastID == old(lastID)
      ensures r.Stored? ==>
        var id := old(lastID) + 1;
        && r == Stored(p.(id := id), Inserted(batch, id)) && lastID == id
        && products == old(products)[id := p.(id := id)]
        && skus == old(skus) + Inserted(batch, id)
        && RowsOf(skus, id) == Inserted(batch, id)
        && forall n :: n != id ==> RowsOf(skus, n) == old(RowsOf(skus, n))
      ensures r == Refused(SlugClash) <==> old(SlugTaken(p.slug, 0))
      ensures r == Refused(CodeClash) <==> !old(SlugTaken(p.slug, 0)) && CodeTaken(old(skus), batch, 0)
      ensures r.Stored? || r == Refused(SlugClash) || r == Refused(CodeClash)
    {
      hide LegalSKUs, TrimSpace, ToUpper, ByteLen, IsValidStatus, RowsOf;
      LegalCodesDiffer(batch);
      if SlugTaken(p.slug, 0) {
        return Refused(SlugClash);
      }
      if BatchClashes(skus, batch) {
        return Refused(CodeClash);
      }
      var id := lastID + 1;
      InsertedRows(skus, batch, id);
      InsertedLegal(batch, id);
      lastID := id;
      products := products[id := p.(id := id)];
      skus := skus + Inserted(batch, id);
      return Stored(products[id], Inserted(batch, id));
    }

    /** UpdateProduct: the row is updated, its SKU rows are deleted and inserted anew; any failure undoes all. */
    method Replace(p: Product, batch: seq<SKU>) returns (r: Outcome)
      requires Valid() && IsValidStatus(p.status) && LegalSKUs(batch)
      modifies this
      ensures Valid() && lastID == old(lastID)
      ensures r.Refused? ==> products == old(products) && skus == old(skus)
      ensures r.Stored? ==>
        && r == Stored(p, Inserted(batch, p.id))
        && products == old(products)[p.id := p]
        && RowsOf(skus, p.id) == Inserted(batch, p.id)
        && forall n :: n != p.id ==> RowsOf(skus, n) == old(RowsOf(skus, n))
      ensures r == Refused(ProductNotFound) <==> p.id !in old(products)
      ensures r == Refused(SlugClash) <==> p.id in old(products) && old(SlugTaken(p.slug, p.id))
      ensures r == Refused(CodeClash) <==>
        p.id in old(products) && !old(SlugTaken(p.slug, p.id)) && CodeTaken(old(skus), batch, p.id)
      ensures r.Stored? || r == Refused(ProductNotFound) || r == Refused(SlugClash) || r == Refused(CodeClash)
    {
      hide LegalSKUs, TrimSpace, ToUpper, ByteLen, IsValidStatus, RowsOf, BatchClashes, CodeTaken, UniqueCodes,
        RowsWithout;
      if p.id !in products {
        return Refused(ProductNotFound);
      }
      if SlugTaken(p.slug, p.id) {
        return Refused(SlugClash);
      }
      var others := RowsWithout(skus, p.id);
      OthersKept(skus, p.id);
      OthersClash(skus, batch, p.id);
      if BatchClashes(others, batch) {
        return Refused(CodeClash);
      }
      InsertedRows(others, batch, p.id);
      InsertedLegal(batch, p.id);
      products := products[p.id := p];
      skus := others + Inserted(batch, p.id);
      return Stored(p, Inserted(batch, p.id));
    }
  }

  // ---- Facts about rows ----

  lemma {:induction false} RowsOfConcat(a: seq<SKU>, b: seq<SKU>, id: nat)
    ensures RowsOf(a + b, id) == RowsOf(a, id) + RowsOf(b, id)
  {
    if a == [] {
      assert a + b == b;
    } else {
      assert (a + b)[0] == a[0] && (a + b)[1..] == a[1..] + b;
      RowsOfConcat(a[1..], b, id);
    }
  }

  lemma {:induction false} NoRows(skus: seq<SKU>, id: nat)
    requires forall i :: 0 <= i < |skus| ==> skus[i].productID != id
    ensures RowsOf(skus, id) == []
  {
    if skus != [] {
      assert forall i :: 0 <= i < |skus[1..]| ==> skus[1..][i] == skus[i + 1];
      NoRows(skus[1..], id);
    }
  }

  lemma {:induction false} AllRows(skus: seq<SKU>, id: nat)
    requires forall i :: 0 <= i < |skus| ==> skus[i].productID == id
    ensures RowsOf(skus, id) == skus
  {
    if skus != [] {
      assert forall i :: 0 <= i < |skus[1..]| ==> skus[1..][i] == skus[i + 1];
      AllRows(skus[1..], id);
    }
  }

  /** Inserting a batch under an id that has no rows. */
  lemma InsertedRows(skus: seq<SKU>, batch: seq<SKU>, id: nat)
    requires forall i :: 0 <= i < |skus| ==> skus[i].productID != id
    requires UniqueCodes(skus) && !BatchClashes(skus, batch)
    ensures var all := skus + Inserted(batch, id);
      && UniqueCodes(all)
          && (forall i :: 0 <= i < |all| ==> all[i] in skus || (all[i].productID == id && all[i].isActive))
      && RowsOf(all, id) == Inserted(batch, id)
      && (forall n :: n != id ==> RowsOf(all, n) == RowsOf(skus, n))
  {
    var all := skus + Inserted(batch, id);
    NoRows(skus, id);
    AllRows(Inserted(batch, id), id);
    RowsOfConcat(skus, Inserted(batch, id), id);
    forall n | n != id ensures RowsOf(all, n) == RowsOf(skus, n) {
      NoRows(Inserted(batch, id), n);
      RowsOfConcat(skus, Inserted(batch, id), n);
    }
  }

  /** Deleting a product's rows leaves all others as they were. */
  lemma OthersKept(skus: seq<SKU>, id: nat)
    ensures var rest := RowsWithout(skus, id);
      && (forall sku :: sku in rest <==> sku in skus && sku.productID != id)
      && (forall n :: n != id ==> RowsOf(rest, n) == RowsOf(skus, n))
      && (UniqueCodes(skus) ==> UniqueCodes(rest))
  {
    hide RowsOf, RowsWithout, UniqueCodes;
    OthersRemain(skus, id);
    forall n | n != id ensures RowsOf(RowsWithout(skus, id), n) == RowsOf(skus, n) {
      RowsRemain(skus, id, n);
    }
    CodesRemainUnique(skus, id);
  }

  lemma {:induction false} OthersRemain(skus: seq<SKU>, id: nat)
    ensures forall sku :: sku in RowsWithout(skus, id) <==> sku in skus && sku.productID != id
  {
    if skus != [] { OthersRemain(skus[1..], id); }
  }

  lemma {:induction false} RowsRemain(skus: seq<SKU>, id: nat, n: nat)
    requires n != id
    ensures RowsOf(RowsWithout(skus, id), n) == RowsOf(skus, n)
  {
    if skus != [] {
      RowsRemain(skus[1..], id, n);
      var head := if skus[0].productID == id then [] else [skus[0]];
      RowsOfConcat(head, RowsWithout(skus[1..], id), n);
    }
  }

  lemma {:induction false} CodesRemainUnique(skus: seq<SKU>, id: nat)
    ensures UniqueCodes(skus) ==> UniqueCodes(RowsWithout(skus, id))
  {
    hide RowsOf;
    if skus != [] && UniqueCodes(skus) {
      var tail := skus[1..];
      assert forall i :: 0 <= i < |tail| ==> tail[i] == skus[i + 1];
      CodesRemainUnique(tail, id);
      OthersRemain(tail, id);
      var rest := RowsWithout(tail, id);
      forall i | 0 <= i < |rest| ensures rest[i].code != skus[0].code {
        assert rest[i] in tail;
        var k :| 0 <= k < |tail| && tail[k] == rest[i];
        assert skus[k + 1] == rest[i];
      }
    }
  }

  /** Once a product's own rows are deleted, a code can only clash with another product's. */
  lemma OthersClash(skus: seq<SKU>, batch: seq<SKU>, id: nat)
    requires LegalSKUs(batch)
    ensures BatchClashes(RowsWithout(skus, id), batch) <==> CodeTaken(skus, batch, id)
  {
    hide LegalSKUs, RowsOf;
    OthersKept(skus, id);
    LegalCodesDiffer(batch);
    var rest := RowsWithout(skus, id);
    if CodeTaken(skus, batch, id) {
      var i, j :| 0 <= i < |skus| && 0 <= j < |batch| && skus[i].productID != id && skus[i].code == batch[j].code;
      assert skus[i] in rest;
      var k :| 0 <= k < |rest| && rest[k] == skus[i];
    }
    if i, j :| 0 <= i < |rest| && 0 <= j < |batch| && rest[i].code == batch[j].code {
      assert rest[i] in skus;
      var k :| 0 <= k < |skus| && skus[k] == rest[i];
    }
  }

  lemma InsertedLegal(batch: seq<SKU>, id: nat)
    requires LegalSKUs(batch)
    ensures LegalSKUs(Inserted(batch, id))
  {
    hide TrimSpace, ToUpper, ByteLen;
    var rows := Inserted(batch, id);
    assert forall i :: 0 <= i < |rows| ==> rows[i] == batch[i].(productID := id, isActive := true);
  }

  /** Codes that differ up to case differ. */
  lemma LegalCodesDiffer(batch: seq<SKU>)
    requires LegalSKUs(batch)
    ensures forall i, j :: 0 <= i < j < |batch| ==> batch[i].code != batch[j].code
  {
    hide TrimSpace, ToUpper, ByteLen;
  }

  // ---- The service ----

  function NormalizeSlug(s: string): string { ToLower(TrimSpace(s)) }

  /** The first of the checks before the SKUs that a creation fails. */
  function CreateFault(categories: set<nat>, name: string, slug: string, categoryID: nat, status: string):
    Option<CatalogError> {
    if TrimSpace(name) == "" then Some(InvalidProductName)
    else if NormalizeSlug(slug) == "" then Some(InvalidProductSlug)
    else if categoryID == 0 then Some(CategoryNotFound)
    else if status != "" && !IsValidStatus(status) then Some(InvalidProductStatus)
    else if categoryID !in categories then Some(CategoryNotFound)
    else None
  }

  method CreateProduct(repo: CatalogRepository, name: string, slug: string, categoryID: nat, description: string,
                       status: string, requests: seq<SKURequest>) returns (r: Outcome)
    requires repo.Valid()
    modifies repo
    ensures repo.Valid()
    ensures r.Refused? ==> repo.products == old(repo.products) && repo.skus == old(repo.skus)
    ensures r.Stored? ==>
      && r.product.name == TrimSpace(name) && r.product.slug == NormalizeSlug(slug)
      && r.product.categoryID == categoryID && r.product.description == TrimSpace(description)
      && r.product.status == (if status == "" then "draft" else status)
      && r.product.id !in old(repo.products) && repo.products == old(repo.products)[r.product.id := r.product]
      && r.skus == RowsOf(repo.skus, r.product.id) == Inserted(Mapped(requests, 0), r.product.id)
      && forall n :: n != r.product.id ==> RowsOf(repo.skus, n) == old(RowsOf(repo.skus, n))
    // why a request is refused, in this order, and when it is not
    ensures
      var fault, batch := CreateFault(repo.categories, name, slug, categoryID, status), Mapped(requests, 0);
      if fault.Some? then r == Refused(fault.value)
      else if !LegalSKUs(batch) then r.Refused? && FirstOffence(batch, r.error)
      else if old(repo.SlugTaken(NormalizeSlug(slug), 0)) then r == Refused(SlugClash)
      else if CodeTaken(old(repo.skus), batch, 0) then r == Refused(CodeClash)
      else r.Stored?
  {
    hide LegalSKUs, FirstOffence, CodeTaken, TrimSpace, ToUpper, ToLower, ByteLen, RowsOf, MapSKU;
    var name, slug := TrimSpace(name), NormalizeSlug(slug);
    if name == "" {
      return Refused(InvalidProductName);
    }
    if slug == "" {
      return Refused(InvalidProductSlug);
    }
    if categoryID == 0 {
      return Refused(CategoryNotFound);
    }
    var status := if status == "" then "draft" else status;
    if !IsValidStatus(status) {
      return Refused(InvalidProductStatus);
    }
    if categoryID !in repo.categories {
      return Refused(CategoryNotFound);
    }
    var batch := MapSKURequests(requests, 0);
    var err := ValidateSKUs(batch);
    if err.Some? {
      return Refused(err.value);
    }
    r := repo.Insert(Product(0, categoryID, name, slug, TrimSpace(description), status), batch);
  }

  // ---- The active flag ----

  /**
    Every row is stored active, so the flag is the requested one exactly if the request did not ask
    for an inactive SKU.
    */
  lemma StoredFlag(requests: seq<SKURequest>, from: nat, id: nat, i: nat)
    requires i < |requests|
    ensures
      var requested, stored := Mapped(requests, from)[i].isActive, Inserted(Mapped(requests, from), id)[i].isActive;
      stored && (stored == requested <==> requests[i].isActive != Some(false))
  {
  }

  const INACTIVE := SKURequest("A1", "M", "red", 100, 90, "INR", Some(false))

  lemma InactiveIsLegal()
    ensures LegalSKUs(Mapped([INACTIVE], 0)) && !Mapped([INACTIVE], 0)[0].isActive
  {
    assert "" + "A1" + "" == "A1" && "" + "INR" + "" == "INR";
    TrimUnique("", "A1", "");
    TrimUnique("", "INR", "");
  }

  lemma ShirtIsNamed()
    ensures TrimSpace("shirt") != "" && NormalizeSlug("shirt") != ""
  {
    assert "" + "shirt" + "" == "shirt";
    TrimUnique("", "shirt", "");
  }

  lemma InactiveRow(id: nat)
    ensures !MapSKU(INACTIVE, 0).isActive
    ensures Inserted(Mapped([INACTIVE], 0), id) == [MapSKU(INACTIVE, id).(isActive := true)]
  {
    hide TrimSpace, ToUpper;
  }

  /** A request that meets this: the first product of a catalog, with one inactive SKU, is stored with an active one. */
  method StoreInactive() returns (request: SKURequest, r: Outcome)
    ensures request.isActive == Some(false) && !MapSKU(request, 0).isActive
    ensures r.Stored? && r.skus == [MapSKU(request, r.product.id).(isActive := true)]
  {
    hide MapSKU, TrimSpace, ToLower, LegalSKUs, Inserted, Mapped, FirstOffence;
    var repo := new CatalogRepository({1});
    ShirtIsNamed();
    InactiveIsLegal();
    request := INACTIVE;
    r := CreateProduct(repo, "shirt", "shirt", 1, "", "", [request]);
    InactiveRow(r.product.id);
  }

  datatype Patch = Patch(categoryID: Option<nat>, name: Option<string>, slug: Option<string>,
                         description: Option<string>, status: Option<string>, skus: Option<seq<SKURequest>>)

  /** The first of the checks before the SKUs that an update of an existing product fails. */
  function PatchFault(categories: set<nat>, q: Patch): Option<CatalogError> {
    if q.categoryID.Some? && (q.categoryID.value == 0 || q.categoryID.value !in categories) then Some(CategoryNotFound)
    else if q.name.Some? && TrimSpace(q.name.value) == "" then Some(InvalidProductName)
    else if q.slug.Some? && NormalizeSlug(q.slug.value) == "" then Some(InvalidProductSlug)
    else if q.status.Some? && !IsValidStatus(q.status.value) then Some(InvalidProductStatus)
    else None
  }

  /** Absent fields stay as they are. */
  function Patched(p: Product, q: Patch): Product {
    p.(categoryID := if q.categoryID.Some? then q.categoryID.value else p.categoryID,
       name := if q.name.Some? then TrimSpace(q.name.value) else p.name,
       slug := if q.slug.Some? then NormalizeSlug(q.slug.value) else p.slug,
       description := if q.description.Some? then TrimSpace(q.description.value) else p.description,
       status := if q.status.Some? then q.status.value else p.status)
  }

  function PatchedSKUs(rows: seq<SKU>, q: Patch, id: nat): seq<SKU> {
    if q.skus.Some? then Mapped(q.skus.value, id) else rows
  }

  /** The first half of UpdateProduct: the fields of the row are checked and set one by one. */
  method PatchFields(categories: set<nat>, before: Product, q: Patch)
    returns (fault: Option<CatalogError>, current: Product)
    ensures fault == PatchFault(categories, q)
    ensures fault.None? ==> current == Patched(before, q)
  {
    hide TrimSpace, NormalizeSlug;
    current := before;
    if q.categoryID.Some? {
      if q.categoryID.value == 0 || q.categoryID.value !in categories {
        return Some(CategoryNotFound), before;
      }
      current := current.(categoryID := q.categoryID.value);
    }
    if q.name.Some? {
      if TrimSpace(q.name.value) == "" {
        return Some(InvalidProductName), before;
      }
      current := current.(name := TrimSpace(q.name.value));
    }
    if q.slug.Some? {
      if NormalizeSlug(q.slug.value) == "" {
        return Some(InvalidProductSlug), before;
      }
      current := current.(slug := NormalizeSlug(q.slug.value));
    }
    if q.description.Some? {
      current := current.(description := TrimSpace(q.description.value));
    }
    if q.status.Some? {
      if !IsValidStatus(q.status.value) {
        return Some(InvalidProductStatus), before;
      }
      current := current.(status := q.status.value);
    }
    return None, current;
  }

  method UpdateProduct(repo: CatalogRepository, id: nat, q: Patch) returns (r: Outcome)
    requires repo.Valid()
    modifies repo
    ensures repo.Valid()
    ensures r.Refused? ==> repo.products == old(repo.products) && repo.skus == old(repo.skus)
    ensures r.Stored? ==>
      && id in old(repo.products) && repo.products == old(repo.products)[id := r.product]
      && r.product == Patched(old(repo.products)[id], q)
      && r.skus == RowsOf(repo.skus, id) == Inserted(PatchedSKUs(old(RowsOf(repo.skus, id)), q, id), id)
      && (q.skus.None? ==> r.skus == old(RowsOf(repo.skus, id)))
    // why an update is refused, in this order, and when it is not
    ensures
      var fault, batch := PatchFault(repo.categories, q), PatchedSKUs(old(RowsOf(repo.skus, id)), q, id);
      if id !in old(repo.products) then r == Refused(ProductNotFound)
      else if fault.Some? then r == Refused(fault.value)
      else if !LegalSKUs(batch) then r.Refused? && FirstOffence(batch, r.error)
      else if old(repo.SlugTaken(Patched(repo.products[id], q).slug, id)) then r == Refused(SlugClash)
      else if CodeTaken(old(repo.skus), batch, id) then r == Refused(CodeClash)
      else r.Stored?
    // an update that leaves the SKUs alone passes every check on them
    ensures q.skus.None? && id in old(repo.products) ==>
      var batch := old(RowsOf(repo.skus, id)); LegalSKUs(batch) && !CodeTaken(old(repo.skus), batch, id)
    // nothing of another product changes, whatever the outcome
    ensures forall n :: n != id ==> RowsOf(repo.skus, n) == old(RowsOf(repo.skus, n))
    ensures forall n :: n != id ==> (n in repo.products <==> n in old(repo.products))
    ensures forall n :: n != id && n in repo.products ==> repo.products[n] == old(repo.products)[n]
  {
    hide LegalSKUs, FirstOffence, CodeTaken, TrimSpace, ToUpper, ToLower, ByteLen, RowsOf, Mapped, UniqueCodes,
      PatchFault, Patched,
      CatalogRepository.Valid, CatalogRepository.SlugTaken, IsValidStatus;
    NoProductZero(repo);
    if id == 0 || id !in repo.products {
      return Refused(ProductNotFound);
    }
    var current, batch := repo.products[id], RowsOf(repo.skus, id);
    StoredIsLegal(repo, id);
    PatchedIsLegal(repo.categories, current, q);
    OwnRowsDoNotClash(repo.skus, id);
    var fault: Option<CatalogError>;
    fault, current := PatchFields(repo.categories, current, q);
    if fault.Some? {
      return Refused(fault.value);
    }
    if q.skus.Some? {
      batch := MapSKURequests(q.skus.value, id);
    }
    var err := ValidateSKUs(batch);
    if err.Some? {
      return Refused(err.value);
    }
    r := repo.Replace(current, batch);
  }

  lemma NoProductZero(repo: CatalogRepository)
    requires repo.Valid()
    ensures 0 !in repo.products
  {
  }

  /** What the invariant says of one stored product. */
  lemma StoredIsLegal(repo: CatalogRepository, id: nat)
    requires repo.Valid() && id in repo.products
    ensures repo.products[id].id == id && IsValidStatus(repo.products[id].status)
    ensures UniqueCodes(repo.skus) && LegalSKUs(RowsOf(repo.skus, id))
    ensures forall i :: 0 <= i < |repo.skus| ==> repo.skus[i].isActive
  {
    hide LegalSKUs, UniqueCodes, RowsOf, IsValidStatus;
  }

  lemma PatchedIsLegal(categories: set<nat>, p: Product, q: Patch)
    requires IsValidStatus(p.status)
    ensures Patched(p, q).id == p.id
    ensures PatchFault(categories, q).None? ==> IsValidStatus(Patched(p, q).status)
  {
    hide IsValidStatus, TrimSpace, ToLower;
  }

  /** A product's own rows carry its id, and their codes belong to no other product. */
  lemma OwnRowsDoNotClash(skus: seq<SKU>, id: nat)
    requires UniqueCodes(skus) && forall i :: 0 <= i < |skus| ==> skus[i].isActive
    ensures Inserted(RowsOf(skus, id), id) == RowsOf(skus, id) && !CodeTaken(skus, RowsOf(skus, id), id)
  {
    hide RowsOf;
    RowsAreRows(skus, id);
    var rows := RowsOf(skus, id);
    forall i, j | 0 <= i < |skus| && 0 <= j < |rows| && skus[i].productID != id ensures skus[i].code != rows[j].code {
      assert rows[j] in rows;
      var k :| 0 <= k < |skus| && skus[k] == rows[j];
    }
    assert forall i :: 0 <= i < |rows| ==> rows[i] in rows;
  }

  lemma {:induction false} RowsAreRows(skus: seq<SKU>, id: nat)
    ensures forall sku :: sku in RowsOf(skus, id) <==> sku in skus && sku.productID == id
  {
    if skus != [] { RowsAreRows(skus[1..], id); }
  }
}
