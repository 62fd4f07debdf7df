/** The products router (web/backend/app/routers/products.py), which works
    on the `insurance_products` table directly: an active-only listing,
    creation, a field-by-field overwrite and a soft delete that only clears
    `is_active`. */
module ProductsRouter {
  import opened Common
  import opened Models
  import opened Store
  import opened Routers

  /** The router's own `ProductCreate` body: every field is required. */
  datatype ProductData = ProductData(name: string, description: string, basePremium: int, coverageAmount: int)

  function IsActiveProduct(p: Product): bool { p.isActive }

  /** `get_products`: the products with `is_active` true, in table order. */
  function ActiveProducts(products: seq<Product>): (r: seq<Product>)
    ensures forall k :: 0 <= k < |r| ==> r[k].isActive && r[k] in products
    ensures forall k :: 0 <= k < |products| && products[k].isActive ==> products[k] in r
  {
    Filter(products, IsActiveProduct)
  }

  /** The product with every field of the body written; the id and
      `is_active` are not among them. */
  function Overwrite(p: Product, d: ProductData): (r: Product)
    ensures r.id == p.id && r.isActive == p.isActive
    ensures r.name == d.name && r.description == Some(d.description)
    ensures r.basePremium == d.basePremium && r.coverageAmount == Some(d.coverageAmount)
  {
    p.(name := d.name, description := Some(d.description), basePremium := d.basePremium,
       coverageAmount := Some(d.coverageAmount))
  }

  /** One step of the `setattr` loop: field `k` of the body in declaration
      order. */
  function SetField(p: Product, d: ProductData, k: nat): Product {
    if k == 0 then p.(name := d.name)
    else if k == 1 then p.(description := Some(d.description))
    else if k == 2 then p.(basePremium := d.basePremium)
    else if k == 3 then p.(coverageAmount := Some(d.coverageAmount))
    else p
  }

  /** The product after the loop's first `k` steps. */
  function SetFirst(p: Product, d: ProductData, k: nat): Product {
    if k == 0 then p else SetField(SetFirst(p, d, k - 1), d, k - 1)
  }

  lemma SetAllIsOverwrite(p: Product, d: ProductData)
    ensures SetFirst(p, d, 4) == Overwrite(p, d)
  {
    assert SetFirst(p, d, 0) == p;
    assert SetField(p, d, 0) == p.(name := d.name);
    var q1 := SetFirst(p, d, 1);
    assert q1 == SetField(SetFirst(p, d, 0), d, 0);
    assert q1 == p.(name := d.name);
    var q2 := SetFirst(p, d, 2);
    assert q2 == SetField(q1, d, 1);
    var q3 := SetFirst(p, d, 3);
    assert q3 == SetField(q2, d, 2);
    assert SetFirst(p, d, 4) == SetField(q3, d, 3);
  }

  lemma AppendProductKeepsValid(db: Db, p: Product)
    requires db.Valid() && p.id == db.nextProductId
    ensures var products := db.products + [p];
      && DistinctKeys(products, ProductId) && KeysBelow(products, ProductId, db.nextProductId + 1)
      && ReferencesHold(db.clients, products, db.contracts, db.claims)
  {
    KeysAppend(db.products, ProductId, p);
  }

  lemma ReplaceProductKeepsValid(db: Db, i: nat, p: Product)
    requires db.Valid() && i < |db.products| && p.id == db.products[i].id
    ensures var products := db.products[i := p];
      && DistinctKeys(products, ProductId) && KeysBelow(products, ProductId, db.nextProductId)
      && ReferencesHold(db.clients, products, db.contracts, db.claims)
  {
    KeysUpdate(db.products, ProductId, i, p);
  }

  /** `create_product` (manager, admin): the body's fields, `is_active`
      true, and the next id. */
  method CreateProductRoute(db: Db, user: CurrentUser, d: ProductData) returns (r: Reply<Product>)
    requires db.Valid()
    modifies db
    ensures db.Valid()
    ensures !Admits(Management, user) ==> r == Forbidden && unchanged(db)
    ensures Admits(Management, user) ==>
      && r == Ok(Product(old(db.nextProductId), d.name, Some(d.description), d.basePremium, Some(d.coverageAmount), true))
      && db.products == old(db.products) + [r.value]
      && db.nextProductId == old(db.nextProductId) + 1
    ensures db.clients == old(db.clients) && db.contracts == old(db.contracts) && db.claims == old(db.claims)
  {
    if !Admits(Management, user) {
      return Forbidden;
    }
    var p := Product(db.nextProductId, d.name, Some(d.description), d.basePremium, Some(d.coverageAmount), true);
    AppendProductKeepsValid(db, p);
    db.products, db.nextProductId := db.products + [p], db.nextProductId + 1;
    r := Ok(p);
  }

  /** `update_product` (manager, admin): 404 for an unknown id; otherwise
      name, description, base premium and coverage are overwritten and the
      product keeps its id and its `is_active`. */
  method UpdateProductRoute(db: Db, user: CurrentUser, productId: int, d: ProductData) returns (r: Reply<Product>)
    requires db.Valid()
    modifies db
    ensures db.Valid()
    ensures !Admits(Management, user) ==> r == Forbidden && unchanged(db)
    ensures Admits(Management, user) && productId !in Keys(old(db.products), ProductId) ==>
      r == HttpFail(404, "Product not found") && unchanged(db)
    ensures Admits(Management, user) && productId in Keys(old(db.products), ProductId) ==>
      var i := ProductIndex(old(db.products), productId).value;
      && r == Ok(Overwrite(old(db.products)[i], d))
      && db.products == old(db.products)[i := r.value]
    ensures db.clients == old(db.clients) && db.contracts == old(db.contracts) && db.claims == old(db.claims)
    ensures db.nextProductId == old(db.nextProductId)
  {
    if !Admits(Management, user) {
      return Forbidden;
    }
    var at := ProductIndex(db.products, productId);
    if at.None? {
      return HttpFail(404, "Product not found");
    }
    var i := at.value;
    var p := db.products[i];
    var k := 0;
    while k < 4  // the four fields of ProductCreate, in declaration order
      invariant 0 <= k <= 4
      invariant p == SetFirst(db.products[i], d, k)
    {
      p := SetField(p, d, k);
      k := k + 1;
    }
    SetAllIsOverwrite(db.products[i], d);
    ReplaceProductKeepsValid(db, i, p);
    db.products := db.products[i := p];
    r := Ok(p);
  }

  /** `delete_product` (admin): 404 for an unknown id; otherwise the row
      stays and only its `is_active` becomes false. */
  method DeleteProductRoute(db: Db, user: CurrentUser, productId: int) returns (r: Reply<string>)
    requires db.Valid()
    modifies db
    ensures db.Valid()
    ensures !Admits(AdminOnly, user) ==> r == Forbidden && unchanged(db)
    ensures Admits(AdminOnly, user) && productId !in Keys(old(db.products), ProductId) ==>
      r == HttpFail(404, "Product not found") && unchanged(db)
    ensures Admits(AdminOnly, user) && productId in Keys(old(db.products), ProductId) ==>
      var i := ProductIndex(old(db.products), productId).value;
      && r == Ok("Product deleted successfully")
      && db.products == old(db.products)[i := old(db.products)[i].(isActive := false)]
    ensures db.clients == old(db.clients) && db.contracts == old(db.contracts) && db.claims == old(db.claims)
    ensures db.nextProductId == old(db.nextProductId)
  {
    if !Admits(AdminOnly, user) {
      return Forbidden;
    }
    var at := ProductIndex(db.products, productId);
    if at.None? {
      return HttpFail(404, "Product not found");
    }
    var i := at.value;
    ReplaceProductKeepsValid(db, i, db.products[i].(isActive := false));
    db.products := db.products[i := db.products[i].(isActive := false)];
    r := Ok("Product deleted successfully");
  }

  /** A soft-deleted product keeps its row but leaves the listing, while
      every other active product stays listed. */
  lemma {:induction false} SoftDeleteHides(products: seq<Product>, i: nat)
    requires i < |products| && DistinctKeys(products, ProductId)
    ensures var after := products[i := products[i].(isActive := false)];
      && |after| == |products| && after[i].id == products[i].id
      && (forall k :: 0 <= k < |ActiveProducts(after)| ==> ActiveProducts(after)[k].id != products[i].id)
      && (forall k :: 0 <= k < |products| && k != i && products[k].isActive ==> products[k] in ActiveProducts(after))
  {
    var after := products[i := products[i].(isActive := false)];
    var listed := ActiveProducts(after);
    forall k | 0 <= k < |listed| ensures listed[k].id != products[i].id {
      var j :| 0 <= j < |after| && after[j] == listed[k];
      if j != i {
        assert after[j] == products[j];
      }
    }
    forall k | 0 <= k < |products| && k != i && products[k].isActive ensures products[k] in listed {
      assert after[k] == products[k];
    }
  }

  /** The listing shows a product with that id. */
  predicate ListsId(products: seq<Product>, id: int) {
    exists k :: 0 <= k < |ActiveProducts(products)| && ActiveProducts(products)[k].id == id
  }

  /** An overwrite never revives or hides a product: the listing keeps the
      same ids. */
  lemma {:induction false} OverwriteKeepsListing(products: seq<Product>, i: nat, d: ProductData, id: int)
    requires i < |products|
    ensures ListsId(products[i := Overwrite(products[i], d)], id) <==> ListsId(products, id)
  {
    var after := products[i := Overwrite(products[i], d)];
    ListedIdsFollow(after, i, products[i], id);
    assert after[i := products[i]] == products;
    ListedIdsFollow(products, i, after[i], id);
  }

  /** Replacing a row by one with the same id and the same `is_active`
      keeps every listed id listed. */
  lemma {:induction false} ListedIdsFollow(products: seq<Product>, i: nat, q: Product, id: int)
    requires i < |products| && q.id == products[i].id && q.isActive == products[i].isActive
    ensures ListsId(products, id) ==> ListsId(products[i := q], id)
  {
    var after := products[i := q];
    var a, b := ActiveProducts(products), ActiveProducts(after);
    if exists k :: 0 <= k < |a| && a[k].id == id {
      var k :| 0 <= k < |a| && a[k].id == id;
      var j :| 0 <= j < |products| && products[j] == a[k];
      assert after[j].isActive && after[j].id == id;
      assert after[j] in b;
      var m :| 0 <= m < |b| && b[m] == after[j];
      assert b[m].id == id;
    }
  }
}
