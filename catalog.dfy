/**
 * The product catalogue: products with unique SKUs and slugs, each in an
 * existing category, and categories with unique slugs arranged under
 * optional parents. Every write is a run of guard checks followed by one
 * insert or update of the store.
 */
module ProductService {
  import opened Entities
  import opened Store
  import opened Paging

  // ---------------------------------------------------------------------
  // Keeping the store valid across catalogue writes
  // ---------------------------------------------------------------------

  /** No product other than `except` has the SKU. */
  predicate SkuFree(products: map<Id, Product>, sku: string, except: Id)
  {
    forall q :: q in products && q != except ==> products[q].sku != sku
  }

  /** No product other than `except` has the slug. */
  predicate ProductSlugFree(products: map<Id, Product>, slug: string, except: Id)
  {
    forall q :: q in products && q != except ==> products[q].slug != slug
  }

  /** No category other than `except` has the slug. */
  predicate CategorySlugFree(categories: map<Id, Category>, slug: string, except: Id)
  {
    forall c :: c in categories && c != except ==> categories[c].slug != slug
  }

  /** Writing a product whose category exists and whose SKU and slug are its own keeps the store valid. */
  lemma PutProductKeepsValid(products: map<Id, Product>, productIds: seq<Id>, categories: map<Id, Category>,
                             carts: map<Id, Id>, items: map<Id, CartItem>, itemIds: seq<Id>,
                             orders: map<Id, Order>, orderIds: seq<Id>, payments: map<Id, Payment>, paymentIds: seq<Id>,
                             addresses: map<Id, Address>, addressIds: seq<Id>,
                             productId: Id, product: Product, productIds': seq<Id>)
    requires StoreValid(products, productIds, categories, carts, items, itemIds, orders, orderIds, payments, paymentIds, addresses, addressIds)
    requires product.categoryId in categories
    requires SkuFree(products, product.sku, productId) && ProductSlugFree(products, product.slug, productId)
    requires productId in products ==> productIds' == productIds
    requires productId !in products ==> productIds' == [productId] + productIds
    ensures StoreValid(products[productId := product], productIds', categories, carts, items, itemIds,
                       orders, orderIds, payments, paymentIds, addresses, addressIds)
  {
    var products' := products[productId := product];
    if productId !in products {
      IndexesPrepend(productIds, products, productId, product);
    }
    assert Indexes(productIds', products');
    PutProductKeepsCatalog(products, categories, productId, product);
    assert CartsValid(carts, items, products');
  }

  /** The catalog constraints survive writing a product with its own SKU and slug and an existing category. */
  lemma PutProductKeepsCatalog(products: map<Id, Product>, categories: map<Id, Category>, productId: Id, product: Product)
    requires CatalogValid(products, categories)
    requires product.categoryId in categories
    requires SkuFree(products, product.sku, productId) && ProductSlugFree(products, product.slug, productId)
    ensures CatalogValid(products[productId := product], categories)
  {
    var products' := products[productId := product];
    forall p, q | p in products' && q in products' && p != q
      ensures products'[p].sku != products'[q].sku && products'[p].slug != products'[q].slug
    {
      if p == productId {
        assert q in products && products'[q] == products[q];
      } else if q == productId {
        assert p in products && products'[p] == products[p];
      } else {
        assert products'[p] == products[p] && products'[q] == products[q];
      }
    }
  }

  /** Writing a category whose parent exists and whose slug is its own keeps the store valid. */
  lemma PutCategoryKeepsValid(products: map<Id, Product>, productIds: seq<Id>, categories: map<Id, Category>,
                              carts: map<Id, Id>, items: map<Id, CartItem>, itemIds: seq<Id>,
                              orders: map<Id, Order>, orderIds: seq<Id>, payments: map<Id, Payment>, paymentIds: seq<Id>,
                              addresses: map<Id, Address>, addressIds: seq<Id>,
                              categoryId: Id, category: Category)
    requires StoreValid(products, productIds, categories, carts, items, itemIds, orders, orderIds, payments, paymentIds, addresses, addressIds)
    requires category.parentId.Some? ==> category.parentId.value in categories
    requires CategorySlugFree(categories, category.slug, categoryId)
    ensures StoreValid(products, productIds, categories[categoryId := category], carts, items, itemIds,
                       orders, orderIds, payments, paymentIds, addresses, addressIds)
  {
  }

  // ---------------------------------------------------------------------
  // Products
  // ---------------------------------------------------------------------

  /**
   * `create`: the category must exist (a removed one will do), no product
   * may have the SKU, removed or not, and the store refuses a slug that is
   * already taken. The new product is listed first.
   */
  method Create(db: Db, productId: Id, data: Product) returns (r: Result<Product>)
    requires db.Valid() && productId !in db.products
    modifies db`products, db`productIds
    ensures db.Valid()
    ensures data.categoryId !in db.categories ==> r == Err(NotFound(CategoryRecord))
    ensures data.categoryId in db.categories && !SkuFree(old(db.products), data.sku, productId) ==>
      r == Err(BadRequest(SkuTaken))
    ensures (data.categoryId in db.categories && SkuFree(old(db.products), data.sku, productId)
             && !ProductSlugFree(old(db.products), data.slug, productId)) ==> r == Err(Duplicate(ProductSlug))
    ensures r.Ok? ==>
      && r.value == data.(deleted := false)
      && db.products == old(db.products)[productId := r.value] && db.productIds == [productId] + old(db.productIds)
    ensures r.Ok? <==> (&& data.categoryId in db.categories && SkuFree(old(db.products), data.sku, productId)
                        && ProductSlugFree(old(db.products), data.slug, productId))
    ensures r.Err? ==> db.products == old(db.products) && db.productIds == old(db.productIds)
  {
    if data.categoryId !in db.categories {
      return Err(NotFound(CategoryRecord));
    }
    if !SkuFree(db.products, data.sku, productId) {
      return Err(BadRequest(SkuTaken));
    }
    if !ProductSlugFree(db.products, data.slug, productId) {
      return Err(Duplicate(ProductSlug));
    }
    var product := data.(deleted := false);
    PutProductKeepsValid(db.products, db.productIds, db.categories, db.carts, db.cartItems, db.cartItemIds,
                         db.orders, db.orderIds, db.payments, db.paymentIds, db.addresses, db.addressIds,
                         productId, product, [productId] + db.productIds);
    db.products, db.productIds := db.products[productId := product], [productId] + db.productIds;
    r := Ok(product);
  }

  /** A string filter applies only when it is given and not empty. */
  predicate Given(s: Option<string>)
  {
    s.Some? && s.value != ""
  }

  /** The equality and price-range filters of the product listing; absent ones let every product through. */
  datatype ProductFilter = ProductFilter(
    categoryId: Option<Id>,
    vendorId: Option<Id>,
    isFeatured: Option<bool>,
    isActive: Option<bool>,
    minPrice: Option<real>,
    maxPrice: Option<real>)

  predicate Passes(f: ProductFilter, p: Product)
  {
    && !p.deleted
    && (Given(f.categoryId) ==> p.categoryId == f.categoryId.value)
    && (Given(f.vendorId) ==> p.vendorId == f.vendorId)
    && (f.isFeatured.Some? ==> p.isFeatured == f.isFeatured.value)
    && (f.isActive.Some? ==> p.isActive == f.isActive.value)
    && (f.minPrice.Some? ==> p.price >= f.minPrice.value)
    && (f.maxPrice.Some? ==> p.price <= f.maxPrice.value)
  }

  /** The ids of the products that pass the filter, in row order. */
  function Listed(ids: seq<Id>, products: map<Id, Product>, f: ProductFilter): (rows: seq<Id>)
    ensures |rows| <= |ids|
    ensures forall id :: id in rows <==> id in ids && id in products && Passes(f, products[id])
  {
    if ids == [] then []
    else
      var rest := Listed(ids[1..], products, f);
      if ids[0] in products && Passes(f, products[ids[0]]) then [ids[0]] + rest else rest
  }

  /** The listing keeps the row order, so it repeats no product. */
  lemma {:induction false} ListedDistinct(ids: seq<Id>, products: map<Id, Product>, f: ProductFilter)
    requires NoDuplicates(ids)
    ensures NoDuplicates(Listed(ids, products, f))
  {
    if ids != [] {
      assert NoDuplicates(ids[1..]) by {
        forall i, j | 0 <= i < j < |ids[1..]|
          ensures ids[1..][i] != ids[1..][j]
        {
          assert ids[1..][i] == ids[i + 1] && ids[1..][j] == ids[j + 1];
        }
      }
      ListedDistinct(ids[1..], products, f);
      var rest := Listed(ids[1..], products, f);
      forall k | 0 <= k < |ids[1..]|
        ensures ids[1..][k] != ids[0]
      {
        assert ids[1..][k] == ids[k + 1];
      }
      if ids[0] in products && Passes(f, products[ids[0]]) {
        var rows := [ids[0]] + rest;
        forall i, j | 0 <= i < j < |rows|
          ensures rows[i] != rows[j]
        {
          if i == 0 {
            assert rows[j] == rest[j - 1] && rows[j] in rest;
          } else {
            assert rows[i] == rest[i - 1] && rows[j] == rest[j - 1];
          }
        }
      }
    }
  }

  /**
   * `findAll`: one page of the live products that pass the filters, newest
   * first; a page or page size that is absent or zero takes its default.
   */
  method FindAll(db: Db, f: ProductFilter, page: Option<int>, pageSize: Option<int>) returns (p: Page)
    requires OrDefault(page, DefaultPage) >= 1 && OrDefault(pageSize, DefaultPageSize) >= 1
    ensures p == PageOf(Listed(db.productIds, db.products, f), OrDefault(page, DefaultPage), OrDefault(pageSize, DefaultPageSize))
    ensures forall id :: id in p.data ==> id in db.products && Passes(f, db.products[id])
  {
    var rows := Listed(db.productIds, db.products, f);
    p := PageOf(rows, OrDefault(page, DefaultPage), OrDefault(pageSize, DefaultPageSize));
    forall id | id in p.data
      ensures id in db.products && Passes(f, db.products[id])
    {
      var k :| 0 <= k < |p.data| && p.data[k] == id;
      assert id in rows;
    }
  }

  /** `findById`: the live product, else not found. */
  method FindById(db: Db, productId: Id) returns (r: Result<Product>)
    ensures r.Ok? <==> IsLiveProduct(db.products, productId)
    ensures r.Ok? ==> r.value == db.products[productId]
    ensures r.Err? ==> r.error == NotFound(ProductRecord)
  {
    if !IsLiveProduct(db.products, productId) {
      return Err(NotFound(ProductRecord));
    }
    r := Ok(db.products[productId]);
  }

  /** The first live product with the slug, in row order. */
  function FindLiveSlug(ids: seq<Id>, products: map<Id, Product>, slug: string): (found: Option<Id>)
    ensures found.Some? ==> IsLiveProduct(products, found.value) && products[found.value].slug == slug
    ensures found.None? ==> forall id :: id in ids && IsLiveProduct(products, id) ==> products[id].slug != slug
  {
    if ids == [] then None
    else if IsLiveProduct(products, ids[0]) && products[ids[0]].slug == slug then Some(ids[0])
    else FindLiveSlug(ids[1..], products, slug)
  }

  /** `findBySlug`: the live product with the slug, else not found; slugs are unique, so it is the only one. */
  method FindBySlug(db: Db, slug: string) returns (r: Result<Product>)
    requires db.Valid()
    ensures r.Ok? <==> exists id :: IsLiveProduct(db.products, id) && db.products[id].slug == slug
    ensures r.Ok? ==> forall id :: IsLiveProduct(db.products, id) && db.products[id].slug == slug ==> r.value == db.products[id]
    ensures r.Err? ==> r.error == NotFound(ProductRecord)
  {
    var found := FindLiveSlug(db.productIds, db.products, slug);
    if found.None? {
      return Err(NotFound(ProductRecord));
    }
    r := Ok(db.products[found.value]);
  }

  /** The product with every supplied field of the patch written; the SKU and tombstone are not patchable. */
  function ApplyProductPatch(p: Product, patch: ProductPatch): (q: Product)
  {
    p.(name := patch.name.GetOr(p.name),
       slug := patch.slug.GetOr(p.slug),
       description := if patch.description.Some? then patch.description else p.description,
       price := patch.price.GetOr(p.price),
       compareAtPrice := if patch.compareAtPrice.Some? then patch.compareAtPrice else p.compareAtPrice,
       stock := patch.stock.GetOr(p.stock),
       isActive := patch.isActive.GetOr(p.isActive),
       isFeatured := patch.isFeatured.GetOr(p.isFeatured),
       categoryId := patch.categoryId.GetOr(p.categoryId),
       vendorId := if patch.vendorId.Some? then patch.vendorId else p.vendorId)
  }

  /** A field changes exactly when the patch supplies a different value for it. */
  lemma PatchChangesOnlySupplied(p: Product, patch: ProductPatch)
    ensures var q := ApplyProductPatch(p, patch);
      && q.sku == p.sku && q.deleted == p.deleted
      && (q.name != p.name <==> patch.name.Some? && patch.name.value != p.name)
      && (q.slug != p.slug <==> patch.slug.Some? && patch.slug.value != p.slug)
      && (q.price != p.price <==> patch.price.Some? && patch.price.value != p.price)
      && (q.stock != p.stock <==> patch.stock.Some? && patch.stock.value != p.stock)
      && (q.isActive != p.isActive <==> patch.isActive.Some? && patch.isActive.value != p.isActive)
      && (q.categoryId != p.categoryId <==> patch.categoryId.Some? && patch.categoryId.value != p.categoryId)
  {
  }

  /** Applying the same patch twice is applying it once, and the empty patch changes nothing. */
  lemma PatchIdempotent(p: Product, patch: ProductPatch)
    ensures ApplyProductPatch(ApplyProductPatch(p, patch), patch) == ApplyProductPatch(p, patch)
    ensures ApplyProductPatch(p, ProductPatch(None, None, None, None, None, None, None, None, None, None)) == p
  {
  }

  /**
   * `update`: the product must be live, a supplied category must exist, and
   * the store refuses a slug another product has; then exactly the supplied
   * fields change.
   */
  method Update(db: Db, productId: Id, patch: ProductPatch) returns (r: Result<Product>)
    requires db.Valid()
    modifies db`products
    ensures db.Valid()
    ensures !IsLiveProduct(old(db.products), productId) ==> r == Err(NotFound(ProductRecord))
    ensures (IsLiveProduct(old(db.products), productId) && patch.categoryId.Some?
             && patch.categoryId.value !in db.categories) ==> r == Err(NotFound(CategoryRecord))
    ensures r.Ok? <==>
      (&& IsLiveProduct(old(db.products), productId)
       && (patch.categoryId.Some? ==> patch.categoryId.value in db.categories)
       && ProductSlugFree(old(db.products), ApplyProductPatch(old(db.products)[productId], patch).slug, productId))
    ensures r.Ok? ==>
      r.value == ApplyProductPatch(old(db.products)[productId], patch) && db.products == old(db.products)[productId := r.value]
    ensures r.Err? ==> db.products == old(db.products)
    ensures r.Err? && IsLiveProduct(old(db.products), productId) && (patch.categoryId.Some? ==> patch.categoryId.value in db.categories) ==>
      r.error == Duplicate(ProductSlug)
  {
    if !IsLiveProduct(db.products, productId) {
      return Err(NotFound(ProductRecord));
    }
    if patch.categoryId.Some? && patch.categoryId.value !in db.categories {
      return Err(NotFound(CategoryRecord));
    }
    var product := ApplyProductPatch(db.products[productId], patch);
    if !ProductSlugFree(db.products, product.slug, productId) {
      return Err(Duplicate(ProductSlug));
    }
    PutProductKeepsValid(db.products, db.productIds, db.categories, db.carts, db.cartItems, db.cartItemIds,
                         db.orders, db.orderIds, db.payments, db.paymentIds, db.addresses, db.addressIds,
                         productId, product, db.productIds);
    db.products := db.products[productId := product];
    r := Ok(product);
  }

  /** `delete`: a live product is tombstoned, so a second delete is refused. */
  method Delete(db: Db, productId: Id) returns (r: Result<Product>)
    requires db.Valid()
    modifies db`products
    ensures db.Valid()
    ensures r.Ok? <==> IsLiveProduct(old(db.products), productId)
    ensures r.Err? ==> r.error == NotFound(ProductRecord) && db.products == old(db.products)
    ensures r.Ok? ==>
      r.value == old(db.products)[productId].(deleted := true) && db.products == old(db.products)[productId := r.value]
      && !IsLiveProduct(db.products, productId)
  {
    if !IsLiveProduct(db.products, productId) {
      return Err(NotFound(ProductRecord));
    }
    var product := db.products[productId].(deleted := true);
    PutProductKeepsValid(db.products, db.productIds, db.categories, db.carts, db.cartItems, db.cartItemIds,
                         db.orders, db.orderIds, db.payments, db.paymentIds, db.addresses, db.addressIds,
                         productId, product, db.productIds);
    db.products := db.products[productId := product];
    r := Ok(product);
  }

  // ---------------------------------------------------------------------
  // Categories
  // ---------------------------------------------------------------------

  /**
   * `createCategory`: the slug must be free (a removed category keeps its
   * slug) and a supplied parent must exist.
   */
  method CreateCategory(db: Db, categoryId: Id, name: string, slug: string, parentId: Option<Id>, isActive: bool)
    returns (r: Result<Category>)
    requires db.Valid() && categoryId !in db.categories
    modifies db`categories
    ensures db.Valid()
    ensures !CategorySlugFree(old(db.categories), slug, categoryId) ==> r == Err(BadRequest(CategorySlugTaken))
    ensures (CategorySlugFree(old(db.categories), slug, categoryId) && parentId.Some?
             && parentId.value !in old(db.categories)) ==> r == Err(NotFound(ParentCategory))
    ensures r.Ok? <==> CategorySlugFree(old(db.categories), slug, categoryId) && (parentId.Some? ==> parentId.value in old(db.categories))
    ensures r.Ok? ==> r.value == Category(name, slug, parentId, isActive, false) && db.categories == old(db.categories)[categoryId := r.value]
    ensures r.Err? ==> db.categories == old(db.categories)
  {
    if !CategorySlugFree(db.categories, slug, categoryId) {
      return Err(BadRequest(CategorySlugTaken));
    }
    if parentId.Some? && parentId.value !in db.categories {
      return Err(NotFound(ParentCategory));
    }
    var category := Category(name, slug, parentId, isActive, false);
    PutCategoryKeepsValid(db.products, db.productIds, db.categories, db.carts, db.cartItems, db.cartItemIds,
                          db.orders, db.orderIds, db.payments, db.paymentIds, db.addresses, db.addressIds,
                          categoryId, category);
    db.categories := db.categories[categoryId := category];
    r := Ok(category);
  }

  function ApplyCategoryPatch(c: Category, patch: CategoryPatch): Category
  {
    c.(name := patch.name.GetOr(c.name),
       slug := patch.slug.GetOr(c.slug),
       parentId := if patch.parentId.Some? then patch.parentId else c.parentId,
       isActive := patch.isActive.GetOr(c.isActive))
  }

  /** The parent check of `updateCategory`: only a category naming itself is refused as its own parent. */
  function ParentProblem(categories: map<Id, Category>, categoryId: Id, parentId: Option<Id>): (problem: Option<Error>)
    ensures problem.None? <==> parentId.None? || (parentId.value != categoryId && parentId.value in categories)
    ensures problem.Some? && parentId.value == categoryId ==> problem.value == BadRequest(OwnParent)
  {
    if parentId.None? then None
    else if parentId.value == categoryId then Some(BadRequest(OwnParent))
    else if parentId.value !in categories then Some(NotFound(ParentCategory))
    else None
  }

  /**
   * The check looks one step up only: with `a` under `b`, moving `b` under
   * `a` passes it, and the two categories become each other's parent.
   */
  lemma ParentCheckAllowsTwoCycle(categories: map<Id, Category>, a: Id, b: Id)
    requires a != b && a in categories && b in categories && categories[a].parentId == Some(b)
    ensures ParentProblem(categories, b, Some(a)).None?
    ensures var after := categories[b := categories[b].(parentId := Some(a))];
      after[a].parentId == Some(b) && after[b].parentId == Some(a)
  {
  }

  /**
   * `updateCategory`: the category must be live; a supplied parent must not
   * be the category itself and must exist; the store refuses a slug another
   * category has.
   */
  method UpdateCategory(db: Db, categoryId: Id, patch: CategoryPatch) returns (r: Result<Category>)
    requires db.Valid()
    modifies db`categories
    ensures db.Valid()
    ensures !(categoryId in old(db.categories) && !old(db.categories)[categoryId].deleted) ==> r == Err(NotFound(CategoryRecord))
    ensures categoryId in old(db.categories) && !old(db.categories)[categoryId].deleted ==>
      var problem := ParentProblem(old(db.categories), categoryId, patch.parentId);
      && (problem.Some? ==> r == Err(problem.value))
      && (problem.None? && !CategorySlugFree(old(db.categories), ApplyCategoryPatch(old(db.categories)[categoryId], patch).slug, categoryId) ==>
            r == Err(Duplicate(CategorySlug)))
      && (problem.None? && CategorySlugFree(old(db.categories), ApplyCategoryPatch(old(db.categories)[categoryId], patch).slug, categoryId) ==>
            r == Ok(ApplyCategoryPatch(old(db.categories)[categoryId], patch))
            && db.categories == old(db.categories)[categoryId := r.value])
    ensures r.Err? ==> db.categories == old(db.categories)
  {
    if !(categoryId in db.categories && !db.categories[categoryId].deleted) {
      return Err(NotFound(CategoryRecord));
    }
    var problem := ParentProblem(db.categories, categoryId, patch.parentId);
    if problem.Some? {
      return Err(problem.value);
    }
    var category := ApplyCategoryPatch(db.categories[categoryId], patch);
    if !CategorySlugFree(db.categories, category.slug, categoryId) {
      return Err(Duplicate(CategorySlug));
    }
    PutCategoryKeepsValid(db.products, db.productIds, db.categories, db.carts, db.cartItems, db.cartItemIds,
                          db.orders, db.orderIds, db.payments, db.paymentIds, db.addresses, db.addressIds,
                          categoryId, category);
    db.categories := db.categories[categoryId := category];
    r := Ok(category);
  }

  /** The number of live products in the category. */
  function LiveProductCount(products: map<Id, Product>, categoryId: Id): (count: nat)
  {
    |set p | p in products && products[p].categoryId == categoryId && !products[p].deleted|
  }

  /** The number of live categories directly under the category. */
  function LiveChildCount(categories: map<Id, Category>, categoryId: Id): (count: nat)
  {
    |set c | c in categories && categories[c].parentId == Some(categoryId) && !categories[c].deleted|
  }

  lemma LiveProductCountPositive(products: map<Id, Product>, categoryId: Id)
    ensures LiveProductCount(products, categoryId) > 0 <==>
      exists p :: p in products && products[p].categoryId == categoryId && !products[p].deleted
  {
    var s := set p | p in products && products[p].categoryId == categoryId && !products[p].deleted;
    if |s| > 0 {
      var p :| p in s;
    }
    if exists p :: p in products && products[p].categoryId == categoryId && !products[p].deleted {
      var p :| p in products && products[p].categoryId == categoryId && !products[p].deleted;
      assert p in s;
    }
  }

  lemma LiveChildCountPositive(categories: map<Id, Category>, categoryId: Id)
    ensures LiveChildCount(categories, categoryId) > 0 <==>
      exists c :: c in categories && categories[c].parentId == Some(categoryId) && !categories[c].deleted
  {
    var s := set c | c in categories && categories[c].parentId == Some(categoryId) && !categories[c].deleted;
    if |s| > 0 {
      var c :| c in s;
    }
    if exists c :: c in categories && categories[c].parentId == Some(categoryId) && !categories[c].deleted {
      var c :| c in categories && categories[c].parentId == Some(categoryId) && !categories[c].deleted;
      assert c in s;
    }
  }

  /**
   * `deleteCategory`: a live category with no live product and no live
   * child is tombstoned; otherwise nothing changes.
   */
  method DeleteCategory(db: Db, categoryId: Id) returns (r: Result<Category>)
    requires db.Valid()
    modifies db`categories
    ensures db.Valid()
    ensures !(categoryId in old(db.categories) && !old(db.categories)[categoryId].deleted) ==> r == Err(NotFound(CategoryRecord))
    ensures (categoryId in old(db.categories) && !old(db.categories)[categoryId].deleted
             && exists p :: p in db.products && db.products[p].categoryId == categoryId && !db.products[p].deleted) ==>
      r == Err(BadRequest(CategoryHasProducts))
    ensures r.Ok? <==>
      (&& categoryId in old(db.categories) && !old(db.categories)[categoryId].deleted
       && (forall p :: p in db.products && db.products[p].categoryId == categoryId ==> db.products[p].deleted)
       && (forall c :: c in old(db.categories) && old(db.categories)[c].parentId == Some(categoryId) ==> old(db.categories)[c].deleted))
    ensures r.Ok? ==>
      r.value == old(db.categories)[categoryId].(deleted := true) && db.categories == old(db.categories)[categoryId := r.value]
    ensures r.Err? ==> db.categories == old(db.categories)
    ensures r.Err? && r.error != NotFound(CategoryRecord) && r.error != BadRequest(CategoryHasProducts) ==>
      r.error == BadRequest(CategoryHasChildren)
  {
    if !(categoryId in db.categories && !db.categories[categoryId].deleted) {
      return Err(NotFound(CategoryRecord));
    }
    LiveProductCountPositive(db.products, categoryId);
    if LiveProductCount(db.products, categoryId) > 0 {
      return Err(BadRequest(CategoryHasProducts));
    }
    LiveChildCountPositive(db.categories, categoryId);
    if LiveChildCount(db.categories, categoryId) > 0 {
      return Err(BadRequest(CategoryHasChildren));
    }
    var category := db.categories[categoryId].(deleted := true);
    PutCategoryKeepsValid(db.products, db.productIds, db.categories, db.carts, db.cartItems, db.cartItemIds,
                          db.orders, db.orderIds, db.payments, db.paymentIds, db.addresses, db.addressIds,
                          categoryId, category);
    db.categories := db.categories[categoryId := category];
    r := Ok(category);
  }
}
