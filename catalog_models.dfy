/**
 * The catalog tables: categories (unique name and slug, slug defaulted from the name on
 * save), products (declared decimal precision, non-negative stock, defaults, a foreign key
 * that cascades on delete) and payment methods; and the two declared orderings, categories
 * by name and products newest first.
 *
 * Money is kept in cents and percentages in hundredths, which is exactly what a decimal
 * column with two decimal places can hold. Django's `slugify` is a parameter.
 */
module CatalogModels {
  import opened Wrappers
  import opened Text

  datatype Category = Category(name: string, slug: string)

  datatype Product = Product(
    name: string,
    description: string,
    price: int,                 // cents
    originalPrice: Option<int>, // cents
    hasDiscount: bool,
    discountPercentage: int,    // hundredths of a percent
    stock: int,
    categoryId: nat,
    createdAt: int,
    updatedAt: int)

  datatype PaymentMethod = PaymentMethod(name: string, description: string, icon: Option<string>)

  function Pow10(n: nat): nat {
    if n == 0 then 1 else 10 * Pow10(n - 1)
  }

  /** Largest value of `PositiveIntegerField`. */
  const MaxStock: int := 2147483647

  /** A value in cents fits a decimal column of `maxDigits` digits with 2 decimal places. */
  predicate FitsDecimal(cents: int, maxDigits: nat) {
    -(Pow10(maxDigits) as int) < cents < Pow10(maxDigits)
  }

  /**
   * The declared column constraints of a product: price and original price `(10, 2)`,
   * discount percentage `(5, 2)`, stock a positive-integer column.
   */
  predicate ProductFits(p: Product) {
    && FitsDecimal(p.price, 10)
    && (p.originalPrice.Some? ==> FitsDecimal(p.originalPrice.value, 10))
    && FitsDecimal(p.discountPercentage, 5)
    && 0 <= p.stock <= MaxStock
  }

  /** A product as created with only its required fields given: the declared defaults apply. */
  function NewProduct(name: string, description: string, price: int, categoryId: nat, now: int): (p: Product)
    ensures !p.hasDiscount && p.discountPercentage == 0 && p.stock == 0 && p.originalPrice.None?
    ensures p.createdAt == now && p.updatedAt == now
    ensures p.name == name && p.description == description && p.price == price && p.categoryId == categoryId
    ensures FitsDecimal(price, 10) ==> ProductFits(p)
  {
    Product(name, description, price, None, false, 0, 0, categoryId, now, now)
  }

  /** `Category.save`: an empty slug is replaced by `slugify(name)`, a non-empty one is kept. */
  function SlugOnSave(name: string, slug: string, slugify: string -> string): (s: string)
    ensures slug != [] ==> s == slug
    ensures slug == [] ==> s == slugify(name)
  {
    if slug == [] then slugify(name) else slug
  }

  /** Saving a category a second time does not change its slug again. */
  lemma SlugOnSaveIdempotent(name: string, slug: string, slugify: string -> string)
    ensures SlugOnSave(name, SlugOnSave(name, slug, slugify), slugify) == SlugOnSave(name, slug, slugify)
  {
  }

  /** The products that survive deleting category `id`: every product of another category. */
  function CascadeProducts(products: map<nat, Product>, id: nat): (r: map<nat, Product>)
    ensures forall p :: p in r <==> p in products && products[p].categoryId != id
    ensures forall p :: p in r ==> r[p] == products[p]
  {
    map p | p in products && products[p].categoryId != id :: products[p]
  }

  class Catalog {
    var categories: map<nat, Category>
    var products: map<nat, Product>
    var paymentMethods: map<nat, PaymentMethod>
    /** The next value of each table's auto-increment key. */
    var nextCategoryId: nat
    var nextProductId: nat
    var nextPaymentMethodId: nat

    /** Unique names and slugs, referential integrity, the column constraints, fresh next keys. */
    predicate Valid()
      reads this
    {
      && (forall a, b :: a in categories && b in categories && a != b ==>
            categories[a].name != categories[b].name && categories[a].slug != categories[b].slug)
      && (forall p :: p in products ==> products[p].categoryId in categories && ProductFits(products[p]))
      && (forall a :: a in categories ==> a < nextCategoryId)
      && (forall p :: p in products ==> p < nextProductId)
      && (forall q :: q in paymentMethods ==> q < nextPaymentMethodId)
    }

    constructor ()
      ensures Valid()
      ensures categories == map[] && products == map[] && paymentMethods == map[]
    {
      categories, products, paymentMethods := map[], map[], map[];
      nextCategoryId, nextProductId, nextPaymentMethodId := 1, 1, 1;
    }

    predicate NameTaken(name: string)
      reads this
    {
      exists a | a in categories :: categories[a].name == name
    }

    predicate SlugTaken(slug: string)
      reads this
    {
      exists a | a in categories :: categories[a].slug == slug
    }

    /**
     * `Category(name=..., slug=...).save()` for a new row: the slug default is applied, then the
     * insert fails on a taken name or a taken slug (the unique constraints).
     */
    method InsertCategory(name: string, slug: string, slugify: string -> string) returns (ok: bool, id: nat)
      requires Valid()
      modifies this
      ensures Valid()
      ensures ok <==> !old(NameTaken(name)) && !old(SlugTaken(SlugOnSave(name, slug, slugify)))
      ensures ok ==> id !in old(categories)
                     && categories == old(categories)[id := Category(name, SlugOnSave(name, slug, slugify))]
      ensures !ok ==> categories == old(categories)
      ensures products == old(products) && paymentMethods == old(paymentMethods)
    {
      var s := slug;
      if s == [] {
        s := slugify(name);
      }
      if exists a | a in categories :: categories[a].name == name || categories[a].slug == s {
        return false, 0;
      }
      id := nextCategoryId;
      categories := categories[id := Category(name, s)];
      nextCategoryId := nextCategoryId + 1;
      ok := true;
    }

    /** Deleting a category deletes every product of it (`on_delete=CASCADE`). */
    method DeleteCategory(id: nat)
      requires Valid()
      modifies this
      ensures Valid()
      ensures categories == old(categories) - {id}
      ensures products == CascadeProducts(old(products), id)
      ensures paymentMethods == old(paymentMethods)
    {
      categories := categories - {id};
      products := CascadeProducts(products, id);
    }

    /**
     * `Product.objects.create(...)`: the insert fails when the category does not exist or a
     * value does not fit its column.
     */
    method InsertProduct(p: Product) returns (ok: bool, id: nat)
      requires Valid()
      modifies this
      ensures Valid()
      ensures ok <==> p.categoryId in old(categories) && ProductFits(p)
      ensures ok ==> id !in old(products) && products == old(products)[id := p]
      ensures !ok ==> products == old(products)
      ensures categories == old(categories) && paymentMethods == old(paymentMethods)
    {
      if p.categoryId !in categories || !ProductFits(p) {
        return false, 0;
      }
      id := nextProductId;
      products := products[id := p];
      nextProductId := nextProductId + 1;
      ok := true;
    }

    /** Saving an existing product with new values; the row must keep fitting its columns. */
    method SaveProduct(id: nat, p: Product) returns (ok: bool)
      requires Valid()
      modifies this
      ensures Valid()
      ensures ok <==> id in old(products) && p.categoryId in old(categories) && ProductFits(p)
      ensures products == if ok then old(products)[id := p] else old(products)
      ensures categories == old(categories) && paymentMethods == old(paymentMethods)
    {
      if id !in products || p.categoryId !in categories || !ProductFits(p) {
        return false;
      }
      products := products[id := p];
      ok := true;
    }

    method InsertPaymentMethod(m: PaymentMethod) returns (id: nat)
      requires Valid()
      modifies this
      ensures Valid()
      ensures id !in old(paymentMethods) && paymentMethods == old(paymentMethods)[id := m]
      ensures categories == old(categories) && products == old(products)
    {
      id := nextPaymentMethodId;
      paymentMethods := paymentMethods[id := m];
      nextPaymentMethodId := nextPaymentMethodId + 1;
    }
  }

  // ---------------------------------------------------------------- orderings

  /** `ordering = ['name']`: every pair of positions in ascending name order. */
  predicate ByName(cs: map<nat, Category>, s: seq<nat>) {
    && (forall i :: 0 <= i < |s| ==> s[i] in cs)
    && (forall i, j :: 0 <= i < j < |s| ==> StrLess(cs[s[i]].name, cs[s[j]].name))
  }

  function InsertByName(cs: map<nat, Category>, s: seq<nat>, x: nat): (r: seq<nat>)
    requires ByName(cs, s) && x in cs
    requires forall i :: 0 <= i < |s| ==> cs[s[i]].name != cs[x].name
    ensures ByName(cs, r)
    ensures forall y :: y in r <==> y in s || y == x
  {
    if s == [] then [x]
    else if StrLess(cs[x].name, cs[s[0]].name) then
      forall j | 0 <= j < |s| ensures StrLess(cs[x].name, cs[s[j]].name) {
        if j > 0 { StrLessTransitive(cs[x].name, cs[s[0]].name, cs[s[j]].name); }
      }
      [x] + s
    else
      StrLessTotal(cs[x].name, cs[s[0]].name);
      var rest := InsertByName(cs, s[1..], x);
      forall k | 0 <= k < |rest| ensures StrLess(cs[s[0]].name, cs[rest[k]].name) {
        if rest[k] != x {
          assert rest[k] in rest;
          assert rest[k] in s[1..];
          var j :| 0 <= j < |s[1..]| && s[1..][j] == rest[k];
          assert s[j + 1] == rest[k];
        }
      }
      [s[0]] + rest
  }

  /** The categories in the order every category query returns them. */
  method CategoriesByName(c: Catalog) returns (ids: seq<nat>)
    requires c.Valid()
    ensures ByName(c.categories, ids)
    ensures forall a :: a in ids <==> a in c.categories
  {
    var todo := c.categories.Keys;
    ids := [];
    while todo != {}
      invariant ByName(c.categories, ids)
      invariant todo <= c.categories.Keys
      invariant forall a :: a in c.categories <==> a in ids || a in todo
      invariant forall a :: a in ids ==> a !in todo
      decreases |todo|
    {
      var a :| a in todo;
      forall i | 0 <= i < |ids| ensures c.categories[ids[i]].name != c.categories[a].name {
        assert ids[i] in ids;
      }
      ids := InsertByName(c.categories, ids, a);
      todo := todo - {a};
    }
  }

  /**
   * `ordering = ['-created_at']`: newest first. Rows created at the same instant have no
   * declared order; the model places the higher key first.
   */
  predicate NewerFirst(ps: map<nat, Product>, a: nat, b: nat)
    requires a in ps && b in ps
  {
    ps[a].createdAt > ps[b].createdAt || (ps[a].createdAt == ps[b].createdAt && a > b)
  }

  predicate NewestFirst(ps: map<nat, Product>, s: seq<nat>) {
    && (forall i :: 0 <= i < |s| ==> s[i] in ps)
    && (forall i, j :: 0 <= i < j < |s| ==> NewerFirst(ps, s[i], s[j]))
  }

  function InsertNewest(ps: map<nat, Product>, s: seq<nat>, x: nat): (r: seq<nat>)
    requires NewestFirst(ps, s) && x in ps && x !in s
    ensures NewestFirst(ps, r)
    ensures forall y :: y in r <==> y in s || y == x
  {
    if s == [] then [x]
    else if NewerFirst(ps, x, s[0]) then [x] + s
    else
      var rest := InsertNewest(ps, s[1..], x);
      forall k | 0 <= k < |rest| ensures NewerFirst(ps, s[0], rest[k]) {
        if rest[k] != x {
          assert rest[k] in rest;
          assert rest[k] in s[1..];
          var j :| 0 <= j < |s[1..]| && s[1..][j] == rest[k];
          assert s[j + 1] == rest[k];
        }
      }
      [s[0]] + rest
  }

  /** The products in the order every product query returns them. */
  method ProductsNewestFirst(c: Catalog) returns (ids: seq<nat>)
    ensures NewestFirst(c.products, ids)
    ensures forall i, j :: 0 <= i < j < |ids| ==> c.products[ids[i]].createdAt >= c.products[ids[j]].createdAt
    ensures forall p :: p in ids <==> p in c.products
  {
    var todo := c.products.Keys;
    ids := [];
    while todo != {}
      invariant NewestFirst(c.products, ids)
      invariant todo <= c.products.Keys
      invariant forall p :: p in c.products <==> p in ids || p in todo
      invariant forall p :: p in ids ==> p !in todo
      decreases |todo|
    {
      var p :| p in todo;
      ids := InsertNewest(c.products, ids, p);
      todo := todo - {p};
    }
  }
}
