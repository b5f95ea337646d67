/**
 * The catalog endpoints: the read-open/write-staff permission, the category filter of the
 * product listing, lookup of categories by slug, and the product update, which is always
 * partial and answers 400 for any failure (including an unknown product).
 *
 * Field validation follows Django REST framework's field types for the product serializer:
 * trimmed, non-blank text with a length limit, decimal precision `(10, 2)`, an integer stock
 * within the positive-integer column range, and a category that must exist.
 */
module CatalogViews {
  import opened Wrappers
  import opened Text
  import opened Accounts
  import opened CatalogModels

  // ---------------------------------------------------------------- permission

  /** The HTTP methods Django REST framework treats as read-only. */
  predicate IsSafeMethod(method_: string) { method_ in {"GET", "HEAD", "OPTIONS"} }

  /**
   * `IsAdminOrReadOnly.has_permission`: reads are open to everyone, including anonymous
   * requesters (`None`); any other method needs a staff requester.
   */
  function HasPermission(method_: string, requester: Option<UserRecord>): (allowed: bool)
    ensures IsSafeMethod(method_) ==> allowed
    ensures !IsSafeMethod(method_) ==> (allowed <==> requester.Some? && requester.value.isStaff)
  {
    if IsSafeMethod(method_) then true
    else requester.Some? && requester.value.isStaff
  }

  /** Widening the requester's rights never withdraws a permission. */
  lemma PermissionMonotone(method_: string, r1: Option<UserRecord>, r2: Option<UserRecord>)
    requires HasPermission(method_, r1)
    requires r1.Some? ==> r2.Some? && (r1.value.isStaff ==> r2.value.isStaff)
    ensures HasPermission(method_, r2)
  {
  }

  // ---------------------------------------------------------------- listing

  /**
   * `ProductViewSet.get_queryset`: with no (or an empty) `category` parameter every product;
   * otherwise the products whose category's slug equals it.
   */
  function Listed(cs: map<nat, Category>, ps: map<nat, Product>, category: Option<string>): (r: set<nat>)
    ensures r <= ps.Keys
    ensures category.None? || category == Some([]) ==> r == ps.Keys
    ensures category.Some? && category.value != [] ==>
              forall p :: p in r <==> p in ps && ps[p].categoryId in cs && cs[ps[p].categoryId].slug == category.value
  {
    if category.None? || category.value == [] then ps.Keys
    else set p | p in ps && ps[p].categoryId in cs && cs[ps[p].categoryId].slug == category.value
  }

  /** With unique slugs, the filtered listing is the product set of the category with that slug. */
  lemma {:induction false} ListedIsCategoryProducts(cs: map<nat, Category>, ps: map<nat, Product>,
                                                    category: string, id: nat)
    requires category != [] && id in cs && cs[id].slug == category
    requires forall a, b :: a in cs && b in cs && a != b ==> cs[a].slug != cs[b].slug
    ensures Listed(cs, ps, Some(category)) == set p | p in ps && ps[p].categoryId == id
  {
    var r := Listed(cs, ps, Some(category));
    forall p | p in r ensures ps[p].categoryId == id {
      var a := ps[p].categoryId;
      assert cs[a].slug == cs[id].slug;
    }
  }

  /** `lookup_field = 'slug'`: the category a detail URL addresses. */
  function CategoryBySlug(cs: map<nat, Category>, slug: string): (r: Option<nat>)
    requires forall a, b :: a in cs && b in cs && a != b ==> cs[a].slug != cs[b].slug
    ensures r.Some? <==> exists a :: a in cs && cs[a].slug == slug
    ensures r.Some? ==> r.value in cs && cs[r.value].slug == slug
  {
    if exists a :: a in cs && cs[a].slug == slug then
      var a :| a in cs && cs[a].slug == slug;
      Some(a)
    else
      None
  }

  // ---------------------------------------------------------------- decimal precision

  /**
   * A decimal as Python holds it: `coefficient * 10^exponent`. Leading zeros are not kept, so
   * the coefficient's digit count is that of its absolute value (one digit for zero).
   */
  datatype Decimal = Decimal(coefficient: int, exponent: int)

  function NumDigits(n: nat): (d: nat)
    ensures d >= 1
    ensures n < Pow10(d)
    ensures d > 1 ==> Pow10(d - 1) <= n
  {
    if n < 10 then 1 else 1 + NumDigits(n / 10)
  }

  function Abs(x: int): nat { if x < 0 then -x else x }

  /** Whole digits and decimal places, counted as Django REST framework's `validate_precision` does. */
  datatype Precision = Precision(whole: nat, places: nat)

  function PrecisionOf(d: Decimal): (p: Precision)
    ensures d.exponent >= 0 ==> p.places == 0
    ensures d.exponent < 0 ==> p.places == -d.exponent
  {
    var n := NumDigits(Abs(d.coefficient));
    if d.exponent >= 0 then Precision(n + d.exponent, 0)
    else if n > -d.exponent then Precision(n + d.exponent, -d.exponent)
    else Precision(0, -d.exponent)
  }

  /** A price passes `DecimalField(max_digits=10, decimal_places=2)`. */
  predicate PriceValid(d: Decimal) {
    var p := PrecisionOf(d);
    p.places <= 2 && p.whole + p.places <= 10 && p.whole <= 8
  }

  /** The validated price in cents (the value quantized to 2 decimal places). */
  function ToCents(d: Decimal): int
    requires d.exponent >= -2
  {
    d.coefficient * Pow10(d.exponent + 2)
  }

  lemma {:induction false} Pow10Add(a: nat, b: nat)
    ensures Pow10(a + b) == Pow10(a) * Pow10(b)
    decreases a
  {
    if a > 0 { Pow10Add(a - 1, b); }
  }

  lemma {:induction false} Pow10Monotone(a: nat, b: nat)
    requires a <= b
    ensures Pow10(a) <= Pow10(b)
    decreases b
  {
    if a < b { Pow10Monotone(a, b - 1); }
  }

  lemma ScaleBound(x: int, b: nat, k: nat)
    requires -(b as int) < x < b && k >= 1
    ensures -(b * k) < x * k < b * k
  {
    assert b * k - x * k == (b - x) * k;
    assert x * k + b * k == (x + b) * k;
  }

  /** The digits a valid price can have, counting its two decimal places. */
  lemma {:induction false} ValidPriceDigits(d: Decimal)
    requires PriceValid(d)
    ensures d.exponent >= -2
    ensures NumDigits(Abs(d.coefficient)) + d.exponent + 2 <= 10
  {
  }

  /** A price that passes validation always fits the `(10, 2)` column. */
  lemma {:induction false} ValidPriceFits(d: Decimal)
    requires PriceValid(d)
    ensures d.exponent >= -2
    ensures FitsDecimal(ToCents(d), 10)
  {
    ValidPriceDigits(d);
    var n := NumDigits(Abs(d.coefficient));
    var e: nat := d.exponent + 2;
    // |coefficient| < 10^n, so |cents| < 10^n * 10^e = 10^(n + e) <= 10^10.
    Pow10Monotone(0, e);
    ScaleBound(d.coefficient, Pow10(n), Pow10(e));

    Pow10Add(n, e);
    Pow10Monotone(n + e, 10);
  }

  // ---------------------------------------------------------------- partial update

  /** A numeric request value: either well formed or not a number at all. */
  datatype Numeric<T> = NotANumber | Number(value: T)

  /** The writable fields of the product serializer, each present or absent. */
  datatype ProductPatch = ProductPatch(
    name: Option<string>,
    description: Option<string>,
    price: Option<Numeric<Decimal>>,
    stock: Option<Numeric<int>>,
    category: Option<nat>)

  /** The validated values: text trimmed, price in cents. */
  datatype CleanPatch = CleanPatch(
    name: Option<string>,
    description: Option<string>,
    price: Option<int>,
    stock: Option<int>,
    category: Option<nat>)

  const NameMaxLength: nat := 200

  /** A text field that is required to be non-blank after trimming, with an optional limit. */
  predicate TextValid(v: string, maxLength: Option<nat>) {
    Strip(v) != [] && (maxLength.Some? ==> |Strip(v)| <= maxLength.value)
  }

  predicate StockValid(v: Numeric<int>) { v.Number? && 0 <= v.value <= MaxStock }

  /** The writable fields, as error keys. */
  datatype ProductField = NameField | DescriptionField | PriceField | StockField | CategoryField

  /** Whether field `f` is present in the patch and fails its check. */
  predicate Fails(q: ProductPatch, cs: map<nat, Category>, f: ProductField) {
    match f
    case NameField => q.name.Some? && !TextValid(q.name.value, Some(NameMaxLength))
    case DescriptionField => q.description.Some? && !TextValid(q.description.value, None)
    case PriceField => q.price.Some? && !(q.price.value.Number? && PriceValid(q.price.value.value))
    case StockField => q.stock.Some? && !StockValid(q.stock.value)
    case CategoryField => q.category.Some? && q.category.value !in cs
  }

  /** The fields of a patch that fail validation: an absent field never does. */
  function PatchErrors(q: ProductPatch, cs: map<nat, Category>): (e: set<ProductField>)
    ensures forall f :: f in e <==> Fails(q, cs, f)
  {
    set f: ProductField | Fails(q, cs, f)
  }

  /** The values a patch without errors writes. */
  function Clean(q: ProductPatch, cs: map<nat, Category>): (c: CleanPatch)
    requires PatchErrors(q, cs) == {}
    ensures c.name.Some? <==> q.name.Some?
    ensures c.description.Some? <==> q.description.Some?
    ensures c.price.Some? <==> q.price.Some?
    ensures c.stock.Some? <==> q.stock.Some?
    ensures c.category == q.category && (c.category.Some? ==> c.category.value in cs)
    ensures c.price.Some? ==> FitsDecimal(c.price.value, 10)
    ensures c.stock.Some? ==> 0 <= c.stock.value <= MaxStock
    ensures c.name.Some? ==> c.name.value != [] && |c.name.value| <= NameMaxLength
    ensures c.description.Some? ==> c.description.value != []
  {
    assert !Fails(q, cs, NameField) && !Fails(q, cs, DescriptionField) && !Fails(q, cs, PriceField);
    assert !Fails(q, cs, StockField) && !Fails(q, cs, CategoryField);
    var price := if q.price.Some? then
                   ValidPriceFits(q.price.value.value);
                   Some(ToCents(q.price.value.value))
                 else None;
    CleanPatch(
      if q.name.Some? then Some(Strip(q.name.value)) else None,
      if q.description.Some? then Some(Strip(q.description.value)) else None,
      price,
      if q.stock.Some? then Some(q.stock.value.value) else None,
      q.category)
  }

  /** The stored product after a validated partial update saved at time `now`. */
  function ApplyPatch(p: Product, c: CleanPatch, now: int): (p': Product)
    ensures p'.name == c.name.GetOr(p.name) && p'.description == c.description.GetOr(p.description)
    ensures p'.price == c.price.GetOr(p.price) && p'.stock == c.stock.GetOr(p.stock)
    ensures p'.categoryId == c.category.GetOr(p.categoryId)
    ensures p'.originalPrice == p.originalPrice && p'.hasDiscount == p.hasDiscount
    ensures p'.discountPercentage == p.discountPercentage && p'.createdAt == p.createdAt
    ensures p'.updatedAt == now
  {
    p.(name := c.name.GetOr(p.name), description := c.description.GetOr(p.description),
       price := c.price.GetOr(p.price), stock := c.stock.GetOr(p.stock),
       categoryId := c.category.GetOr(p.categoryId), updatedAt := now)
  }

  /** A validated patch applied to a row that fits its columns gives a row that fits them too. */
  lemma {:induction false} PatchKeepsFit(p: Product, q: ProductPatch, cs: map<nat, Category>, now: int)
    requires ProductFits(p) && p.categoryId in cs && PatchErrors(q, cs) == {}
    ensures var p' := ApplyPatch(p, Clean(q, cs), now);
            ProductFits(p') && p'.categoryId in cs
  {
  }

  /**
   * `ProductViewSet.update`, always partial: 403 for a requester without write permission;
   * 400 with nothing saved for an unknown product or a field that fails validation; otherwise
   * the present fields are written, the modification time is set and the answer is 200.
   */
  method UpdateProduct(c: Catalog, requester: Option<UserRecord>, method_: string, id: nat,
                       q: ProductPatch, now: int)
    returns (status: nat)
    requires c.Valid()
    modifies c
    ensures c.Valid()
    ensures status == 403 <==> !HasPermission(method_, requester)
    ensures status == 200 <==> HasPermission(method_, requester) && id in old(c.products)
                               && PatchErrors(q, old(c.categories)) == {}
    ensures status in {200, 400, 403}
    ensures status == 200 ==>
              c.products == old(c.products)[id := ApplyPatch(old(c.products)[id], Clean(q, old(c.categories)), now)]
    ensures status != 200 ==> c.products == old(c.products)
    ensures c.categories == old(c.categories) && c.paymentMethods == old(c.paymentMethods)
  {
    if !HasPermission(method_, requester) {
      return 403;
    }
    if id !in c.products {
      return 400;
    }
    var errors := PatchErrors(q, c.categories);
    if errors != {} {
      return 400;
    }
    var updated := ApplyPatch(c.products[id], Clean(q, c.categories), now);
    PatchKeepsFit(c.products[id], q, c.categories, now);
    var ok := c.SaveProduct(id, updated);
    assert ok;
    status := 200;
  }
}
