/**
 * The catalogue page's filter: a product is shown when its name or description
 * contains the search term (ignoring case), its category is the selected one (or
 * 'all' is selected), and its price lies within the price range, both ends
 * included. The filter inputs and the reset button replace the filter state.
 *
 * Prices and both ends of the range are held in cents. The API sends prices with
 * two decimals and the number boxes hold whole amounts, so comparing in cents
 * gives the same answers as comparing the parsed numbers.
 */
module ProductsPage {
  import opened Wrappers
  import opened Text
  import opened Lists

  /** A product as the page lists it; `price` in cents. */
  datatype ShopProduct = ShopProduct(name: string, description: string, category: Option<nat>, price: int)

  /** The filter state: search term, selected category (an id as text, or "all") and price range in cents. */
  datatype Filters = Filters(search: string, category: string, minCents: int, maxCents: int)

  /** The initial upper end of the range, 10000 in whole currency units. */
  const DefaultMaxCents: int := 1000000

  const InitialFilters: Filters := Filters("", "all", 0, DefaultMaxCents)

  predicate MatchesSearch(p: ShopProduct, term: string) {
    Contains(Lower(p.name), Lower(term)) || Contains(Lower(p.description), Lower(term))
  }

  /** `product.category === parseInt(selectedCategory)`, or 'all'. A failed parse matches nothing. */
  predicate MatchesCategory(p: ShopProduct, selected: string) {
    selected == "all" || (p.category.Some? && ParseInt(selected) == Some(p.category.value as int))
  }

  predicate MatchesPrice(p: ShopProduct, minCents: int, maxCents: int) {
    minCents <= p.price && p.price <= maxCents
  }

  predicate Keep(p: ShopProduct, f: Filters) {
    MatchesSearch(p, f.search) && MatchesCategory(p, f.category) && MatchesPrice(p, f.minCents, f.maxCents)
  }

  function Kept(f: Filters): ShopProduct -> bool { p => Keep(p, f) }

  /** `filteredProducts`: the kept products, in catalogue order. */
  function FilteredProducts(products: seq<ShopProduct>, f: Filters): (r: seq<ShopProduct>)
    ensures SubseqOf(r, products)
    ensures forall i :: 0 <= i < |r| ==> Keep(r[i], f)
    ensures forall i :: 0 <= i < |products| ==> (products[i] in r <==> Keep(products[i], f))
  {
    FilterIsSubseq(products, Kept(f));
    Filter(products, Kept(f))
  }

  /** The empty search term is contained in every name. */
  lemma EmptySearchMatches(p: ShopProduct)
    ensures MatchesSearch(p, "")
  {
    assert Lower("") == "";
    assert OccursAt(Lower(p.name), "", 0);
  }

  /** Both ends of the range are included. */
  lemma RangeEndsIncluded(p: ShopProduct, f: Filters)
    requires f.minCents <= f.maxCents
    requires p.price == f.minCents || p.price == f.maxCents
    ensures MatchesPrice(p, f.minCents, f.maxCents)
  {
  }

  /** `Math.max(10000, ...products.map(p => p.price))`, in cents. */
  function ResetMax(products: seq<ShopProduct>): (r: int)
    ensures r >= DefaultMaxCents
    ensures forall i :: 0 <= i < |products| ==> products[i].price <= r
    ensures r == DefaultMaxCents || exists i :: 0 <= i < |products| && products[i].price == r
  {
    if products == [] then DefaultMaxCents
    else
      var rest := ResetMax(products[1..]);
      assert forall i :: 1 <= i < |products| ==> products[i] == products[1..][i - 1];
      if products[0].price > rest then products[0].price else rest
  }

  /** `Math.ceil` of an amount in cents, to whole currency units (Euclidean division floors here). */
  function CeilToUnit(cents: int): (r: int)
    ensures r % 100 == 0 && cents <= r < cents + 100
  {
    if cents % 100 == 0 then cents else (cents / 100 + 1) * 100
  }

  /** `Math.max(...products.map(p => p.price))`, for a non-empty list. */
  function MaxPrice(products: seq<ShopProduct>): (r: int)
    requires products != []
    ensures forall i :: 0 <= i < |products| ==> products[i].price <= r
    ensures exists i :: 0 <= i < |products| && products[i].price == r
  {
    if |products| == 1 then products[0].price
    else
      var rest := MaxPrice(products[1..]);
      assert forall i :: 1 <= i < |products| ==> products[i] == products[1..][i - 1];
      if products[0].price > rest then products[0].price else rest
  }

  /**
   * The filters once the catalogue has loaded: the upper end becomes the highest price rounded
   * up to a whole unit. With no products the upper end stays at its initial value.
   */
  function LoadedFilters(products: seq<ShopProduct>): (f: Filters)
    ensures f.search == "" && f.category == "all" && f.minCents == 0
    ensures products != [] ==> f.maxCents == CeilToUnit(MaxPrice(products))
    ensures products == [] ==> f.maxCents == DefaultMaxCents
  {
    if products == [] then InitialFilters
    else InitialFilters.(maxCents := CeilToUnit(MaxPrice(products)))
  }

  /** Right after loading, every product with a non-negative price is shown. */
  lemma {:induction false} LoadShowsAll(products: seq<ShopProduct>)
    requires forall i :: 0 <= i < |products| ==> products[i].price >= 0
    ensures FilteredProducts(products, LoadedFilters(products)) == products
  {
    var f := LoadedFilters(products);
    forall p | p in products ensures Kept(f)(p) {
      var i :| 0 <= i < |products| && products[i] == p;
      EmptySearchMatches(p);
    }
    FilterAll(products, Kept(f));
  }

  /** The state the reset button restores. */
  function ResetFilters(products: seq<ShopProduct>): Filters {
    Filters("", "all", 0, ResetMax(products))
  }

  /** After a reset every product with a non-negative price is shown again. */
  lemma {:induction false} ResetShowsAll(products: seq<ShopProduct>)
    requires forall i :: 0 <= i < |products| ==> products[i].price >= 0
    ensures FilteredProducts(products, ResetFilters(products)) == products
  {
    var f := ResetFilters(products);
    forall p | p in products ensures Kept(f)(p) {
      var i :| 0 <= i < |products| && products[i] == p;
      EmptySearchMatches(p);
    }
    FilterAll(products, Kept(f));
  }

  /** `parseInt(value) || 0` for a number box: the parsed integer, or 0 when the text does not parse. */
  function NumberBox(value: string): (r: int)
    ensures ParseInt(value).None? ==> r == 0
    ensures ParseInt(value).Some? ==> r == ParseInt(value).value
  {
    match ParseInt(value)
    case None => 0
    case Some(n) => n
  }

  /** A box holding a non-negative whole number reads as that number. */
  lemma NumberBoxOfNumeral(n: nat)
    ensures NumberBox(NatToString(n)) == n
  {
    ParseIntOfNatToString(n);
  }

  /** The page's filter state over the loaded catalogue. */
  class Catalogue {
    var products: seq<ShopProduct>
    var filters: Filters

    /** The page after its data has loaded. */
    constructor(products: seq<ShopProduct>)
      ensures this.products == products && filters == LoadedFilters(products)
    {
      this.products := products;
      filters := LoadedFilters(products);
    }

    /** What the grid shows. */
    function Shown(): seq<ShopProduct>
      reads this
    {
      FilteredProducts(products, filters)
    }

    method SetSearch(term: string)
      modifies this
      ensures products == old(products) && filters == old(filters).(search := term)
    {
      filters := filters.(search := term);
    }

    method SelectCategory(value: string)
      modifies this
      ensures products == old(products) && filters == old(filters).(category := value)
    {
      filters := filters.(category := value);
    }

    /** The lower number box, typed in whole units. */
    method SetMinBox(value: string)
      modifies this
      ensures products == old(products) && filters == old(filters).(minCents := NumberBox(value) * 100)
    {
      filters := filters.(minCents := NumberBox(value) * 100);
    }

    /** The upper number box, typed in whole units. */
    method SetMaxBox(value: string)
      modifies this
      ensures products == old(products) && filters == old(filters).(maxCents := NumberBox(value) * 100)
    {
      filters := filters.(maxCents := NumberBox(value) * 100);
    }

    /** The lower slider: its position is always a whole number. */
    method SetMinSlider(position: nat)
      modifies this
      ensures products == old(products) && filters == old(filters).(minCents := position * 100)
    {
      filters := filters.(minCents := position * 100);
    }

    /** The upper slider. */
    method SetMaxSlider(position: nat)
      modifies this
      ensures products == old(products) && filters == old(filters).(maxCents := position * 100)
    {
      filters := filters.(maxCents := position * 100);
    }

    /** "Restablecer Filtros": empty search, all categories, range from 0 to the reset maximum. */
    method Reset()
      modifies this
      ensures products == old(products) && filters == ResetFilters(products)
      ensures (forall i :: 0 <= i < |products| ==> products[i].price >= 0) ==> Shown() == products
    {
      filters := ResetFilters(products);
      if forall i :: 0 <= i < |products| ==> products[i].price >= 0 {
        ResetShowsAll(products);
      }
    }
  }
}
