/**
 * The demo-data script: creates `admin` if absent, gets or creates five categories by slug
 * and four payment methods by name, and adds ten products when fewer than ten exist.
 *
 * An exception ends the script: a category insert that hits the unique name, or a
 * `get_or_create` by name that finds two payment methods. The time of each product insert
 * is a parameter.
 */
module DemoData {
  import opened Wrappers
  import opened Accounts
  import opened CatalogModels

  datatype CategorySeed = CategorySeed(name: string, slug: string)
  datatype PaymentSeed = PaymentSeed(name: string, description: string)
  datatype ProductSeed = ProductSeed(name: string, description: string, price: int, stock: int, categoryIndex: nat)

  const DemoAdminEmail: string := "admin@admin"
  const DemoAdminPassword: string := "admin"

  /** `create_superuser('admin', 'admin@admin', 'admin')` with its profile marked verified. */
  function DemoAdmin(): (r: UserRecord)
    ensures r.isSuperuser && r.isStaff && r.isActive && r.emailVerified
    ensures r.email == DemoAdminEmail && r.pwHash == Hashed(DemoAdminPassword)
  {
    UserRecord(DemoAdminEmail, true, true, true, true, Hashed(DemoAdminPassword))
  }

  const CategorySeeds: seq<CategorySeed> := [
    CategorySeed("Televisores", "televisores"),
    CategorySeed("Smartphones", "smartphones"),
    CategorySeed("Laptops", "laptops"),
    CategorySeed("Audio", "audio"),
    CategorySeed("Electrodom\U{00E9}sticos", "electrodomesticos")]

  const PaymentSeeds: seq<PaymentSeed> := [
    PaymentSeed("Tarjeta de Cr\U{00E9}dito",
                "Pago seguro con tarjeta de cr\U{00E9}dito Visa, MasterCard, o American Express."),
    PaymentSeed("PayPal",
                "Pago r\U{00E1}pido y seguro a trav\U{00E9}s de tu cuenta PayPal."),
    PaymentSeed("Transferencia Bancaria",
                "Transferencia directa a nuestra cuenta bancaria."),
    PaymentSeed("Pago M\U{00F3}vil",
                "Pago con aplicaciones m\U{00F3}viles como Apple Pay o Google Pay.")]

  // Descriptions of the demo products.
  const TvDescription: string :=
    "TV 4K con resoluci\U{00F3}n 3840x2160, HDR10+, Dolby Vision, sistema operativo Android TV y asistente de voz integrado."
  const OledDescription: string :=
    "Experiencia visual inmersiva con negros perfectos, contraste infinito y colores vibrantes. Compatible con todos los formatos HDR."
  const GalaxyDescription: string :=
    "Pantalla Dynamic AMOLED 2X de 6.8\", c\U{00E1}mara principal de 108MP, zoom \U{00F3}ptico 10x, 12GB RAM, 256GB almacenamiento."
  const IphoneDescription: string :=
    "Pantalla Super Retina XDR de 6.7\", triple c\U{00E1}mara con modo noche, chip A15 Bionic, 5G, 256GB de almacenamiento."
  const UltrabookDescription: string :=
    "Procesador Intel Core i7, 16GB RAM, 1TB SSD, pantalla 15.6\" 4K, gr\U{00E1}ficos NVIDIA GeForce RTX 3060."
  const MacbookDescription: string :=
    "Chip M2 Pro, 16GB RAM, 512GB SSD, pantalla Liquid Retina XDR de 14\", hasta 18 horas de bater\U{00ED}a."
  const HeadphonesDescription: string :=
    "Cancelaci\U{00F3}n activa de ruido, hasta 30 horas de bater\U{00ED}a, conexi\U{00F3}n Bluetooth 5.2, resistentes al agua IPX4."
  const SpeakerDescription: string :=
    "Sonido 360 grados con graves profundos, control por voz con m\U{00FA}ltiples asistentes, multiroom y WiFi."
  const FridgeDescription: string :=
    "Nevera inteligente con dispensador de agua, pantalla t\U{00E1}ctil, c\U{00E1}maras internas, y compartimentos ajustables."
  const VacuumDescription: string :=
    "Navegaci\U{00F3}n l\U{00E1}ser, mapeo inteligente, succi\U{00F3}n potente de 4000Pa, control por app y compatible con asistentes de voz."

  /** The ten demo products; prices in cents, categories as positions in `CategorySeeds`. */
  const ProductSeeds: seq<ProductSeed> := [
    ProductSeed("Smart TV 4K 55\"",
                TvDescription,
                69999, 15, 0),
    ProductSeed("Smart TV OLED 65\"",
                OledDescription,
                149999, 8, 0),
    ProductSeed("Smartphone Galaxy Ultra",
                GalaxyDescription,
                109999, 20, 1),
    ProductSeed("iPhone Pro Max",
                IphoneDescription,
                129999, 12, 1),
    ProductSeed("Laptop UltraBook",
                UltrabookDescription,
                179999, 7, 2),
    ProductSeed("MacBook Pro M2",
                MacbookDescription,
                199999, 5, 2),
    ProductSeed("Auriculares Inal\U{00E1}mbricos Premium",
                HeadphonesDescription,
                29999, 25, 3),
    ProductSeed("Altavoz Inteligente",
                SpeakerDescription,
                19999, 18, 3),
    ProductSeed("Refrigerador Smart",
                FridgeDescription,
                249999, 3, 4),
    ProductSeed("Robot Aspirador",
                VacuumDescription,
                49999, 10, 4)]

  /** Products are seeded only while fewer than this many exist. */
  const ProductThreshold: nat := 10

  /** No two category seeds share a name or a slug, and every seed has a slug. */
  predicate CategorySeedsDistinct(seeds: seq<CategorySeed>) {
    && (forall i, j :: 0 <= i < j < |seeds| ==> seeds[i].name != seeds[j].name && seeds[i].slug != seeds[j].slug)
    && (forall i :: 0 <= i < |seeds| ==> seeds[i].slug != [])
  }

  /** No two payment seeds share a name. */
  predicate PaymentSeedsDistinct(seeds: seq<PaymentSeed>) {
    forall i, j :: 0 <= i < j < |seeds| ==> seeds[i].name != seeds[j].name
  }

  /** Every product seed names one of `categories` categories and fits the product columns. */
  predicate ProductSeedsFit(seeds: seq<ProductSeed>, categories: nat) {
    forall i :: 0 <= i < |seeds| ==>
      seeds[i].categoryIndex < categories && 0 <= seeds[i].stock <= MaxStock && FitsDecimal(seeds[i].price, 10)
  }

  lemma CategorySeedsWellFormed()
    ensures |CategorySeeds| == 5 && CategorySeedsDistinct(CategorySeeds)
  {
  }

  lemma PaymentSeedsWellFormed()
    ensures |PaymentSeeds| == 4 && PaymentSeedsDistinct(PaymentSeeds)
  {
  }

  lemma ProductSeedsWellFormed()
    ensures |ProductSeeds| == ProductThreshold && ProductSeedsFit(ProductSeeds, |CategorySeeds|)
  {
    assert Pow10(10) == 10000000000 by {
      assert Pow10(5) == 100000;
    }
    assert |CategorySeeds| == 5;
    forall i | 0 <= i < |ProductSeeds|
      ensures ProductSeeds[i].categoryIndex < 5 && 0 <= ProductSeeds[i].stock <= 25
      ensures 0 <= ProductSeeds[i].price < 250000
    {
    }
  }

  // ---------------------------------------------------------------- admin

  /** The admin row is created only when there is no user named `admin`. */
  method SeedAdmin(t: UserTable)
    modifies t
    ensures AdminName in old(t.users) ==> t.users == old(t.users)
    ensures AdminName !in old(t.users) ==> t.users == old(t.users)[AdminName := DemoAdmin()]
  {
    if AdminName !in t.users {
      t.users := t.users[AdminName := DemoAdmin()];
    }
  }

  // ---------------------------------------------------------------- categories

  predicate SlugIn(cs: map<nat, Category>, slug: string) { exists a | a in cs :: cs[a].slug == slug }
  predicate NameIn(cs: map<nat, Category>, name: string) { exists a | a in cs :: cs[a].name == name }

  /** A seed can be got or created: its slug exists already, or its name is free. */
  predicate CategorySeedPasses(cs: map<nat, Category>, seed: CategorySeed) {
    SlugIn(cs, seed.slug) || !NameIn(cs, seed.name)
  }

  function AsCategory(s: CategorySeed): Category { Category(s.name, s.slug) }

  /** The categories in `cs` and not in `c0` are seeds among `seeds` whose slug `c0` lacked. */
  predicate OnlySeedsAdded(c0: map<nat, Category>, cs: map<nat, Category>, seeds: seq<CategorySeed>) {
    && (forall a :: a in c0 ==> a in cs && cs[a] == c0[a])
    && (forall a :: a in cs && a !in c0 ==>
          exists k :: 0 <= k < |seeds| && !SlugIn(c0, seeds[k].slug) && cs[a] == AsCategory(seeds[k]))
  }

  /**
   * `Category.objects.get_or_create(slug=..., defaults={'name': ...})` for one seed: the
   * category with the seed's slug when there is one, else a new category, whose insert raises
   * when the seed's name is taken.
   */
  method GetOrCreateCategory(c: Catalog, seed: CategorySeed) returns (ok: bool, id: nat)
    requires c.Valid() && seed.slug != []
    modifies c
    ensures c.Valid()
    ensures ok <==> CategorySeedPasses(old(c.categories), seed)
    ensures ok ==> id in c.categories && c.categories[id].slug == seed.slug
    ensures SlugIn(old(c.categories), seed.slug) ==> id in old(c.categories) && c.categories == old(c.categories)
    ensures ok && !SlugIn(old(c.categories), seed.slug) ==>
              id !in old(c.categories) && c.categories == old(c.categories)[id := AsCategory(seed)]
    ensures !ok ==> c.categories == old(c.categories)
    ensures c.products == old(c.products) && c.paymentMethods == old(c.paymentMethods)
  {
    if exists a | a in c.categories :: c.categories[a].slug == seed.slug {
      id :| id in c.categories && c.categories[id].slug == seed.slug;
      return true, id;
    }
    ok, id := c.InsertCategory(seed.name, seed.slug, s => s);
  }

  /** One more seed handled keeps the categories accounted for by the seeds handled so far. */
  lemma OnlySeedsAddedStep(c0: map<nat, Category>, cs: map<nat, Category>, cs': map<nat, Category>,
                           seeds: seq<CategorySeed>, i: nat, id: nat)
    requires i < |seeds| && OnlySeedsAdded(c0, cs, seeds[..i])
    requires cs' == cs || (id !in cs && !SlugIn(c0, seeds[i].slug) && cs' == cs[id := AsCategory(seeds[i])])
    ensures OnlySeedsAdded(c0, cs', seeds[..i + 1])
  {
    forall a | a in cs' && a !in c0
      ensures exists k :: 0 <= k < i + 1 && !SlugIn(c0, seeds[k].slug) && cs'[a] == AsCategory(seeds[k])
    {
      if a in cs {
        var k :| 0 <= k < i && !SlugIn(c0, seeds[..i][k].slug) && cs[a] == AsCategory(seeds[..i][k]);
        assert seeds[..i][k] == seeds[k];
      } else {
        assert cs'[a] == AsCategory(seeds[i]);
      }
    }
  }

  /**
   * `get_or_create` for each seed, in order. `ids[k]` is the category of seed `k`, found or
   * created; found categories keep their name.
   */
  method SeedCategories(c: Catalog, seeds: seq<CategorySeed>) returns (ok: bool, ids: seq<nat>)
    requires c.Valid() && CategorySeedsDistinct(seeds)
    modifies c
    ensures c.Valid()
    ensures ok <==> forall k :: 0 <= k < |seeds| ==> CategorySeedPasses(old(c.categories), seeds[k])
    ensures ok ==> |ids| == |seeds|
    ensures ok ==> IdsFor(c.categories, ids, seeds)
    ensures OnlySeedsAdded(old(c.categories), c.categories, seeds)
    ensures c.products == old(c.products) && c.paymentMethods == old(c.paymentMethods)
  {
    ghost var c0 := c.categories;
    ids := [];
    var i := 0;
    while i < |seeds|
      invariant 0 <= i <= |seeds| && |ids| == i
      invariant c.Valid()
      invariant forall k :: 0 <= k < i ==> CategorySeedPasses(c0, seeds[k])
      invariant IdsFor(c.categories, ids, seeds)
      invariant OnlySeedsAdded(c0, c.categories, seeds[..i])
      invariant c.products == old(c.products) && c.paymentMethods == old(c.paymentMethods)
    {
      SeedsBeforeDiffer(c0, c.categories, seeds, i);
      ghost var before := c.categories;
      var found, id := GetOrCreateCategory(c, seeds[i]);
      if !found {
        return false, ids;
      }
      OnlySeedsAddedStep(c0, before, c.categories, seeds, i, id);
      IdsForStep(before, c.categories, ids, seeds, id);
      ids := ids + [id];
      i := i + 1;
    }
    assert seeds[..i] == seeds;
    ok := true;
  }

  /** `ids[k]` is a category with the slug of seed `k`, for every `k < |ids|`. */
  predicate IdsFor(cs: map<nat, Category>, ids: seq<nat>, seeds: seq<CategorySeed>) {
    |ids| <= |seeds| && forall k :: 0 <= k < |ids| ==> ids[k] in cs && cs[ids[k]].slug == seeds[k].slug
  }

  lemma IdsForStep(cs: map<nat, Category>, cs': map<nat, Category>, ids: seq<nat>, seeds: seq<CategorySeed>, id: nat)
    requires IdsFor(cs, ids, seeds) && |ids| < |seeds|
    requires id in cs' && cs'[id].slug == seeds[|ids|].slug
    requires cs' == cs || (id !in cs && cs' == cs[id := cs'[id]])
    ensures IdsFor(cs', ids + [id], seeds)
  {
  }

  /** Categories created for seeds before `i` carry neither the slug nor the name of seed `i`. */
  lemma SeedsBeforeDiffer(c0: map<nat, Category>, cs: map<nat, Category>, seeds: seq<CategorySeed>, i: nat)
    requires i < |seeds| && CategorySeedsDistinct(seeds) && OnlySeedsAdded(c0, cs, seeds[..i])
    ensures SlugIn(cs, seeds[i].slug) <==> SlugIn(c0, seeds[i].slug)
    ensures NameIn(cs, seeds[i].name) <==> NameIn(c0, seeds[i].name)
  {
    if SlugIn(cs, seeds[i].slug) {
      var a :| a in cs && cs[a].slug == seeds[i].slug;
      assert a in c0;
    }
    if NameIn(cs, seeds[i].name) {
      var a :| a in cs && cs[a].name == seeds[i].name;
      assert a in c0;
    }
    if SlugIn(c0, seeds[i].slug) {
      var a :| a in c0 && c0[a].slug == seeds[i].slug;
      assert a in cs;
    }
    if NameIn(c0, seeds[i].name) {
      var a :| a in c0 && c0[a].name == seeds[i].name;
      assert a in cs;
    }
  }

  /** When every seed slug exists already, no category is added. */
  lemma {:induction false} NothingAddedWhenAllSlugsExist(c0: map<nat, Category>, cs: map<nat, Category>,
                                                          seeds: seq<CategorySeed>)
    requires forall k :: 0 <= k < |seeds| ==> SlugIn(c0, seeds[k].slug)
    requires OnlySeedsAdded(c0, cs, seeds)
    ensures cs == c0
  {
    assert cs.Keys == c0.Keys;
  }

  // ---------------------------------------------------------------- payment methods

  /** `PaymentMethod.objects.filter(name=name)`. */
  function Named(pms: map<nat, PaymentMethod>, name: string): (r: set<nat>)
    ensures forall q :: q in r <==> q in pms && pms[q].name == name
  {
    set q | q in pms && pms[q].name == name
  }

  function AsPaymentMethod(s: PaymentSeed): PaymentMethod { PaymentMethod(s.name, s.description, None) }

  /** The methods in `pms` and not in `p0` are seeds among `seeds` whose name `p0` lacked. */
  predicate OnlyMethodsAdded(p0: map<nat, PaymentMethod>, pms: map<nat, PaymentMethod>, seeds: seq<PaymentSeed>) {
    && (forall q :: q in p0 ==> q in pms && pms[q] == p0[q])
    && (forall q :: q in pms && q !in p0 ==>
          exists k :: 0 <= k < |seeds| && Named(p0, seeds[k].name) == {} && pms[q] == AsPaymentMethod(seeds[k]))
  }

  /**
   * `PaymentMethod.objects.get_or_create(name=..., defaults={'description': ...})` for one
   * seed: raises when two methods carry the name, creates the method when none does.
   */
  method GetOrCreatePaymentMethod(c: Catalog, seed: PaymentSeed) returns (ok: bool, id: nat)
    requires c.Valid()
    modifies c
    ensures c.Valid()
    ensures ok <==> |Named(old(c.paymentMethods), seed.name)| <= 1
    ensures ok ==> |Named(c.paymentMethods, seed.name)| == 1
    ensures !ok || Named(old(c.paymentMethods), seed.name) != {} ==> c.paymentMethods == old(c.paymentMethods)
    ensures ok && Named(old(c.paymentMethods), seed.name) == {} ==>
              id !in old(c.paymentMethods) && c.paymentMethods == old(c.paymentMethods)[id := AsPaymentMethod(seed)]
    ensures c.categories == old(c.categories) && c.products == old(c.products)
  {
    id := 0;
    var named := set q | q in c.paymentMethods && c.paymentMethods[q].name == seed.name;
    assert named == Named(c.paymentMethods, seed.name);
    if |named| > 1 {
      return false, 0;
    }
    if named == {} {
      id := c.InsertPaymentMethod(AsPaymentMethod(seed));
      assert Named(c.paymentMethods, seed.name) == {id};
    }
    ok := true;
  }

  /** The methods added for seeds before `i` do not carry the name of seed `i`. */
  lemma MethodsBeforeDiffer(p0: map<nat, PaymentMethod>, pms: map<nat, PaymentMethod>, seeds: seq<PaymentSeed>, i: nat)
    requires i < |seeds| && PaymentSeedsDistinct(seeds) && OnlyMethodsAdded(p0, pms, seeds[..i])
    ensures Named(pms, seeds[i].name) == Named(p0, seeds[i].name)
  {
    forall q | q in pms && q !in p0
      ensures pms[q].name != seeds[i].name
    {
      var k :| 0 <= k < i && Named(p0, seeds[..i][k].name) == {} && pms[q] == AsPaymentMethod(seeds[..i][k]);
      assert seeds[..i][k] == seeds[k];
    }
  }

  /** One more seed handled keeps the methods accounted for by the seeds handled so far. */
  lemma OnlyMethodsAddedStep(p0: map<nat, PaymentMethod>, pms: map<nat, PaymentMethod>, pms': map<nat, PaymentMethod>,
                             seeds: seq<PaymentSeed>, i: nat, id: nat)
    requires i < |seeds| && OnlyMethodsAdded(p0, pms, seeds[..i])
    requires pms' == pms || (id !in pms && Named(p0, seeds[i].name) == {} && pms' == pms[id := AsPaymentMethod(seeds[i])])
    ensures OnlyMethodsAdded(p0, pms', seeds[..i + 1])
  {
    forall q | q in pms' && q !in p0
      ensures exists k :: 0 <= k < i + 1 && Named(p0, seeds[k].name) == {} && pms'[q] == AsPaymentMethod(seeds[k])
    {
      if q in pms {
        var k :| 0 <= k < i && Named(p0, seeds[..i][k].name) == {} && pms[q] == AsPaymentMethod(seeds[..i][k]);
        assert seeds[..i][k] == seeds[k];
      }
    }
  }

  /** Adding the method of seed `i` leaves the names of the other seeds as they were. */
  lemma OtherNamesKept(pms: map<nat, PaymentMethod>, pms': map<nat, PaymentMethod>, seeds: seq<PaymentSeed>,
                       i: nat, id: nat)
    requires i < |seeds| && PaymentSeedsDistinct(seeds)
    requires pms' == pms || (id !in pms && pms' == pms[id := AsPaymentMethod(seeds[i])])
    ensures forall k :: 0 <= k < i ==> Named(pms', seeds[k].name) == Named(pms, seeds[k].name)
  {
    forall k | 0 <= k < i
      ensures Named(pms', seeds[k].name) == Named(pms, seeds[k].name)
    {
      assert seeds[k].name != seeds[i].name;
    }
  }

  /** Methods accounted for by the seeds before `i` are accounted for by all the seeds. */
  lemma OnlyMethodsAddedWiden(p0: map<nat, PaymentMethod>, pms: map<nat, PaymentMethod>, seeds: seq<PaymentSeed>, i: nat)
    requires i <= |seeds| && OnlyMethodsAdded(p0, pms, seeds[..i])
    ensures OnlyMethodsAdded(p0, pms, seeds)
  {
    forall q | q in pms && q !in p0
      ensures exists k :: 0 <= k < |seeds| && Named(p0, seeds[k].name) == {} && pms[q] == AsPaymentMethod(seeds[k])
    {
      var k :| 0 <= k < i && Named(p0, seeds[..i][k].name) == {} && pms[q] == AsPaymentMethod(seeds[..i][k]);
      assert seeds[..i][k] == seeds[k];
    }
  }

  /** The body of the seeding loop for seed `i`: `p0` is the table before the first seed. */
  method SeedPaymentMethod(c: Catalog, ghost p0: map<nat, PaymentMethod>, seeds: seq<PaymentSeed>, i: nat)
    returns (ok: bool)
    requires i < |seeds| && c.Valid() && PaymentSeedsDistinct(seeds)
    requires forall k :: 0 <= k < i ==> |Named(c.paymentMethods, seeds[k].name)| == 1
    requires OnlyMethodsAdded(p0, c.paymentMethods, seeds[..i])
    modifies c
    ensures c.Valid()
    ensures ok <==> |Named(p0, seeds[i].name)| <= 1
    ensures ok ==> forall k :: 0 <= k < i + 1 ==> |Named(c.paymentMethods, seeds[k].name)| == 1
    ensures OnlyMethodsAdded(p0, c.paymentMethods, seeds[..i + 1])
    ensures c.categories == old(c.categories) && c.products == old(c.products)
  {
    MethodsBeforeDiffer(p0, c.paymentMethods, seeds, i);
    ghost var before := c.paymentMethods;
    var id;
    ok, id := GetOrCreatePaymentMethod(c, seeds[i]);
    OnlyMethodsAddedStep(p0, before, c.paymentMethods, seeds, i, id);
    if ok {
      OtherNamesKept(before, c.paymentMethods, seeds, i, id);
    }
  }

  /** `get_or_create` for each payment seed, in order. */
  method SeedPaymentMethods(c: Catalog, seeds: seq<PaymentSeed>) returns (ok: bool)
    requires c.Valid() && PaymentSeedsDistinct(seeds)
    modifies c
    ensures c.Valid()
    ensures ok <==> forall k :: 0 <= k < |seeds| ==> |Named(old(c.paymentMethods), seeds[k].name)| <= 1
    ensures ok ==> forall k :: 0 <= k < |seeds| ==> |Named(c.paymentMethods, seeds[k].name)| == 1
    ensures OnlyMethodsAdded(old(c.paymentMethods), c.paymentMethods, seeds)
    ensures c.categories == old(c.categories) && c.products == old(c.products)
  {
    ghost var p0 := c.paymentMethods;
    var i := 0;
    while i < |seeds|
      invariant 0 <= i <= |seeds|
      invariant c.Valid()
      invariant forall k :: 0 <= k < i ==> |Named(p0, seeds[k].name)| <= 1
      invariant forall k :: 0 <= k < i ==> |Named(c.paymentMethods, seeds[k].name)| == 1
      invariant OnlyMethodsAdded(p0, c.paymentMethods, seeds[..i])
      invariant c.categories == old(c.categories) && c.products == old(c.products)
    {
      ok := SeedPaymentMethod(c, p0, seeds, i);
      if !ok {
        OnlyMethodsAddedWiden(p0, c.paymentMethods, seeds, i + 1);
        return;
      }
      i := i + 1;
    }
    OnlyMethodsAddedWiden(p0, c.paymentMethods, seeds, i);
    ok := true;
  }

  /** When every seed name names exactly one method already, no method is added. */
  lemma {:induction false} NothingAddedWhenAllNamesExist(p0: map<nat, PaymentMethod>, pms: map<nat, PaymentMethod>,
                                                          seeds: seq<PaymentSeed>)
    requires forall k :: 0 <= k < |seeds| ==> |Named(p0, seeds[k].name)| == 1
    requires OnlyMethodsAdded(p0, pms, seeds)
    ensures pms == p0
  {
    assert pms.Keys == p0.Keys;
  }

  // ---------------------------------------------------------------- products

  /** The product a seed creates, placed in the category found or created for its seed. */
  function DemoProduct(seed: ProductSeed, ids: seq<nat>, createdAt: int): (p: Product)
    requires seed.categoryIndex < |ids|
    ensures p.name == seed.name && p.description == seed.description && p.price == seed.price
    ensures p.stock == seed.stock && !p.hasDiscount && p.discountPercentage == 0 && p.originalPrice.None?
    ensures p.categoryId == ids[seed.categoryIndex] && p.createdAt == createdAt
  {
    NewProduct(seed.name, seed.description, seed.price, ids[seed.categoryIndex], createdAt).(stock := seed.stock)
  }

  /** A seed that fits the columns gives a product that fits them. */
  lemma DemoProductFits(seed: ProductSeed, ids: seq<nat>, createdAt: int)
    requires seed.categoryIndex < |ids| && 0 <= seed.stock <= MaxStock && FitsDecimal(seed.price, 10)
    ensures ProductFits(DemoProduct(seed, ids, createdAt))
  {
  }

  /** The rows added when seed `k` is stored under key `keys[k]`, for every `k < |keys|`. */
  function NewRows(keys: seq<nat>, seeds: seq<ProductSeed>, ids: seq<nat>, clock: nat -> int): (r: map<nat, Product>)
    requires |keys| <= |seeds| && forall k :: 0 <= k < |seeds| ==> seeds[k].categoryIndex < |ids|
    ensures r.Keys == set k | k in keys
  {
    if keys == [] then map[]
    else
      var n := |keys| - 1;
      NewRows(keys[..n], seeds, ids, clock)[keys[n] := DemoProduct(seeds[n], ids, clock(n))]
  }

  /** One more key stores the product of the next seed. */
  lemma NewRowsSnoc(keys: seq<nat>, id: nat, seeds: seq<ProductSeed>, ids: seq<nat>, clock: nat -> int)
    requires |keys| < |seeds| && forall k :: 0 <= k < |seeds| ==> seeds[k].categoryIndex < |ids|
    ensures NewRows(keys + [id], seeds, ids, clock)
            == NewRows(keys, seeds, ids, clock)[id := DemoProduct(seeds[|keys|], ids, clock(|keys|))]
  {
    assert (keys + [id])[..|keys|] == keys;
  }

  /** With distinct keys, key `keys[k]` holds the product of seed `k`. */
  lemma {:induction false} NewRowsAt(keys: seq<nat>, seeds: seq<ProductSeed>, ids: seq<nat>, clock: nat -> int, k: nat)
    requires |keys| <= |seeds| && forall j :: 0 <= j < |seeds| ==> seeds[j].categoryIndex < |ids|
    requires forall i, j :: 0 <= i < j < |keys| ==> keys[i] != keys[j]
    requires k < |keys|
    ensures NewRows(keys, seeds, ids, clock)[keys[k]] == DemoProduct(seeds[k], ids, clock(k))
  {
    var n := |keys| - 1;
    if k < n {
      assert keys[..n][k] == keys[k];
      assert keys[n] != keys[k];
      NewRowsAt(keys[..n], seeds, ids, clock, k);
    }
  }

  /** Distinct keys, none of them in `base`. */
  predicate FreshKeys(keys: seq<nat>, base: map<nat, Product>) {
    && (forall i, j :: 0 <= i < j < |keys| ==> keys[i] != keys[j])
    && (forall i :: 0 <= i < |keys| ==> keys[i] !in base)
  }

  lemma FreshKeysAppend(keys: seq<nat>, base: map<nat, Product>, rows: map<nat, Product>, id: nat)
    requires FreshKeys(keys, base) && rows.Keys == (set k | k in keys) && id !in base + rows
    ensures FreshKeys(keys + [id], base)
  {
    forall i | 0 <= i < |keys| ensures keys[i] != id {
      assert keys[i] in rows;
    }
  }

  /** Rows added under fresh keys grow the table by one row per key. */
  lemma {:induction false} NewRowsCount(base: map<nat, Product>, keys: seq<nat>, seeds: seq<ProductSeed>,
                                        ids: seq<nat>, clock: nat -> int)
    requires |keys| <= |seeds| && forall k :: 0 <= k < |seeds| ==> seeds[k].categoryIndex < |ids|
    requires FreshKeys(keys, base)
    ensures |base + NewRows(keys, seeds, ids, clock)| == |base| + |keys|
  {
    if keys != [] {
      var n := |keys| - 1;
      var rows := NewRows(keys[..n], seeds, ids, clock);
      var v := DemoProduct(seeds[n], ids, clock(n));
      FreshLast(keys, keys[..n], base, rows);
      NewRowsCount(base, keys[..n], seeds, ids, clock);
      assert base + NewRows(keys, seeds, ids, clock) == (base + rows)[keys[n] := v] by {
        assert NewRows(keys, seeds, ids, clock) == rows[keys[n] := v];
        MergeUpdate(base, rows, keys[n], v);
      }
    }
  }

  /** The last of fresh keys is in neither `base` nor the rows of the keys before it. */
  lemma FreshLast(keys: seq<nat>, init: seq<nat>, base: map<nat, Product>, rows: map<nat, Product>)
    requires keys != [] && init == keys[..|keys| - 1]
    requires FreshKeys(keys, base) && rows.Keys == set k | k in init
    ensures FreshKeys(init, base)
    ensures keys[|keys| - 1] !in base + rows
  {
    var n := |keys| - 1;
    assert forall k :: 0 <= k < n ==> init[k] == keys[k] != keys[n];
    assert keys[n] !in init;
  }

  lemma MergeUpdate<K, V>(a: map<K, V>, b: map<K, V>, k: K, v: V)
    ensures a + b[k := v] == (a + b)[k := v]
  {
  }

  /**
   * `Product.objects.create(...)` for each seed, in order, the `i`-th at time `clock(i)`: the
   * product table gains one row per seed, under fresh and distinct keys.
   */
  method SeedProducts(c: Catalog, seeds: seq<ProductSeed>, ids: seq<nat>, clock: nat -> int)
    returns (created: seq<nat>)
    requires c.Valid() && ProductSeedsFit(seeds, |ids|)
    requires forall k :: 0 <= k < |ids| ==> ids[k] in c.categories
    modifies c
    ensures c.Valid()
    ensures |created| == |seeds| && |c.products| == |old(c.products)| + |seeds|
    ensures FreshKeys(created, old(c.products))
    ensures c.products == old(c.products) + NewRows(created, seeds, ids, clock)
    ensures c.categories == old(c.categories) && c.paymentMethods == old(c.paymentMethods)
  {
    created := [];
    var i := 0;
    while i < |seeds|
      invariant 0 <= i <= |seeds| && |created| == i
      invariant c.Valid()
      invariant c.categories == old(c.categories) && c.paymentMethods == old(c.paymentMethods)
      invariant FreshKeys(created, old(c.products))
      invariant c.products == old(c.products) + NewRows(created, seeds, ids, clock)
    {
      var product := DemoProduct(seeds[i], ids, clock(i));
      DemoProductFits(seeds[i], ids, clock(i));
      ghost var before := c.products;
      var ok, id := c.InsertProduct(product);
      assert id !in before && c.products == before[id := product];
      FreshKeysAppend(created, old(c.products), NewRows(created, seeds, ids, clock), id);
      NewRowsSnoc(created, id, seeds, ids, clock);
      MergeUpdate(old(c.products), NewRows(created, seeds, ids, clock), id, product);
      created := created + [id];
      i := i + 1;
    }
    NewRowsCount(old(c.products), created, seeds, ids, clock);
  }

  // ---------------------------------------------------------------- the whole script

  /** Everything the script creates is there: a second run has nothing left to create. */
  predicate Seeded(users: Users, cs: map<nat, Category>, pms: map<nat, PaymentMethod>, ps: map<nat, Product>,
                   categorySeeds: seq<CategorySeed>, paymentSeeds: seq<PaymentSeed>)
  {
    && AdminName in users
    && (forall k :: 0 <= k < |categorySeeds| ==> SlugIn(cs, categorySeeds[k].slug))
    && (forall k :: 0 <= k < |paymentSeeds| ==> |Named(pms, paymentSeeds[k].name)| == 1)
    && |ps| >= ProductThreshold
  }

  /**
   * `create_demo_data()` over the given seed lists: true when the script runs to its end. A
   * complete run leaves the tables seeded, and a run on seeded tables completes without
   * changing anything, so running the script twice is the same as running it once.
   */
  method Seed(t: UserTable, c: Catalog, categorySeeds: seq<CategorySeed>, paymentSeeds: seq<PaymentSeed>,
              productSeeds: seq<ProductSeed>, clock: nat -> int) returns (ok: bool)
    requires c.Valid() && CategorySeedsDistinct(categorySeeds) && PaymentSeedsDistinct(paymentSeeds)
    requires ProductSeedsFit(productSeeds, |categorySeeds|) && |productSeeds| >= ProductThreshold
    modifies t, c
    ensures c.Valid()
    ensures AdminName in old(t.users) ==> t.users == old(t.users)
    ensures AdminName !in old(t.users) ==> t.users == old(t.users)[AdminName := DemoAdmin()]
    ensures ok ==> Seeded(t.users, c.categories, c.paymentMethods, c.products, categorySeeds, paymentSeeds)
    ensures Seeded(old(t.users), old(c.categories), old(c.paymentMethods), old(c.products), categorySeeds, paymentSeeds) ==>
              ok && c.categories == old(c.categories) && c.paymentMethods == old(c.paymentMethods)
              && c.products == old(c.products)
    ensures ok && |old(c.products)| < ProductThreshold ==> |c.products| == |old(c.products)| + |productSeeds|
    ensures !ok || |old(c.products)| >= ProductThreshold ==> c.products == old(c.products)
  {
    ghost var seeded := Seeded(t.users, c.categories, c.paymentMethods, c.products, categorySeeds, paymentSeeds);
    ghost var c0, p0 := c.categories, c.paymentMethods;
    SeedAdmin(t);
    var ids;
    ok, ids := SeedCategories(c, categorySeeds);
    if !ok {
      return;
    }
    forall k | 0 <= k < |categorySeeds| ensures SlugIn(c.categories, categorySeeds[k].slug) {
      assert c.categories[ids[k]].slug == categorySeeds[k].slug;
    }
    if seeded {
      NothingAddedWhenAllSlugsExist(c0, c.categories, categorySeeds);
    }
    ok := SeedPaymentMethods(c, paymentSeeds);
    if !ok {
      return;
    }
    if seeded {
      NothingAddedWhenAllNamesExist(p0, c.paymentMethods, paymentSeeds);
    }
    if |c.products| < ProductThreshold {
      var created := SeedProducts(c, productSeeds, ids, clock);
    }
  }

  /** `create_demo_data()` itself: the script's own seed lists. */
  method CreateDemoData(t: UserTable, c: Catalog, clock: nat -> int) returns (ok: bool)
    requires c.Valid()
    modifies t, c
    ensures c.Valid()
    ensures AdminName in old(t.users) ==> t.users == old(t.users)
    ensures AdminName !in old(t.users) ==> t.users == old(t.users)[AdminName := DemoAdmin()]
    ensures ok ==> Seeded(t.users, c.categories, c.paymentMethods, c.products, CategorySeeds, PaymentSeeds)
    ensures Seeded(old(t.users), old(c.categories), old(c.paymentMethods), old(c.products), CategorySeeds, PaymentSeeds) ==>
              ok && c.categories == old(c.categories) && c.paymentMethods == old(c.paymentMethods)
              && c.products == old(c.products)
    ensures ok && |old(c.products)| < ProductThreshold ==> |c.products| == |old(c.products)| + ProductThreshold
    ensures !ok || |old(c.products)| >= ProductThreshold ==> c.products == old(c.products)
  {
    CategorySeedsWellFormed();
    PaymentSeedsWellFormed();
    ProductSeedsWellFormed();
    ok := Seed(t, c, CategorySeeds, PaymentSeeds, ProductSeeds, clock);
  }
}
