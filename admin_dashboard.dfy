/**
 * The administration dashboard's client-side logic: the selection toggles of the
 * discount and combo pickers, the local order-status edit, the order and product
 * filters, the per-category specification fields, and the two bulk actions
 * (apply a discount to the selected products, create a combo product) with their
 * guards. Component state is the `Dashboard` class; each handler replaces the
 * state slots its setters touch and leaves the others alone. Requests the
 * handlers issue are appended to `sent`.
 */
module AdminDashboard {
  import opened Wrappers
  import opened Text
  import opened Lists
  import opened DashboardText

  /** A product as the dashboard receives it; `price` is the decimal string the API sends. */
  datatype DashProduct = DashProduct(
    id: nat, name: string, description: string, price: string, stock: int, category: Option<nat>)

  /** An order; `details` stands for every field other than `id` and `status`. */
  datatype Order = Order(id: nat, status: string, details: map<string, string>)

  datatype DashCategory = DashCategory(id: nat, name: string)

  datatype FieldKind = TextField | Checkbox

  /** One entry of the per-category specification form. */
  datatype FieldSpec = FieldSpec(name: string, title: string, kind: FieldKind)

  /** The body of the PATCH sent for one discounted product. */
  datatype Patch = Patch(
    id: nat, name: string, description: string, price: string, stock: int, category: Option<nat>)

  /** The form data sent to create a combo product. */
  datatype ComboForm = ComboForm(
    name: string, description: string, price: string, stock: int, isCombo: bool, comboProducts: seq<nat>)

  datatype Request = PatchProduct(patch: Patch) | CreateProduct(form: ComboForm)

  const DiscountGuardMessage: string := "Selecciona al menos un producto y un porcentaje de descuento"
  const ComboGuardMessage: string :=
    "Debes seleccionar al menos un producto, asignar un nombre y un precio al combo"

  // ---------------------------------------------------------------------------
  // Selection toggle
  // ---------------------------------------------------------------------------

  /** The filter predicate `id => id !== productId`. */
  function Except(id: nat): nat -> bool { x => x != id }

  /** `handleProductSelection`: drop every copy of a selected id, or append an unselected one. */
  function Toggle(s: seq<nat>, id: nat): (r: seq<nat>)
    ensures id in r <==> id !in s
    ensures id !in s ==> r == s + [id]
    ensures forall x :: x != id ==> (x in r <==> x in s)
  {
    if id in s then Filter(s, Except(id)) else s + [id]
  }

  /** Toggling an unselected id twice gives the selection back. */
  lemma ToggleTwice(s: seq<nat>, id: nat)
    requires id !in s
    ensures Toggle(Toggle(s, id), id) == s
  {
    FilterAppend(s, [id], Except(id));
    FilterAll(s, Except(id));
    assert Filter([id], Except(id)) == [];
    assert Toggle(Toggle(s, id), id) == Filter(s + [id], Except(id));
  }

  /** Toggling one id leaves the other ids in their order. */
  lemma ToggleKeepsOthers(s: seq<nat>, id: nat)
    ensures Filter(Toggle(s, id), Except(id)) == Filter(s, Except(id))
  {
    if id in s {
      var f := Filter(s, Except(id));
      assert forall x :: x in f ==> Except(id)(x) by {
        forall x | x in f ensures Except(id)(x) {
          var k :| 0 <= k < |f| && f[k] == x;
        }
      }
      FilterAll(f, Except(id));
    } else {
      FilterAppend(s, [id], Except(id));
      assert Filter([id], Except(id)) == [];
    }
  }

  /** A selection without repeats stays without repeats. */
  lemma ToggleKeepsNoDup(s: seq<nat>, id: nat)
    requires NoDup(s)
    ensures NoDup(Toggle(s, id))
  {
    if id in s {
      FilterIsSubseq(s, Except(id));
      SubseqNoDup(Filter(s, Except(id)), s);
    } else {
      var r := s + [id];
      forall i, j | 0 <= i < j < |r| ensures r[i] != r[j] {
        if j == |s| {
          assert r[i] == s[i];
        } else {
          assert r[i] == s[i] && r[j] == s[j];
        }
      }
    }
  }

  // ---------------------------------------------------------------------------
  // Orders
  // ---------------------------------------------------------------------------

  /** `handleOrderStatusChange`: the orders with the given id take the new status. */
  function SetStatus(orders: seq<Order>, id: nat, status: string): (r: seq<Order>)
    ensures |r| == |orders|
    ensures forall i :: 0 <= i < |r| ==> r[i].id == orders[i].id && r[i].details == orders[i].details
    ensures forall i :: 0 <= i < |r| && orders[i].id == id ==> r[i].status == status
    ensures forall i :: 0 <= i < |r| && orders[i].id != id ==> r[i] == orders[i]
  {
    seq(|orders|, i requires 0 <= i < |orders| =>
      if orders[i].id == id then orders[i].(status := status) else orders[i])
  }

  /** Setting the same status twice is the same as setting it once. */
  lemma SetStatusIdempotent(orders: seq<Order>, id: nat, status: string)
    ensures SetStatus(SetStatus(orders, id, status), id, status) == SetStatus(orders, id, status)
  {
    var once := SetStatus(orders, id, status);
    var twice := SetStatus(once, id, status);
    assert |twice| == |once|;
    forall i | 0 <= i < |once| ensures twice[i] == once[i] {
      if orders[i].id == id {
        assert twice[i].status == once[i].status == status;
      }
    }
  }

  /** `order => order.status === filter`. */
  function HasStatus(filter: string): Order -> bool { (o: Order) => o.status == filter }

  /** `filteredOrders`: all orders for 'all', else those with the chosen status, in order. */
  function FilteredOrders(orders: seq<Order>, filter: string): (r: seq<Order>)
    ensures filter == "all" ==> r == orders
    ensures SubseqOf(r, orders)
    ensures forall i :: 0 <= i < |r| ==> filter == "all" || r[i].status == filter
    ensures forall i :: 0 <= i < |orders| ==>
              (orders[i] in r <==> filter == "all" || orders[i].status == filter)
  {
    if filter == "all" then
      SubseqRefl(orders);
      orders
    else
      FilterIsSubseq(orders, HasStatus(filter));
      Filter(orders, HasStatus(filter))
  }

  /** After a status change, every order with that id shows under the new status's filter. */
  lemma ChangedOrderListed(orders: seq<Order>, id: nat, status: string, i: nat)
    requires i < |orders| && orders[i].id == id
    ensures SetStatus(orders, id, status)[i] in FilteredOrders(SetStatus(orders, id, status), status)
  {
  }

  // ---------------------------------------------------------------------------
  // Product search
  // ---------------------------------------------------------------------------

  /** The lower-cased name contains the lower-cased term, or the id's decimal string contains the raw term. */
  predicate MatchesSearch(p: DashProduct, term: string) {
    Contains(Lower(p.name), Lower(term)) || Contains(NatToString(p.id), term)
  }

  function Matching(term: string): DashProduct -> bool { (p: DashProduct) => MatchesSearch(p, term) }

  /** `filteredProducts`: everything for a blank term, else the matching products in order. */
  function FilteredProducts(products: seq<DashProduct>, term: string): (r: seq<DashProduct>)
    ensures Trim(term) == [] ==> r == products
    ensures SubseqOf(r, products)
    ensures forall i :: 0 <= i < |r| ==> Trim(term) == [] || MatchesSearch(r[i], term)
    ensures forall i :: 0 <= i < |products| ==>
              (products[i] in r <==> Trim(term) == [] || MatchesSearch(products[i], term))
  {
    if Trim(term) == [] then
      SubseqRefl(products);
      products
    else
      FilterIsSubseq(products, Matching(term));
      Filter(products, Matching(term))
  }

  /** Searching for a product's id finds that product. */
  lemma FoundById(products: seq<DashProduct>, i: nat)
    requires i < |products|
    ensures products[i] in FilteredProducts(products, NatToString(products[i].id))
  {
    var s := NatToString(products[i].id);
    assert OccursAt(s, s, 0) by { assert s[0..|s|] == s; }
  }

  // ---------------------------------------------------------------------------
  // Specification fields per category
  // ---------------------------------------------------------------------------

  datatype FieldTable = Phones | Laptops | Televisions | Tablets | Appliances | AudioGear | Basic

  /** The `switch` on the lower-cased category name. */
  function TableFor(name: string): (t: FieldTable)
    ensures t == Basic <==>
      name !in {"celulares", "smartphones", "tel\U{00E9}fonos", "laptops", "notebooks",
                "port\U{00E1}tiles", "televisores", "tvs", "televisiones", "tv", "tablets",
                "tablet", "electrodom\U{00E9}sticos", "electrodomesticos", "audio", "sonido"}
  {
    if name in {"celulares", "smartphones", "tel\U{00E9}fonos"} then Phones
    else if name in {"laptops", "notebooks", "port\U{00E1}tiles"} then Laptops
    else if name in {"televisores", "tvs", "televisiones", "tv"} then Televisions
    else if name in {"tablets", "tablet"} then Tablets
    else if name in {"electrodom\U{00E9}sticos", "electrodomesticos"} then Appliances
    else if name in {"audio", "sonido"} then AudioGear
    else Basic
  }

  function TextInput(name: string, title: string): FieldSpec { FieldSpec(name, title, TextField) }

  /** The fields each table lists, in form order. */
  function Fields(t: FieldTable): seq<FieldSpec> {
    match t
    case Phones => [
      TextInput("modelo", "Modelo"), TextInput("procesador", "Procesador"), TextInput("ram", "Memoria RAM"),
      TextInput("almacenamiento", "Almacenamiento"), TextInput("pantalla", "Tama\U{00F1}o de Pantalla"),
      TextInput("camara", "C\U{00E1}mara"), TextInput("bateria", "Bater\U{00ED}a")]
    case Laptops => [
      TextInput("modelo", "Modelo"), TextInput("procesador", "Procesador"), TextInput("ram", "Memoria RAM"),
      TextInput("almacenamiento", "Almacenamiento"), TextInput("pantalla", "Tama\U{00F1}o de Pantalla"),
      TextInput("tarjeta_grafica", "Tarjeta Gr\U{00E1}fica"),
      TextInput("sistema_operativo", "Sistema Operativo")]
    case Televisions => [
      TextInput("tama\U{00F1}o", "Tama\U{00F1}o en pulgadas"), TextInput("resolucion", "Resoluci\U{00F3}n"),
      FieldSpec("smart", "\U{00BF}Es Smart TV?", Checkbox),
      TextInput("sistema_operativo", "Sistema Operativo"), TextInput("conexiones", "Conexiones")]
    case Tablets => [
      TextInput("modelo", "Modelo"), TextInput("procesador", "Procesador"), TextInput("ram", "Memoria RAM"),
      TextInput("almacenamiento", "Almacenamiento"), TextInput("pantalla", "Tama\U{00F1}o de Pantalla"),
      TextInput("bateria", "Bater\U{00ED}a")]
    case Appliances => [
      TextInput("modelo", "Modelo"), TextInput("potencia", "Potencia"), TextInput("dimensiones", "Dimensiones"),
      TextInput("color", "Color"), TextInput("funciones", "Funciones Especiales")]
    case AudioGear => [
      TextInput("modelo", "Modelo"), TextInput("potencia", "Potencia"), TextInput("canales", "Canales"),
      TextInput("conectividad", "Conectividad"), TextInput("bateria", "Bater\U{00ED}a (si aplica)")]
    case Basic => [
      TextInput("modelo", "Modelo"), TextInput("marca", "Marca"), TextInput("color", "Color"),
      TextInput("dimensiones", "Dimensiones"), TextInput("peso", "Peso")]
  }

  function FieldNames(fs: seq<FieldSpec>): seq<string> { seq(|fs|, i requires 0 <= i < |fs| => fs[i].name) }

  /** Every table has at least five fields, no field name twice, and only the television table a checkbox. */
  lemma FieldTablesWellFormed(t: FieldTable)
    ensures |Fields(t)| >= 5
    ensures NoDup(FieldNames(Fields(t)))
    ensures (exists i :: 0 <= i < |Fields(t)| && Fields(t)[i].kind == Checkbox) <==> t == Televisions
  {
    var fs := Fields(t);
    if t == Televisions {
      assert fs[2].kind == Checkbox;
    }
  }

  /** `String(cat.id) === String(categoryId)`. */
  function IdIs(categoryId: string): DashCategory -> bool { (c: DashCategory) => NatToString(c.id) == categoryId }

  /** `getCategoryFields`: no fields for an unknown category, else the table its lower-cased name selects. */
  function CategoryFields(categories: seq<DashCategory>, categoryId: string): (r: seq<FieldSpec>)
    ensures r == [] <==> forall i :: 0 <= i < |categories| ==> NatToString(categories[i].id) != categoryId
    ensures r != [] ==> exists i :: 0 <= i < |categories| && NatToString(categories[i].id) == categoryId
                                    && r == Fields(TableFor(Lower(categories[i].name)))
  {
    match Find(categories, IdIs(categoryId))
    case None => []
    case Some(c) =>
      FieldTablesWellFormed(TableFor(Lower(c.name)));
      Fields(TableFor(Lower(c.name)))
  }

  // ---------------------------------------------------------------------------
  // Discount and combo requests
  // ---------------------------------------------------------------------------

  function HasId(id: nat): DashProduct -> bool { (p: DashProduct) => p.id == id }

  /** `products.find(p => p.id === id)` turned into the PATCH body; `discounted` stands for the float arithmetic. */
  function PatchFor(id: nat, products: seq<DashProduct>, pct: int, discounted: (string, int) -> string): (r: seq<Patch>)
    ensures r == [] <==> forall j :: 0 <= j < |products| ==> products[j].id != id
    ensures r != [] ==> |r| == 1
    ensures r != [] ==>
      exists j :: 0 <= j < |products| && products[j].id == id
        && r[0] == Patch(id, products[j].name, products[j].description,
                         discounted(products[j].price, pct), products[j].stock, products[j].category)
  {
    match Find(products, HasId(id))
    case None => []
    case Some(p) => [Patch(id, p.name, p.description, discounted(p.price, pct), p.stock, p.category)]
  }

  /** The PATCH bodies the discount loop sends, one per selected id that names a listed product. */
  function DiscountPatches(ids: seq<nat>, products: seq<DashProduct>, pct: int,
                           discounted: (string, int) -> string): seq<Patch>
  {
    if ids == [] then []
    else DiscountPatches(ids[..|ids| - 1], products, pct, discounted)
         + PatchFor(ids[|ids| - 1], products, pct, discounted)
  }

  function Targets(ps: seq<Patch>): seq<nat> { seq(|ps|, k requires 0 <= k < |ps| => ps[k].id) }

  /** Some listed product has the id. */
  function Listed(products: seq<DashProduct>): nat -> bool {
    id => exists j :: 0 <= j < |products| && products[j].id == id
  }

  /** The discount reaches exactly the selected ids that are listed, in selection order. */
  lemma {:induction false} DiscountTargets(ids: seq<nat>, products: seq<DashProduct>, pct: int,
                                           discounted: (string, int) -> string)
    ensures Targets(DiscountPatches(ids, products, pct, discounted)) == Filter(ids, Listed(products))
  {
    if ids != [] {
      var init, last := ids[..|ids| - 1], ids[|ids| - 1];
      var a := DiscountPatches(init, products, pct, discounted);
      var b := PatchFor(last, products, pct, discounted);
      DiscountTargets(init, products, pct, discounted);
      assert Targets(a + b) == Targets(a) + Targets(b) by { TargetsAppend(a, b); }
      assert Filter(ids, Listed(products)) == Filter(init, Listed(products)) + Filter([last], Listed(products)) by {
        assert ids == init + [last];
        FilterAppend(init, [last], Listed(products));
      }
      assert Targets(b) == Filter([last], Listed(products)) by {
        if Listed(products)(last) {
          assert Filter([last], Listed(products)) == [last];
        } else {
          assert Filter([last], Listed(products)) == [];
        }
      }
    }
  }

  lemma TargetsAppend(a: seq<Patch>, b: seq<Patch>)
    ensures Targets(a + b) == Targets(a) + Targets(b)
  {
  }

  function AsRequests(ps: seq<Patch>): seq<Request> {
    seq(|ps|, k requires 0 <= k < |ps| => PatchProduct(ps[k]))
  }

  /** The `for (const productId of selectedProducts)` loop of `handleApplyDiscount`. */
  method CollectPatches(ids: seq<nat>, products: seq<DashProduct>, pct: int,
                        discounted: (string, int) -> string) returns (out: seq<Patch>)
    ensures out == DiscountPatches(ids, products, pct, discounted)
  {
    out := [];
    var i := 0;
    while i < |ids|
      invariant 0 <= i <= |ids|
      invariant out == DiscountPatches(ids[..i], products, pct, discounted)
    {
      var found := Find(products, HasId(ids[i]));
      if found.Some? {
        var p := found.value;
        out := out + [Patch(ids[i], p.name, p.description, discounted(p.price, pct), p.stock, p.category)];
      }
      assert ids[..i + 1][..i] == ids[..i];
      i := i + 1;
    }
    assert ids[..|ids|] == ids;
  }

  /** The combo description: the typed one, or "Combo de N productos" when blank. */
  function ComboDescription(typed: string, count: nat): (r: string)
    ensures r != []
    ensures typed != [] ==> r == typed
    ensures typed == [] ==> IsPrefix("Combo de ", r)
  {
    if typed != [] then typed else "Combo de " + NatToString(count) + " productos"
  }

  /** The discount action may proceed. */
  predicate DiscountAllowed(selected: seq<nat>, pct: int) { |selected| != 0 && pct != 0 }

  /** The combo action may proceed: products chosen, a price and a name typed. */
  predicate ComboAllowed(products: seq<nat>, price: string, name: string) {
    |products| != 0 && price != [] && name != []
  }

  /** The discount picker's slots: the chosen ids, the percentage and whether the modal is open. */
  datatype DiscountForm = DiscountForm(selected: seq<nat>, percentage: int, open: bool)

  /** The combo builder's slots. */
  datatype ComboDraft = ComboDraft(
    products: seq<nat>, name: string, price: string, description: string, open: bool)

  const ClosedDiscount: DiscountForm := DiscountForm([], 0, false)

  /** The percentages the picker's four buttons offer. */
  predicate OfferedPercentage(p: int) { p == 15 || p == 25 || p == 50 || p == 75 }

  /** The percentage slot holds 0 (nothing picked) or one of the offered percentages. */
  predicate PickablePercentage(p: int) { p == 0 || OfferedPercentage(p) }
  const ClosedCombo: ComboDraft := ComboDraft([], "", "", "", false)

  /** A discount that passes the guard with a pickable percentage uses one the buttons offer. */
  lemma AllowedPercentageOffered(selected: seq<nat>, pct: int)
    requires PickablePercentage(pct) && DiscountAllowed(selected, pct)
    ensures OfferedPercentage(pct)
  {
  }

  /** The component state, slot by slot. */
  datatype DashState = DashState(
    products: seq<DashProduct>, orders: seq<Order>, discount: DiscountForm, combo: ComboDraft,
    productPrice: string, searchTerm: string, error: Option<string>, sent: seq<Request>)

  class Dashboard {
    var products: seq<DashProduct>
    var orders: seq<Order>
    var discount: DiscountForm
    var combo: ComboDraft
    var productPrice: string
    var searchTerm: string
    var error: Option<string>
    var sent: seq<Request>

    function State(): DashState
      reads this
    {
      DashState(products, orders, discount, combo, productPrice, searchTerm, error, sent)
    }

    /**
     * The initial `useState` values, with the products as the first load returned them. The
     * order list starts empty, and no load fills it.
     */
    constructor(products: seq<DashProduct>)
      ensures State() == DashState(products, [], ClosedDiscount, ClosedCombo, "", "", None, [])
      ensures PickablePercentage(discount.percentage)
    {
      this.products := products;
      this.orders := [];
      discount := ClosedDiscount;
      combo := ClosedCombo;
      productPrice := "";
      searchTerm := "";
      error := None;
      sent := [];
    }

    /** The "Crear Descuento" action: an empty selection, no percentage, no search, the modal open. */
    method OpenDiscountPicker()
      modifies this
      ensures State() == old(State()).(discount := DiscountForm([], 0, true), searchTerm := "")
      ensures PickablePercentage(discount.percentage)
    {
      discount := DiscountForm([], 0, true);
      searchTerm := "";
    }

    /** `handleDiscountSelection`, called only by the picker's four buttons. */
    method HandleDiscountSelection(percentage: int)
      requires OfferedPercentage(percentage)
      modifies this
      ensures State() == old(State()).(discount := old(discount).(percentage := percentage))
      ensures PickablePercentage(discount.percentage) && discount.percentage != 0
    {
      discount := discount.(percentage := percentage);
    }

    /** `handleCloseDiscountModal`: the modal closes and the selection, percentage and search reset. */
    method HandleCloseDiscountModal()
      modifies this
      ensures State() == old(State()).(discount := ClosedDiscount, searchTerm := "")
      ensures PickablePercentage(discount.percentage)
    {
      discount := ClosedDiscount;
      searchTerm := "";
    }

    method HandleProductSelection(id: nat)
      modifies this
      ensures State() == old(State()).(discount := old(discount).(selected := Toggle(old(discount.selected), id)))
    {
      discount := discount.(selected := Toggle(discount.selected, id));
    }

    method HandleComboProductSelection(id: nat)
      modifies this
      ensures State() == old(State()).(combo := old(combo).(products := Toggle(old(combo.products), id)))
    {
      combo := combo.(products := Toggle(combo.products, id));
    }

    method HandleOrderStatusChange(id: nat, status: string)
      modifies this
      ensures State() == old(State()).(orders := SetStatus(old(orders), id, status))
    {
      orders := SetStatus(orders, id, status);
    }

    /**
     * The price box of the product form. It holds a price as typed whenever the kept
     * characters have at most one dot; a second dot can leave more than two decimals.
     */
    method HandleProductPriceChange(value: string)
      modifies this
      ensures |SplitDots(KeepPriceChars(value))| <= 2 ==> IsPriceInput(productPrice)
      ensures State() == old(State()).(productPrice := SanitizePrice(value))
    {
      productPrice := SanitizePrice(value);
      if |SplitDots(KeepPriceChars(value))| <= 2 {
        SanitizeOneDot(value);
      }
    }

    /** The price box of the combo form, with the same sanitiser as the product form. */
    method HandleComboPriceChange(value: string)
      modifies this
      ensures |SplitDots(KeepPriceChars(value))| <= 2 ==> IsPriceInput(combo.price)
      ensures State() == old(State()).(combo := old(combo).(price := SanitizePrice(value)))
    {
      combo := combo.(price := SanitizePrice(value));
      if |SplitDots(KeepPriceChars(value))| <= 2 {
        SanitizeOneDot(value);
      }
    }

    /**
     * `handleApplyDiscount`: refused with a message when nothing is selected or the
     * percentage is 0; otherwise one PATCH per selected listed product, then the
     * modal closes and the selection, percentage and search reset.
     */
    method HandleApplyDiscount(discounted: (string, int) -> string)
      modifies this
      ensures !DiscountAllowed(old(discount.selected), old(discount.percentage)) ==>
                State() == old(State()).(error := Some(DiscountGuardMessage))
      ensures DiscountAllowed(old(discount.selected), old(discount.percentage)) ==>
                State() == old(State()).(
                  discount := ClosedDiscount, searchTerm := "",
                  sent := old(sent) + AsRequests(DiscountPatches(old(discount.selected), old(products),
                                                                 old(discount.percentage), discounted)))
      ensures PickablePercentage(old(discount.percentage)) ==> PickablePercentage(discount.percentage)
    {
      if |discount.selected| == 0 || discount.percentage == 0 {
        error := Some(DiscountGuardMessage);
        return;
      }
      var out := CollectPatches(discount.selected, products, discount.percentage, discounted);
      sent, discount, searchTerm := sent + AsRequests(out), ClosedDiscount, "";
    }

    /**
     * `handleCreateCombo`: refused with a message unless products, a price and a
     * name are given; otherwise one create request with stock 1, then the combo
     * form and the search reset.
     */
    method HandleCreateCombo()
      modifies this
      ensures !ComboAllowed(old(combo.products), old(combo.price), old(combo.name)) ==>
                State() == old(State()).(error := Some(ComboGuardMessage))
      ensures ComboAllowed(old(combo.products), old(combo.price), old(combo.name)) ==>
                State() == old(State()).(
                  combo := ClosedCombo, searchTerm := "",
                  sent := old(sent) + [CreateProduct(ComboForm(
                    old(combo.name), ComboDescription(old(combo.description), |old(combo.products)|),
                    old(combo.price), 1, true, old(combo.products)))])
    {
      if |combo.products| == 0 || combo.price == "" || combo.name == "" {
        error := Some(ComboGuardMessage);
        return;
      }
      var form := ComboForm(combo.name, ComboDescription(combo.description, |combo.products|),
                            combo.price, 1, true, combo.products);
      sent, combo, searchTerm := sent + [CreateProduct(form)], ClosedCombo, "";
    }
  }
}
