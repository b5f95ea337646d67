/**
 * The product card: what it shows for a product as the API delivers it. Fields the
 * product lacks take their defaults, the description is cut to 100 characters, the
 * price is printed with two decimals, and the footer shows either a login link (in
 * preview mode) or the stock with the cart button, disabled when nothing is in stock.
 */
module ProductCard {
  import opened Wrappers
  import opened Text
  import opened DashboardText

  /**
   * A JavaScript value as one of the card's fields may hold it. Numbers are kept in
   * hundredths, which is exact for the two-decimal prices the catalogue stores.
   */
  datatype Raw = Undefined | Null | JsText(s: string) | JsNumber(hundredths: int)

  /** The product prop. Absent string fields are `None`; `stock` is an integer when present. */
  datatype CardProduct = CardProduct(
    image: Option<string>, name: Option<string>, categoryName: Option<string>,
    description: Raw, price: Raw, stock: Option<int>)

  datatype Footer = LoginLink | StockControls(caption: string, inStock: bool, cartDisabled: bool)

  datatype View =
    | Placeholder
    | CardView(imageSrc: string, title: string, categoryLabel: string, blurb: string,
               priceText: string, footer: Footer)

  const PlaceholderImage: string := "/placeholder-product.jpg"
  const DefaultName: string := "Producto sin nombre"
  const DefaultCategory: string := "Sin categor\U{00ED}a"
  const DefaultDescription: string := "Sin descripci\U{00F3}n disponible"
  const SoldOut: string := "Agotado"
  const DescriptionLimit: nat := 100

  // ---------------------------------------------------------------------------
  // Description
  // ---------------------------------------------------------------------------

  /** `truncateDescription`: the fallback for a non-string, else the first 100 characters and "...". */
  function TruncateDescription(desc: Raw): (r: string)
    ensures !desc.JsText? ==> r == DefaultDescription
    ensures desc.JsText? && |desc.s| <= DescriptionLimit ==> r == desc.s
    ensures desc.JsText? && |desc.s| > DescriptionLimit ==>
              |r| == DescriptionLimit + 3 && r[..DescriptionLimit] == desc.s[..DescriptionLimit]
              && r[DescriptionLimit..] == "..."
  {
    if !desc.JsText? then DefaultDescription
    else if |desc.s| > DescriptionLimit then desc.s[..DescriptionLimit] + "..."
    else desc.s
  }

  /** Cutting an already cut description changes nothing. */
  lemma TruncateIdempotent(desc: Raw)
    ensures TruncateDescription(JsText(TruncateDescription(desc))) == TruncateDescription(desc)
  {
    var r := TruncateDescription(desc);
    if desc.JsText? && |desc.s| > DescriptionLimit {
      assert r[..DescriptionLimit] + "..." == r;
    }
  }

  // ---------------------------------------------------------------------------
  // Price
  // ---------------------------------------------------------------------------

  /** The two digits of `d`, which is below 100. */
  function TwoDigits(d: nat): (r: string)
    requires d < 100
    ensures |r| == 2 && IsDigit(r[0]) && IsDigit(r[1])
  {
    [DigitChar(d / 10), DigitChar(d % 10)]
  }

  /** `n.toFixed(2)` for a number given in hundredths. */
  function FormatHundredths(h: int): (r: string)
    ensures |r| >= 4 && r[|r| - 3] == '.'
    ensures h >= 0 ==> AllDigits(r[..|r| - 3]) && AllDigits(r[|r| - 2..])
    ensures h < 0 <==> r[0] == '-'
    decreases if h < 0 then 1 else 0
  {
    if h < 0 then
      var t := FormatHundredths(-h);
      assert AllDigits(t[..|t| - 3]);
      assert t[0] == t[..|t| - 3][0];
      "-" + t
    else
      var r := NatToString(h / 100) + "." + TwoDigits(h % 100);
      assert r[..|r| - 3] == NatToString(h / 100);
      assert r[|r| - 2..] == TwoDigits(h % 100);
      r
  }

  /** Reads a text of the form `digits.dd`, as the API prints a price, into hundredths. */
  function ParseHundredths(s: string): (r: Option<nat>)
    ensures r.Some? ==> |s| >= 4 && s[|s| - 3] == '.'
  {
    if |s| >= 4 && s[|s| - 3] == '.' && AllDigits(s[..|s| - 3]) && AllDigits(s[|s| - 2..]) then
      Some(DigitsValue(s[..|s| - 3]) * 100 + DigitsValue(s[|s| - 2..]))
    else None
  }

  lemma DigitValueOfDigitChar(d: nat)
    requires d < 10
    ensures IsDigit(DigitChar(d)) && DigitValue(DigitChar(d)) == d
  {
  }

  /** The two decimals read back as the number they print. */
  lemma TwoDigitsValue(d: nat)
    requires d < 100
    ensures DigitsValue(TwoDigits(d)) == d
  {
    var t := TwoDigits(d);
    DigitValueOfDigitChar(d / 10);
    DigitValueOfDigitChar(d % 10);
    assert DigitsValue(t) == DigitsValue(t[..1]) * 10 + DigitValue(t[1]);
    assert t[..1][..0] == [];
    assert DigitsValue(t[..1]) == DigitValue(t[0]);
  }

  /** A text `a.t` with digit runs `a` and `t`, `t` of length two, reads as `a` units and `t` hundredths. */
  lemma ParseParts(a: string, t: string)
    requires a != [] && AllDigits(a) && |t| == 2 && AllDigits(t)
    ensures ParseHundredths(a + "." + t) == Some(DigitsValue(a) * 100 + DigitsValue(t))
  {
    var s := a + "." + t;
    assert s[..|s| - 3] == a && s[|s| - 2..] == t && s[|s| - 3] == '.' by {
      assert |s| == |a| + 3;
    }
    ParseShape(s);
  }

  /** A text of the form `digits.dd` reads as its two digit runs. */
  lemma ParseShape(s: string)
    requires |s| >= 4 && s[|s| - 3] == '.' && AllDigits(s[..|s| - 3]) && AllDigits(s[|s| - 2..])
    ensures ParseHundredths(s) == Some(DigitsValue(s[..|s| - 3]) * 100 + DigitsValue(s[|s| - 2..]))
  {
  }

  /** Printing then reading a non-negative price gives it back. */
  lemma ParseFormatted(h: nat)
    ensures ParseHundredths(FormatHundredths(h)) == Some(h)
  {
    var a, t := NatToString(h / 100), TwoDigits(h % 100);
    var s := FormatHundredths(h);
    assert s == a + "." + t;
    ParseParts(a, t);
    assert DigitsValue(a) * 100 + DigitsValue(t) == h by {
      DigitsValueOfNatToString(h / 100);
      TwoDigitsValue(h % 100);
      assert (h / 100) * 100 + h % 100 == h;
    }
  }

  /** `formatPrice` as written: a number is printed, anything else shows "0.00". */
  function FormatPrice(price: Raw): (r: string)
    ensures !price.JsNumber? && !price.Undefined? ==> r == "0.00"
  {
    match price
    case Undefined => FormatHundredths(0)
    case JsNumber(h) => FormatHundredths(h)
    case _ => "0.00"
  }

  /** The catalogue sends prices as text, so every positive price is shown as "0.00". */
  lemma TextPriceShowsZero(h: nat)
    requires h > 0
    ensures FormatPrice(JsText(FormatHundredths(h))) == "0.00"
    ensures FormatHundredths(h) != "0.00"
  {
    ParseFormatted(h);
    ParseFormatted(0);
    assert FormatHundredths(0) == "0.00" by {
      assert NatToString(0) == "0";
      assert TwoDigits(0) == "00";
    }
  }

  /** `formatPrice` reading a text price as the API prints it; anything else as before. */
  function FormatPriceFixed(price: Raw): (r: string)
    ensures price.JsText? && ParseHundredths(price.s).Some? ==>
              ParseHundredths(r) == ParseHundredths(price.s)
  {
    match price
    case JsText(s) =>
      (match ParseHundredths(s)
       case Some(h) => ParseFormatted(h); FormatHundredths(h)
       case None => "0.00")
    case _ => FormatPrice(price)
  }

  /** The corrected formatter shows a price the API printed exactly as printed. */
  lemma FixedShowsTextPrice(h: nat)
    ensures FormatPriceFixed(JsText(FormatHundredths(h))) == FormatHundredths(h)
  {
    ParseFormatted(h);
  }

  /** On numbers and missing prices the corrected formatter agrees with the original. */
  lemma FixedAgreesOnNumbers(price: Raw)
    requires !price.JsText?
    ensures FormatPriceFixed(price) == FormatPrice(price)
  {
  }

  // ---------------------------------------------------------------------------
  // Stock and the whole card
  // ---------------------------------------------------------------------------

  /** "<n> disponibles" while there is stock, else "Agotado". */
  function StockLabel(stock: int): (r: string)
    ensures stock > 0 ==> r == IntToString(stock) + " disponibles"
    ensures stock <= 0 ==> r == SoldOut
  {
    if stock > 0 then IntToString(stock) + " disponibles" else SoldOut
  }

  function OrDefault(v: Option<string>, default: string): string {
    match v
    case None => default
    case Some(s) => s
  }

  /** The card for an optional product, with the price formatter as written. */
  function Render(product: Option<CardProduct>, isPreview: bool): (v: View)
    ensures product.None? <==> v == Placeholder
    ensures product.Some? ==>
      var p := product.value;
      && v.title == OrDefault(p.name, DefaultName)
      && v.categoryLabel == OrDefault(p.categoryName, DefaultCategory)
      && v.imageSrc == (if p.image.None? || p.image == Some("") then PlaceholderImage else p.image.value)
      && v.blurb == TruncateDescription(if p.description.Undefined? then JsText(DefaultDescription)
                                        else p.description)
      && v.priceText == FormatPrice(p.price)
      && (isPreview <==> v.footer == LoginLink)
      && (!isPreview ==> v.footer.StockControls?
                         && (v.footer.cartDisabled <==> p.stock.GetOr(0) <= 0)
                         && (v.footer.inStock <==> !v.footer.cartDisabled)
                         && v.footer.caption == StockLabel(p.stock.GetOr(0)))
  {
    match product
    case None => Placeholder
    case Some(p) =>
      var stock := p.stock.GetOr(0);
      var image := OrDefault(p.image, "");
      var description := if p.description.Undefined? then JsText(DefaultDescription) else p.description;
      CardView(
        if image == "" then PlaceholderImage else image,
        OrDefault(p.name, DefaultName),
        OrDefault(p.categoryName, DefaultCategory),
        TruncateDescription(description),
        FormatPrice(p.price),
        if isPreview then LoginLink else StockControls(StockLabel(stock), stock > 0, stock <= 0))
  }
}
