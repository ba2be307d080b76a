/** The product-detail document and the per-colour extraction of main.py:
    colour discovery, the SKUs of one colour with their sizes, widths and
    prices, the product codes, and the style-level name, gender and brand. */
module Variants {
  import opened Wrappers
  import opened Seqs

  /** One `{name, value}` entry of a SKU's defining attributes or of the
      style's descriptive attributes. */
  datatype Attr = Attr(name: string, value: string)

  /** A list or offer price as the document carries it. `Missing` stands for
      every value Python treats as false (null, the empty string); `Amount`
      holds the price in cents. */
  datatype PriceField = Missing | Amount(cents: int)

  datatype Sku = Sku(
    definingAttributes: seq<Attr>,
    listPrice: PriceField,
    offerPrice: PriceField,
    partNumber: string,
    parentPartNumber: string,
    catentryId: string,
    parentCatentryId: string)

  datatype Style = Style(name: string, primaryCategory: string, descriptiveAttributes: seq<Attr>)

  /** One entry of `productsData`; the scraper only ever reads the first. */
  datatype ProductData = ProductData(style: Style, skus: seq<Sku>)

  /** The parsed product-detail JSON. */
  datatype Document = Document(productsData: seq<ProductData>)

  /** Why a product or colour produced no row: the exception Python raises. */
  datatype Fault =
    | NoProductData            // productsData[0] of an empty list (IndexError)
    | NoDefiningAttributes     // definingAttributes[0] of an empty list (IndexError)
    | NoSkus                   // skus[0] of an empty list (IndexError)
    | EmptyMin                 // min() of an empty list (ValueError)
    | MissingKey(key: string)  // product_info[key] for a key never set (KeyError)

  const ColorName := "Color"
  const WidthName := "Shoe Width"

  predicate IsSizeName(name: string) {
    name == "Shoe Size" || name == "Size"
  }

  // ---------------------------------------------------------------- colours

  /** Some SKU has a defining attribute `Color` with value `v`, at any position. */
  ghost predicate HasColor(skus: seq<Sku>, v: string) {
    exists i :: 0 <= i < |skus| && Attr(ColorName, v) in skus[i].definingAttributes
  }

  /** The values of the attributes named `Color`, in order. */
  function ColorValues(attrs: seq<Attr>): (r: seq<string>)
    ensures forall v :: v in r <==> Attr(ColorName, v) in attrs
  {
    if |attrs| == 0 then []
    else
      assert attrs == [attrs[0]] + attrs[1..];
      (if attrs[0].name == ColorName then [attrs[0].value] else []) + ColorValues(attrs[1..])
  }

  /** The `colors` list `extract_colors` builds before deduplicating. */
  function AllColorValues(skus: seq<Sku>): (r: seq<string>)
    ensures forall v :: v in r <==> HasColor(skus, v)
  {
    if |skus| == 0 then []
    else
      var rest := AllColorValues(skus[1..]);
      assert forall v :: HasColor(skus[1..], v) ==> HasColor(skus, v) by {
        forall v | HasColor(skus[1..], v) ensures HasColor(skus, v) {
          var i :| 0 <= i < |skus[1..]| && Attr(ColorName, v) in skus[1..][i].definingAttributes;
          assert skus[1..][i] == skus[i + 1];
        }
      }
      assert forall v :: HasColor(skus, v) ==> v in ColorValues(skus[0].definingAttributes) || HasColor(skus[1..], v) by {
        forall v | HasColor(skus, v)
          ensures v in ColorValues(skus[0].definingAttributes) || HasColor(skus[1..], v)
        {
          var i :| 0 <= i < |skus| && Attr(ColorName, v) in skus[i].definingAttributes;
          if i > 0 {
            assert skus[1..][i - 1] == skus[i];
          }
        }
      }
      ColorValues(skus[0].definingAttributes) + rest
  }

  /** `extract_colors` (main.py:68-75): every colour value found in any
      position of any SKU's defining attributes, each exactly once. */
  function ExtractColors(p: ProductData): (r: seq<string>)
    ensures NoDup(r)
    ensures forall v :: v in r <==> HasColor(p.skus, v)
  {
    var all := AllColorValues(p.skus);
    var r := Dedup(all);
    assert forall v :: v in r <==> v in all by {
      forall v ensures v in r <==> v in all {
        if v in r {
          var i :| 0 <= i < |r| && r[i] == v;
        }
        if v in all {
          var i :| 0 <= i < |all| && all[i] == v;
        }
      }
    }
    r
  }

  // ---------------------------------------------------- one colour's SKUs

  /** The filter of main.py:100: a SKU belongs to a colour when its attribute
      list is non-empty and its FIRST attribute's value is the colour, whatever
      that attribute is named. */
  predicate MatchesColor(sku: Sku, color: string) {
    |sku.definingAttributes| > 0 && sku.definingAttributes[0].value == color
  }

  /** Sizes of one SKU (main.py:111-112), spaces turned into underscores. */
  function SizeTokens(attrs: seq<Attr>): (r: seq<string>)
    ensures forall x :: x in r ==> ' ' !in x
    ensures forall x :: x in r <==> exists j :: 0 <= j < |attrs| && IsSizeName(attrs[j].name)
                                        && x == ReplaceChar(attrs[j].value, ' ', '_')
  {
    if |attrs| == 0 then []
    else
      var rest := SizeTokens(attrs[1..]);
      assert forall j :: 1 <= j < |attrs| ==> attrs[1..][j - 1] == attrs[j];
      (if IsSizeName(attrs[0].name) then [ReplaceChar(attrs[0].value, ' ', '_')] else []) + rest
  }

  /** Widths of one SKU (main.py:109-110), taken verbatim. */
  function WidthValues(attrs: seq<Attr>): (r: seq<string>)
    ensures forall x :: x in r <==> Attr(WidthName, x) in attrs
  {
    if |attrs| == 0 then []
    else
      assert attrs == [attrs[0]] + attrs[1..];
      (if attrs[0].name == WidthName then [attrs[0].value] else []) + WidthValues(attrs[1..])
  }

  /** The SKUs of one colour, in document order (main.py:98-100). */
  function ColorSkus(skus: seq<Sku>, color: string): (r: seq<Sku>)
    ensures forall s :: s in r <==> s in skus && MatchesColor(s, color)
  {
    FilterMembers(skus, s => MatchesColor(s, color));
    Filter(skus, s => MatchesColor(s, color))
  }

  /** The sizes of the given SKUs, SKU after SKU. */
  function SizesOf(ss: seq<Sku>): (r: seq<string>)
    ensures forall x :: x in r ==> ' ' !in x
    ensures forall x :: x in r <==> exists s :: s in ss && x in SizeTokens(s.definingAttributes)
  {
    if |ss| == 0 then []
    else
      assert ss == [ss[0]] + ss[1..];
      SizeTokens(ss[0].definingAttributes) + SizesOf(ss[1..])
  }

  /** The widths of the given SKUs, SKU after SKU. */
  function WidthsOf(ss: seq<Sku>): (r: seq<string>)
    ensures forall x :: x in r <==> exists s :: s in ss && x in WidthValues(s.definingAttributes)
  {
    if |ss| == 0 then []
    else
      assert ss == [ss[0]] + ss[1..];
      WidthValues(ss[0].definingAttributes) + WidthsOf(ss[1..])
  }

  /** What `extract_product_details` returns. */
  datatype Details = Details(
    sizes: seq<string>,
    widths: seq<string>,
    prices: seq<PriceField>,
    salePrices: seq<PriceField>)

  /** `extract_product_details` (main.py:96-112): the list price, offer price,
      sizes and widths of every SKU of the colour, in SKU order. There is one
      list price and one offer price per SKU of the colour, and no size holds
      a space. */
  function ProductDetails(skus: seq<Sku>, color: string): (d: Details)
    ensures |d.prices| == |d.salePrices| == |ColorSkus(skus, color)|
    ensures forall x :: x in d.sizes ==> ' ' !in x
    ensures forall p :: p in d.prices <==>
      exists s :: s in skus && MatchesColor(s, color) && s.listPrice == p
    ensures forall p :: p in d.salePrices <==>
      exists s :: s in skus && MatchesColor(s, color) && s.offerPrice == p
    ensures forall x :: x in d.sizes <==>
      exists s :: s in skus && MatchesColor(s, color) && x in SizeTokens(s.definingAttributes)
    ensures forall x :: x in d.widths <==>
      exists s :: s in skus && MatchesColor(s, color) && x in WidthValues(s.definingAttributes)
  {
    var ss := ColorSkus(skus, color);
    var prices := seq(|ss|, i requires 0 <= i < |ss| => ss[i].listPrice);
    var salePrices := seq(|ss|, i requires 0 <= i < |ss| => ss[i].offerPrice);
    assert forall p :: p in prices <==> exists s :: s in ss && s.listPrice == p by {
      forall p ensures p in prices <==> exists s :: s in ss && s.listPrice == p {
        if exists s :: s in ss && s.listPrice == p {
          var s :| s in ss && s.listPrice == p;
          var i :| 0 <= i < |ss| && ss[i] == s;
          assert prices[i] == p;
        }
      }
    }
    assert forall p :: p in salePrices <==> exists s :: s in ss && s.offerPrice == p by {
      forall p ensures p in salePrices <==> exists s :: s in ss && s.offerPrice == p {
        if exists s :: s in ss && s.offerPrice == p {
          var s :| s in ss && s.offerPrice == p;
          var i :| 0 <= i < |ss| && ss[i] == s;
          assert salePrices[i] == p;
        }
      }
    }
    Details(SizesOf(ss), WidthsOf(ss), prices, salePrices)
  }

  // ------------------------------------------------------- product codes

  /** The identifiers `extract_product_codes` copies out of a SKU; `sku`
      repeats the parent part number. */
  datatype Codes = Codes(
    productCode1: string,
    productCode2: string,
    productCode3: string,
    productCode4: string,
    sku: string)

  function CodesOf(s: Sku): (c: Codes)
    ensures c.sku == c.productCode2 == s.parentPartNumber
    ensures c.productCode1 == s.partNumber
    ensures c.productCode3 == s.catentryId && c.productCode4 == s.parentCatentryId
  {
    Codes(s.partNumber, s.parentPartNumber, s.catentryId, s.parentCatentryId, s.parentPartNumber)
  }

  /** The SKUs before index `i` all have a first attribute, none of the colour. */
  predicate PassedOver(skus: seq<Sku>, color: string, i: int)
    requires 0 <= i <= |skus|
  {
    forall j :: 0 <= j < i ==> |skus[j].definingAttributes| > 0 && !MatchesColor(skus[j], color)
  }

  /** Passing over a first SKU that has attributes but another colour. */
  lemma PassedOverShift(skus: seq<Sku>, color: string, i: nat)
    requires 0 < |skus| && i < |skus|
    requires |skus[0].definingAttributes| > 0 && !MatchesColor(skus[0], color)
    ensures PassedOver(skus, color, i + 1) <==> PassedOver(skus[1..], color, i)
  {
    assert forall j :: 1 <= j <= i ==> skus[1..][j - 1] == skus[j];
  }

  /** `extract_product_codes` (main.py:125-135): the codes of the first SKU of
      the colour, `Ok(None)` (the empty dict) when there is none, and an error
      when a SKU without defining attributes is reached first, since the
      lookup indexes `definingAttributes[0]` unguarded. */
  function ProductCodes(skus: seq<Sku>, color: string): (r: Result<Option<Codes>, Fault>)
    ensures r.Ok? && r.value.Some? ==>
      exists i :: 0 <= i < |skus| && PassedOver(skus, color, i) && MatchesColor(skus[i], color)
                  && r.value.value == CodesOf(skus[i])
    ensures r == Ok(None) <==> PassedOver(skus, color, |skus|)
    ensures r.Err? <==>
      exists i :: 0 <= i < |skus| && PassedOver(skus, color, i) && |skus[i].definingAttributes| == 0
    ensures r.Err? ==> r.error == NoDefiningAttributes
  {
    if |skus| == 0 then Ok(None)
    else if |skus[0].definingAttributes| == 0 then
      assert PassedOver(skus, color, 0);
      Err(NoDefiningAttributes)
    else if MatchesColor(skus[0], color) then
      assert PassedOver(skus, color, 0);
      assert !PassedOver(skus, color, |skus|);
      assert forall i :: 0 < i < |skus| ==> !PassedOver(skus, color, i);
      Ok(Some(CodesOf(skus[0])))
    else
      var r := ProductCodes(skus[1..], color);
      forall i | 0 <= i < |skus| - 1
        ensures PassedOver(skus, color, i + 1) <==> PassedOver(skus[1..], color, i)
      {
        PassedOverShift(skus, color, i);
      }
      assert PassedOver(skus, color, |skus|) <==> PassedOver(skus[1..], color, |skus| - 1) by {
        assert forall j :: 1 <= j < |skus| ==> skus[1..][j - 1] == skus[j];
      }
      assert forall j :: 1 <= j < |skus| ==> skus[1..][j - 1] == skus[j];
      r
  }

  // ------------------------------------------------------ style-level info

  /** The value the loop of main.py:117-121 leaves behind for `name`: the
      last descriptive attribute with that name wins. */
  function LastValueNamed(attrs: seq<Attr>, name: string): (r: Option<string>)
    ensures r.Some? <==> exists j :: 0 <= j < |attrs| && attrs[j].name == name
    ensures r.Some? ==> exists j :: 0 <= j < |attrs| && attrs[j] == Attr(name, r.value)
                                   && forall k :: j < k < |attrs| ==> attrs[k].name != name
  {
    if |attrs| == 0 then None
    else
      var rest := LastValueNamed(attrs[1..], name);
      assert forall j :: 1 <= j < |attrs| ==> attrs[1..][j - 1] == attrs[j];
      if rest.Some? then rest
      else if attrs[0].name == name then Some(attrs[0].value)
      else None
  }

  /** The `product_info` dict: `gender` and `brand` are absent when no
      descriptive attribute carries them, `codes` when no SKU matched. */
  datatype ProductInfo = ProductInfo(
    name: string,
    gender: Option<string>,
    brand: Option<string>,
    codes: Option<Codes>)

  /** `extract_product_info` (main.py:114-123). */
  function ExtractProductInfo(p: ProductData, color: string): (r: Result<ProductInfo, Fault>)
    ensures r.Err? <==> ProductCodes(p.skus, color).Err?
    ensures r.Ok? ==> ProductCodes(p.skus, color) == Ok(r.value.codes)
    ensures r.Ok? ==> r.value.name == p.style.name
    ensures r.Ok? ==> (r.value.gender.Some? <==> exists j :: 0 <= j < |p.style.descriptiveAttributes| &&
                                                  p.style.descriptiveAttributes[j].name == "Gender")
    ensures r.Ok? ==> (r.value.brand.Some? <==> exists j :: 0 <= j < |p.style.descriptiveAttributes| &&
                                                 p.style.descriptiveAttributes[j].name == "Brand")
    ensures r.Ok? ==> r.value.gender == LastValueNamed(p.style.descriptiveAttributes, "Gender")
    ensures r.Ok? ==> r.value.brand == LastValueNamed(p.style.descriptiveAttributes, "Brand")
    ensures r.Ok? && r.value.gender.Some? ==>
      Attr("Gender", r.value.gender.value) in p.style.descriptiveAttributes
    ensures r.Ok? && r.value.brand.Some? ==>
      Attr("Brand", r.value.brand.value) in p.style.descriptiveAttributes
    ensures r.Ok? && r.value.codes.Some? ==>
      exists i :: 0 <= i < |p.skus| && MatchesColor(p.skus[i], color) && r.value.codes.value == CodesOf(p.skus[i])
  {
    var codes :- ProductCodes(p.skus, color);
    var attrs := p.style.descriptiveAttributes;
    Ok(ProductInfo(p.style.name, LastValueNamed(attrs, "Gender"), LastValueNamed(attrs, "Brand"), codes))
  }
}
