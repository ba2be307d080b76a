/** Building one output row for one colour (main.py:137-181): the category and
    image columns padded to a fixed width, the image-set key, the price and
    sale-price reduction, and the fixed column schema of the ledger. */
module Columns {
  import opened Wrappers
  import opened Seqs
  import opened Decimal
  import opened Variants

  const Placeholder := "-"
  const CategoryCount := 6
  const ImageCount := 12
  const HomeCategory := "Home"
  const ImageHost := "https://dks.scene7.com/is/image/"
  const ImageQuery := "?qlt=70&wid=1920&fmt=pjpeg&op_sharpen=1"

  /** What the three remote endpoints answer, as maps. A key that is absent
      stands for a non-200 answer or an empty body. `productDetails` is keyed
      by the part-number id, `breadcrumbs` by the category identifier (the
      breadcrumb names, possibly none), `imageSets` by the image-set key (the
      `s.n` name of every item of the set). */
  datatype Remote = Remote(
    productDetails: map<string, Document>,
    breadcrumbs: map<string, seq<string>>,
    imageSets: map<string, seq<string>>)

  // --------------------------------------------------------- padding

  /** The comprehension of main.py:146: slot `i` (1-based) holds `xs[i-1]`
      when `i <= len(xs)`, the placeholder otherwise. */
  function PadColumns(xs: seq<string>, width: nat): (r: seq<string>)
    ensures |r| == width
  {
    seq(width, k requires 0 <= k < width => var i := k + 1; if i <= |xs| then xs[i - 1] else Placeholder)
  }

  /** The leading cells up to the first placeholder: what a reader of the
      ledger recovers from a block of padded columns. */
  function TakeUntilPlaceholder(cols: seq<string>): (r: seq<string>)
    ensures |r| <= |cols|
    ensures Placeholder !in r
  {
    if |cols| == 0 || cols[0] == Placeholder then []
    else [cols[0]] + TakeUntilPlaceholder(cols[1..])
  }

  /** Padding loses nothing that fits and carries no placeholder of its own. */
  lemma {:induction false} PadColumnsRoundTrip(xs: seq<string>, width: nat)
    requires |xs| <= width
    requires Placeholder !in xs
    ensures TakeUntilPlaceholder(PadColumns(xs, width)) == xs
  {
    var cols := PadColumns(xs, width);
    forall n | 0 <= n <= |xs| ensures TakeUntilPlaceholder(cols[n..]) == xs[n..] {
      TakeFrom(xs, width, n);
    }
    assert cols[0..] == cols;
  }

  lemma {:induction false} TakeFrom(xs: seq<string>, width: nat, n: nat)
    requires |xs| <= width && Placeholder !in xs && n <= |xs|
    ensures TakeUntilPlaceholder(PadColumns(xs, width)[n..]) == xs[n..]
    decreases |xs| - n
  {
    var cols := PadColumns(xs, width);
    if n < |xs| {
      TakeFrom(xs, width, n + 1);
      assert cols[n] == xs[n];
      assert cols[n..][1..] == cols[n + 1..];
      assert xs[n..] == [xs[n]] + xs[n + 1..];
    } else if n < width {
      assert cols[n..][0] == Placeholder;
    } else {
      assert cols[n..] == [];
    }
  }

  // --------------------------------------------------------- categories

  /** The breadcrumb names, or the single category `Home` when the fetch failed
      (main.py:140-145). */
  function Breadcrumbs(response: Option<seq<string>>): (r: seq<string>)
    ensures response.None? ==> r == [HomeCategory]
    ensures response.Some? ==> r == response.value
  {
    match response
    case Some(names) => names
    case None => [HomeCategory]
  }

  /** `get_category_info` (main.py:137-146): always six columns. */
  function CategoryColumns(response: Option<seq<string>>): (r: seq<string>)
    ensures |r| == CategoryCount
  {
    PadColumns(Breadcrumbs(response), CategoryCount)
  }

  /** A failed category fetch yields `Home` and five placeholders. */
  lemma CategoryFetchFailed()
    ensures CategoryColumns(None) == [HomeCategory, "-", "-", "-", "-", "-"]
  {
  }

  /** Up to six breadcrumbs are recovered in order from the columns; column
      `i` is a placeholder exactly when there are fewer than `i` breadcrumbs. */
  lemma CategoryColumnsRoundTrip(names: seq<string>)
    requires |names| <= CategoryCount
    requires Placeholder !in names
    ensures TakeUntilPlaceholder(CategoryColumns(Some(names))) == names
    ensures forall k :: 0 <= k < CategoryCount ==>
      (CategoryColumns(Some(names))[k] == Placeholder <==> k >= |names|)
  {
    PadColumnsRoundTrip(names, CategoryCount);
  }

  /** Breadcrumbs beyond the sixth are dropped. */
  lemma CategoryColumnsTruncate(names: seq<string>)
    requires |names| >= CategoryCount
    ensures CategoryColumns(Some(names)) == names[..CategoryCount]
  {
  }

  // --------------------------------------------------------- images

  /** The fully qualified URL of one image of the set (main.py:155). */
  function ImageUrl(name: string): (r: string)
    ensures |r| == |ImageHost| + |name| + |ImageQuery|
    ensures r[..|ImageHost|] == ImageHost
    ensures r[|ImageHost|..|ImageHost| + |name|] == name
    ensures r[|ImageHost| + |name|..] == ImageQuery
    ensures r != Placeholder
  {
    ImageHost + name + ImageQuery
  }

  /** Different image names give different URLs. */
  lemma ImageUrlInjective(a: string, b: string)
    requires ImageUrl(a) == ImageUrl(b)
    ensures a == b
  {
    var u := ImageUrl(a);
    assert |a| == |b|;
    assert a == u[|ImageHost|..|ImageHost| + |a|];
  }

  /** The image URLs of the answer, none when the fetch failed (main.py:153-157). */
  function ImageUrls(response: Option<seq<string>>): (r: seq<string>)
    ensures response.None? ==> r == []
    ensures response.Some? ==> |r| == |response.value|
    ensures response.Some? ==> forall i :: 0 <= i < |r| ==> r[i] == ImageUrl(response.value[i])
    ensures Placeholder !in r
  {
    match response
    case None => []
    case Some(names) => seq(|names|, i requires 0 <= i < |names| => ImageUrl(names[i]))
  }

  /** The comprehension of main.py:158 as written: slot `i` (1-based) holds
      `urls[i-1]` only when `i < len(urls)`, a strict test where the category
      columns use `<=`. */
  function ImageColumns(urls: seq<string>): (r: seq<string>)
    ensures |r| == ImageCount
  {
    seq(ImageCount, k requires 0 <= k < ImageCount => var i := k + 1; if i < |urls| then urls[i - 1] else Placeholder)
  }

  /** The image columns are the category-style padding of every URL but the
      last: the last image URL is always dropped. */
  lemma ImageColumnsDropLast(urls: seq<string>)
    requires |urls| >= 1
    ensures ImageColumns(urls) == PadColumns(urls[..|urls| - 1], ImageCount)
  {
  }

  /** A set of at most one image yields no image at all. */
  lemma AtMostOneImageYieldsNone(urls: seq<string>)
    requires |urls| <= 1
    ensures forall k :: 0 <= k < ImageCount ==> ImageColumns(urls)[k] == Placeholder
  {
  }

  /** From the columns a reader recovers the URLs of the set except the last,
      up to the thirteenth. */
  lemma ImageColumnsRoundTrip(response: Option<seq<string>>)
    requires response.Some? ==> 1 <= |response.value| <= ImageCount + 1
    ensures response.Some? ==>
      TakeUntilPlaceholder(ImageColumns(ImageUrls(response)))
        == ImageUrls(response)[..|response.value| - 1]
    ensures response.None? ==> TakeUntilPlaceholder(ImageColumns(ImageUrls(response))) == []
  {
    var urls := ImageUrls(response);
    if response.Some? {
      ImageColumnsDropLast(urls);
      assert Placeholder !in urls[..|urls| - 1];
      PadColumnsRoundTrip(urls[..|urls| - 1], ImageCount);
    } else {
      assert ImageColumns(urls)[0] == Placeholder;
    }
  }

  /** The colour as it appears in an image-set key: spaces, then slashes,
      turned into underscores (main.py:150). */
  function KeyColor(color: string): (r: string)
    ensures |r| == |color|
    ensures ' ' !in r && '/' !in r
    ensures forall i :: 0 <= i < |color| && color[i] != ' ' && color[i] != '/' ==> r[i] == color[i]
    ensures forall i :: 0 <= i < |color| && (color[i] == ' ' || color[i] == '/') ==> r[i] == '_'
  {
    var noSpace := ReplaceChar(color, ' ', '_');
    var r := ReplaceChar(noSpace, '/', '_');
    assert forall i :: 0 <= i < |r| ==> r[i] == noSpace[i] || r[i] == '_';
    r
  }

  /** The image-set key (main.py:149-150): the FIRST SKU's parent part number,
      whatever its colour, then `_`, the colour, and `_is`. Indexing the first
      SKU of an empty list fails. */
  function ImageKey(p: ProductData, color: string): (r: Result<string, Fault>)
    ensures r.Err? <==> |p.skus| == 0
    ensures r.Err? ==> r.error == NoSkus
    ensures r.Ok? ==>
      var parent := p.skus[0].parentPartNumber;
      && |r.value| == |parent| + |color| + 4
      && r.value[..|parent| + 1] == parent + "_"
      && r.value[|parent| + 1 + |color|..] == "_is"
      && r.value[|parent| + 1..|parent| + 1 + |color|] == KeyColor(color)
  {
    if |p.skus| == 0 then Err(NoSkus)
    else
      var parent := p.skus[0].parentPartNumber;
      var key := parent + "_" + KeyColor(color) + "_is";
      assert key[|parent| + 1..|parent| + 1 + |color|] == KeyColor(color);
      Ok(key)
  }

  // --------------------------------------------------------- prices

  /** `m` is the smallest amount among `ps`, ignoring missing prices. */
  predicate IsMin(m: int, ps: seq<PriceField>) {
    && Amount(m) in ps
    && forall i :: 0 <= i < |ps| && ps[i].Amount? ==> m <= ps[i].cents
  }

  /** `min(p for p in ps if p)`, `None` where Python raises on an empty list. */
  function MinAmount(ps: seq<PriceField>): (r: Option<int>)
    ensures r.None? <==> forall i :: 0 <= i < |ps| ==> ps[i].Missing?
    ensures r.Some? ==> IsMin(r.value, ps)
  {
    if |ps| == 0 then None
    else
      var rest := MinAmount(ps[1..]);
      assert forall i :: 1 <= i < |ps| ==> ps[1..][i - 1] == ps[i];
      match ps[0]
      case Missing => rest
      case Amount(c) => if rest.Some? && rest.value < c then rest else Some(c)
  }

  /** The sale-price column: an amount, or the placeholder `-` meaning "no
      discount". */
  datatype SaleCell = Discounted(cents: int) | NoDiscount

  datatype PriceCells = PriceCells(price: int, sale: SaleCell)

  /** The price reduction of `create_data_dict` (main.py:161-164). `Price` is
      the least list price; the sale price is the least offer price, shown as
      the placeholder when it equals `Price`. Either minimum fails on a list
      with no price. The `else '-'` of main.py:162 is only reached when there
      are no offer prices, and then no list prices either. */
  function ReducePrices(prices: seq<PriceField>, salePrices: seq<PriceField>): (r: Result<PriceCells, Fault>)
    ensures r.Err? <==>
      || (forall i :: 0 <= i < |prices| ==> prices[i].Missing?)
      || (|salePrices| > 0 && forall i :: 0 <= i < |salePrices| ==> salePrices[i].Missing?)
    ensures r.Err? ==> r.error == EmptyMin
    ensures r.Ok? ==> IsMin(r.value.price, prices)
    ensures r.Ok? ==> r.value.sale != Discounted(r.value.price)
    ensures r.Ok? && r.value.sale.Discounted? ==> IsMin(r.value.sale.cents, salePrices)
    ensures r.Ok? && r.value.sale.NoDiscount? ==> |salePrices| == 0 || IsMin(r.value.price, salePrices)
  {
    match MinAmount(prices)
    case None => Err(EmptyMin)
    case Some(price) =>
      if |salePrices| == 0 then Ok(PriceCells(price, NoDiscount))
      else
        match MinAmount(salePrices)
        case None => Err(EmptyMin)
        case Some(sale) => Ok(PriceCells(price, if sale == price then NoDiscount else Discounted(sale)))
  }

  // --------------------------------------------------------- the row

  /** One ledger row, one per product and colour. The fields the code always
      fills with a constant (`NO`, `mburl`, `ProductCode5`, `facetCategory`,
      `Currency`, `Description0..20`, `Thumbnail`) appear only in `Cells`. */
  datatype Row = Row(
    pcurl: string,
    name: string,
    brand: string,
    codes: Codes,
    color: string,
    width: string,
    gender: string,
    categories: seq<string>,
    price: int,
    sale: SaleCell,
    size: string,
    images: seq<string>)

  /** `' '.join(list(set(xs)))`. */
  function SpaceJoinedSet(xs: seq<string>): string {
    Join(Dedup(xs), ' ')
  }

  /** A space-joined column is empty for no values; otherwise, when no value
      holds a space, splitting it on spaces gives every value exactly once. */
  lemma SpaceJoinedSetRoundTrip(xs: seq<string>)
    requires forall x :: x in xs ==> ' ' !in x
    ensures |xs| == 0 ==> SpaceJoinedSet(xs) == ""
    ensures |xs| > 0 ==> SplitOn(SpaceJoinedSet(xs), ' ') == Dedup(xs)
    ensures |xs| > 0 ==> NoDup(SplitOn(SpaceJoinedSet(xs), ' '))
    ensures |xs| > 0 ==> forall x :: x in SplitOn(SpaceJoinedSet(xs), ' ') <==> x in xs
  {
    var tokens := Dedup(xs);
    if |xs| > 0 {
      assert |tokens| > 0 by {
        assert xs[0] in tokens;
      }
      forall i | 0 <= i < |tokens| ensures ' ' !in tokens[i] {
        assert tokens[i] in xs;
      }
      SplitJoin(tokens, ' ');
      forall x ensures x in tokens <==> x in xs {
        if x in xs {
          var i :| 0 <= i < |xs| && xs[i] == x;
        }
        if x in tokens {
          var i :| 0 <= i < |tokens| && tokens[i] == x;
        }
      }
    }
  }

  /** `create_data_dict` (main.py:160-181): the price reduction first, then
      the dict, whose lookups of `brand`, `productcode1` and `gender` raise
      when `product_info` never got those keys. `Color` is always empty:
      nothing ever stores a `color` key in `product_info` (main.py:172). */
  function CreateDataDict(url: string, info: ProductInfo, categories: seq<string>, details: Details,
                          images: seq<string>): (r: Result<Row, Fault>)
    ensures r.Err? <==>
      || ReducePrices(details.prices, details.salePrices).Err?
      || info.brand.None? || info.codes.None? || info.gender.None?
    ensures r.Ok? ==> r.value.pcurl == url && r.value.color == "" && r.value.name == info.name
    ensures r.Ok? ==>
      && info.brand == Some(r.value.brand)
      && info.codes == Some(r.value.codes)
      && info.gender == Some(r.value.gender)
    ensures r.Ok? ==> r.value.categories == categories && r.value.images == images
    ensures r.Ok? ==> ReducePrices(details.prices, details.salePrices) == Ok(PriceCells(r.value.price, r.value.sale))
    ensures r.Ok? ==> IsMin(r.value.price, details.prices)
    ensures r.Ok? ==> r.value.sale != Discounted(r.value.price)
    ensures r.Ok? ==> r.value.size == SpaceJoinedSet(details.sizes) && r.value.width == SpaceJoinedSet(details.widths)
  {
    var cells :- ReducePrices(details.prices, details.salePrices);
    if info.brand.None? then Err(MissingKey("brand"))
    else if info.codes.None? then Err(MissingKey("productcode1"))
    else if info.gender.None? then Err(MissingKey("gender"))
    else
      Ok(Row(url, info.name, info.brand.value, info.codes.value, "", SpaceJoinedSet(details.widths),
             info.gender.value, categories, cells.price, cells.sale, SpaceJoinedSet(details.sizes), images))
  }

  /** The `Size` column (main.py:178) is empty for a colour without sizes;
      otherwise splitting it on spaces gives back every size exactly once,
      provided no size holds a space (as `ProductDetails` guarantees). */
  lemma SizeColumnRoundTrip(url: string, info: ProductInfo, categories: seq<string>, details: Details,
                            images: seq<string>)
    requires CreateDataDict(url, info, categories, details, images).Ok?
    requires forall x :: x in details.sizes ==> ' ' !in x
    ensures var size := CreateDataDict(url, info, categories, details, images).value.size;
      && (|details.sizes| == 0 ==> size == "")
      && (|details.sizes| > 0 ==> SplitOn(size, ' ') == Dedup(details.sizes))
      && (|details.sizes| > 0 ==> NoDup(SplitOn(size, ' ')))
      && (|details.sizes| > 0 ==> forall x :: x in SplitOn(size, ' ') <==> x in details.sizes)
  {
    SpaceJoinedSetRoundTrip(details.sizes);
  }

  /** The `Width` column (main.py:172) lists every width of the colour once:
      empty when the colour has none, and, for widths without spaces, split
      back on spaces into exactly the colour's widths. */
  lemma WidthColumnRoundTrip(url: string, info: ProductInfo, categories: seq<string>, details: Details,
                             images: seq<string>)
    requires CreateDataDict(url, info, categories, details, images).Ok?
    requires forall x :: x in details.widths ==> ' ' !in x
    ensures var width := CreateDataDict(url, info, categories, details, images).value.width;
      && (|details.widths| == 0 ==> width == "")
      && (|details.widths| > 0 ==> NoDup(SplitOn(width, ' ')))
      && (|details.widths| > 0 ==> forall x :: x in SplitOn(width, ' ') <==> x in details.widths)
  {
    SpaceJoinedSetRoundTrip(details.widths);
  }

  /** `process_single_color` (main.py:77-83), which is also the body of the
      loop of `process_multiple_colors` (main.py:87-94), up to the row it
      saves, in the order the Python code runs: product details, product
      info, categories, image key and images, then `create_data_dict`. The
      row's prices are the least over the SKUs of the colour, and a row
      exists only if some SKU has the colour as its first attribute value. */
  function BuildRow(url: string, p: ProductData, color: string, remote: Remote): (r: Result<Row, Fault>)
    ensures r.Ok? ==> r.value.pcurl == url && r.value.color == ""
    ensures r.Ok? ==> |r.value.categories| == CategoryCount && |r.value.images| == ImageCount
    ensures r.Ok? ==> r.value.sale != Discounted(r.value.price)
    ensures r.Ok? ==> r.value.codes.sku == r.value.codes.productCode2
    ensures r.Ok? ==> IsMin(r.value.price, ProductDetails(p.skus, color).prices)
    ensures r.Ok? ==> exists s :: s in p.skus && MatchesColor(s, color)
    ensures r.Ok? ==> r.value.name == p.style.name
  {
    var details := ProductDetails(p.skus, color);
    var info :- ExtractProductInfo(p, color);
    var categories := CategoryColumns(Lookup(remote.breadcrumbs, p.style.primaryCategory));
    var key :- ImageKey(p, color);
    var images := ImageColumns(ImageUrls(Lookup(remote.imageSets, key)));
    var r := CreateDataDict(url, info, categories, details, images);
    if r.Ok? then
      assert exists s :: s in p.skus && MatchesColor(s, color) && s.listPrice == Amount(r.value.price);
      r
    else r
  }

  /** When a colour yields a row: exactly when a SKU of the colour comes
      before any SKU without defining attributes, both price minima exist,
      and the style names a brand and a gender. The row then carries that
      SKU's codes, the reduced prices, the category columns of the
      breadcrumb answer, the image columns of the image-set answer, the
      colour's sizes and widths, and the style's last Brand and Gender. */
  lemma BuildRowExactly(url: string, p: ProductData, color: string, remote: Remote)
    ensures BuildRow(url, p, color, remote).Ok? <==>
      && ProductCodes(p.skus, color).Ok? && ProductCodes(p.skus, color).value.Some?
      && ReducePrices(ProductDetails(p.skus, color).prices, ProductDetails(p.skus, color).salePrices).Ok?
      && (exists j :: 0 <= j < |p.style.descriptiveAttributes| && p.style.descriptiveAttributes[j].name == "Brand")
      && (exists j :: 0 <= j < |p.style.descriptiveAttributes| && p.style.descriptiveAttributes[j].name == "Gender")
    ensures var built := BuildRow(url, p, color, remote);
      var details := ProductDetails(p.skus, color);
      built.Ok? ==>
      var row := built.value;
      && ProductCodes(p.skus, color) == Ok(Some(row.codes))
      && ReducePrices(details.prices, details.salePrices) == Ok(PriceCells(row.price, row.sale))
      && row.categories == CategoryColumns(Lookup(remote.breadcrumbs, p.style.primaryCategory))
      && ImageKey(p, color).Ok?
      && row.images == ImageColumns(ImageUrls(Lookup(remote.imageSets, ImageKey(p, color).value)))
      && row.size == SpaceJoinedSet(details.sizes)
      && row.width == SpaceJoinedSet(details.widths)
      && Some(row.brand) == LastValueNamed(p.style.descriptiveAttributes, "Brand")
      && Some(row.gender) == LastValueNamed(p.style.descriptiveAttributes, "Gender")
  {
  }

  /** The fragile assumption of main.py:100 and main.py:127: a colour that no
      SKU carries as its FIRST attribute value yields no row, even though
      `extract_colors` found it. */
  lemma ColorNotFirstYieldsNoRow(url: string, p: ProductData, color: string, remote: Remote)
    requires forall s :: s in p.skus ==> !MatchesColor(s, color)
    ensures BuildRow(url, p, color, remote).Err?
  {
  }

  // --------------------------------------------------------- column schema

  /** A CSV cell: text, or a price in cents written as a float. */
  datatype Cell = Text(text: string) | Money(cents: int)

  /** `prefix + str(i)` for `count` consecutive `i` from `from`. */
  function Numbered(prefix: string, from: nat, count: nat): (r: seq<string>)
    ensures |r| == count
  {
    seq(count, k requires 0 <= k < count => prefix + NatToString(from + k))
  }

  /** The ledger's columns in the insertion order of `create_data_dict`
      (main.py:166-180). */
  function Header(): (r: seq<string>)
    ensures |r| == 59
  {
    ["NO", "pcurl", "mburl", "Name", "Brand", "ProductCode1", "ProductCode2", "ProductCode3",
     "ProductCode4", "ProductCode5", "Sku", "Color", "Width", "Gender"]
    + (Numbered("Category", 1, CategoryCount)
    + (["facetCategory", "Price", "SalePrice", "Currency"]
    + (Numbered("Description", 0, 21)
    + (["Size"]
    + (Numbered("Image", 1, ImageCount)
    + ["Thumbnail"])))))
  }

  function Texts(xs: seq<string>): (r: seq<Cell>)
    ensures |r| == |xs|
  {
    seq(|xs|, i requires 0 <= i < |xs| => Text(xs[i]))
  }

  function SaleText(s: SaleCell): Cell {
    match s
    case Discounted(c) => Money(c)
    case NoDiscount => Text(Placeholder)
  }

  /** The cells of a row, in header order. */
  function Cells(r: Row): seq<Cell> {
    [Text(Placeholder), Text(r.pcurl), Text(Placeholder), Text(r.name), Text(r.brand),
     Text(r.codes.productCode1), Text(r.codes.productCode2), Text(r.codes.productCode3),
     Text(r.codes.productCode4), Text(Placeholder), Text(r.codes.sku), Text(r.color),
     Text(r.width), Text(r.gender)]
    + (Texts(r.categories)
    + ([Text(Placeholder), Money(r.price), SaleText(r.sale), Text("$")]
    + (Texts(seq(21, i => Placeholder))
    + ([Text(r.size)]
    + (Texts(r.images)
    + [Text(Placeholder)])))))
  }

  /** Every row with six category and twelve image columns, which is every row
      `BuildRow` produces, has exactly one cell per header column, so appending
      without a header keeps the columns aligned: every cell the row fills
      sits under its own header name. */
  lemma RowMatchesHeader(r: Row)
    requires |r.categories| == CategoryCount && |r.images| == ImageCount
    ensures |Cells(r)| == |Header()|
    ensures Header()[1] == "pcurl" && Cells(r)[1] == Text(r.pcurl)
    ensures Header()[3] == "Name" && Cells(r)[3] == Text(r.name)
    ensures Header()[4] == "Brand" && Cells(r)[4] == Text(r.brand)
    ensures Header()[5] == "ProductCode1" && Cells(r)[5] == Text(r.codes.productCode1)
    ensures Header()[6] == "ProductCode2" && Cells(r)[6] == Text(r.codes.productCode2)
    ensures Header()[7] == "ProductCode3" && Cells(r)[7] == Text(r.codes.productCode3)
    ensures Header()[8] == "ProductCode4" && Cells(r)[8] == Text(r.codes.productCode4)
    ensures Header()[10] == "Sku" && Cells(r)[10] == Text(r.codes.sku)
    ensures Header()[11] == "Color" && Cells(r)[11] == Text(r.color)
    ensures Header()[12] == "Width" && Cells(r)[12] == Text(r.width)
    ensures Header()[13] == "Gender" && Cells(r)[13] == Text(r.gender)
    ensures Header()[14..20] == Numbered("Category", 1, CategoryCount) && Cells(r)[14..20] == Texts(r.categories)
    ensures Header()[21] == "Price" && Cells(r)[21] == Money(r.price)
    ensures Header()[22] == "SalePrice" && Cells(r)[22] == SaleText(r.sale)
    ensures Header()[45] == "Size" && Cells(r)[45] == Text(r.size)
    ensures Header()[46..58] == Numbered("Image", 1, ImageCount) && Cells(r)[46..58] == Texts(r.images)
  {
    HeaderLayout();
    CellLayout(r);
    CellColumnsLayout(r);
  }

  /** Where each named column sits in the header. */
  lemma HeaderLayout()
    ensures var h := Header();
      && h[1] == "pcurl" && h[3] == "Name" && h[4] == "Brand"
      && h[5] == "ProductCode1" && h[6] == "ProductCode2" && h[7] == "ProductCode3" && h[8] == "ProductCode4"
      && h[10] == "Sku" && h[11] == "Color" && h[12] == "Width" && h[13] == "Gender"
      && h[14..20] == Numbered("Category", 1, CategoryCount)
      && h[21] == "Price" && h[22] == "SalePrice" && h[45] == "Size"
      && h[46..58] == Numbered("Image", 1, ImageCount)
  {
  }

  /** Where the identifying fields of a row land among its cells. */
  lemma CellLayout(r: Row)
    ensures var c := Cells(r);
      && c[1] == Text(r.pcurl) && c[3] == Text(r.name) && c[4] == Text(r.brand)
      && c[5] == Text(r.codes.productCode1) && c[6] == Text(r.codes.productCode2)
      && c[7] == Text(r.codes.productCode3) && c[8] == Text(r.codes.productCode4)
      && c[10] == Text(r.codes.sku) && c[11] == Text(r.color) && c[12] == Text(r.width) && c[13] == Text(r.gender)
  {
  }

  /** Where the category, price, size and image fields of a row land among
      its cells. */
  lemma CellColumnsLayout(r: Row)
    requires |r.categories| == CategoryCount && |r.images| == ImageCount
    ensures var c := Cells(r);
      && |c| == 59
      && c[14..20] == Texts(r.categories)
      && c[21] == Money(r.price) && c[22] == SaleText(r.sale) && c[45] == Text(r.size)
      && c[46..58] == Texts(r.images)
  {
  }
}
