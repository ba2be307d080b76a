# Dick's Sporting Goods product scraper — a Dafny model

This project models the data path of a small scraper for the Dick's
Sporting Goods product catalogue. It has three parts:

- Turning one product page link into rows. The product identifier is the
  upper-cased last path segment of the link. The product-details document
  is split into one row per colour variant. Each row gets:
  - sizes, widths and prices for that colour;
  - the product codes of its first SKU;
  - six breadcrumb category columns and twelve image columns, each padded
    with `-`;
  - a minimum price, and a sale price that appears only when it differs
    from the minimum price.
- The resume logic of the main loop, and the rollback that deletes every
  row of the last URL in the output ledger.
- Splitting an input table into fixed-size chunk files, and building the
  container-compose service map: one worker per chunk file plus a shared
  base service.

The remote services are a `Remote` value in `Columns`. It holds one map
for product-details documents (keyed by product identifier), one for
breadcrumb lists (keyed by category identifier) and one for image-set
names (keyed by image key). A missing key stands for a non-200 answer or
an empty body. Prices are integer cents. `PriceField.Missing` stands for
the falsy values that the source's `if price` filter skips. A Python
exception that the scraper's bare `except` absorbs is a `Result.Err`.

Modules:

- `Wrappers`: `Option` and `Result`, and a map lookup.
- `Seqs`: list utilities that Python gives for free:
  - first-occurrence deduplication, standing in for `list(set(..))`;
  - an order-keeping filter, with membership, multiplicity and
    subsequence lemmas;
  - concatenating a list-valued map over a list, with membership and
    multiplicity lemmas;
  - `str.split` and `str.join` on one character, with a round-trip lemma;
  - character replacement.
- `Decimal`: decimal spelling of naturals, proved injective through a
  parse round trip.
- `Variants`: the pure readers of the product document. These are colour
  extraction, per-colour details, product codes and style info.
- `Columns`: one output row per colour, assembled from the remote answers,
  and the 59-column CSV header.
- `Scraper`: `process_url` and the resume filter of `main`.
- `Rollback`: the ledger rollback.
- `Chunking`: `split_and_save_csv` and `build_docker_compose`.

Some behaviour of the code is easy to miss when reading it; the model
keeps it as written:

- The sale price is reported whenever it differs from the minimum list
  price, including when it is higher (main.py:163-164). It is not
  reported only when it is strictly lower.
- A category lookup that succeeds but has no breadcrumbs fills all six
  columns with `-`. The single `Home` category appears only when the
  lookup fails (main.py:141-146).
- The image columns hold at most the first `n - 1` of `n` image URLs.
  `Image{i}` is filled only when `i < len(image_urls)` (main.py:158). So
  the last URL is always dropped, and a set with one image yields no
  image at all. `ImageColumnsDropLast` and `AtMostOneImageYieldsNone`
  state this as the code has it.
- One failing colour ends the whole link: the exception leaves
  `process_multiple_colors` and the bare `except` in `process_url`
  absorbs it. The rows saved for earlier colours stay in the ledger.
  `SaveColors` states this prefix behaviour.
- `extract_product_codes` indexes `definingAttributes[0]` without the
  guard that `extract_product_details` uses. A SKU with an empty
  attribute list before the first SKU of the colour therefore ends that
  colour with an error (`ProductCodes`).

## Model

| member | source | states |
|---|---|---|
| Seqs.Dedup | main.py:75 | `list(set(xs))`: the result has no duplicates and contains exactly the elements of the input, never more of them |
| Variants.ExtractColors | main.py:68-75 | the colours are duplicate-free, and a value is a colour exactly when some SKU carries a `Color` attribute with that value at any position of its defining attributes |
| Variants.SizeTokens | main.py:106-112 | a size token comes from each `Shoe Size` or `Size` attribute with spaces replaced by `_`; no token contains a space |
| Variants.WidthValues | main.py:108-110 | a value is a width exactly when a `Shoe Width` attribute carries it |
| Variants.ColorSkus | main.py:98-100 | a SKU is selected exactly when its attribute list is non-empty and the first attribute's value is the colour |
| Variants.ProductDetails | main.py:96-112 | one list price and one offer price per SKU of the colour; a price, size or width appears exactly when some SKU of the colour supplies it; sizes contain no space |
| Variants.CodesOf | main.py:128-134 | `productcode1` is the part number, `productcode3` the catentry id, `productcode4` the parent catentry id, and `sku` and `productcode2` are both the parent part number |
| Variants.ProductCodes | main.py:125-135 | an error exactly when a SKU with empty defining attributes is reached before any SKU of the colour; no codes exactly when every SKU is passed over; otherwise the codes of the first SKU of the colour |
| Variants.LastValueNamed | main.py:117-121 | a value exactly when some attribute has the name, and that value belongs to an attribute with that name (the last one wins) |
| Variants.ExtractProductInfo | main.py:114-123 | fails exactly when the product-code lookup fails; otherwise the codes are exactly what that lookup returns (the first SKU of the colour, or none); the name is the style name; gender and brand are each the value of the last style attribute with that name, absent exactly when no attribute has it |
| Columns.CategoryColumns | main.py:146 | always exactly six category columns |
| Columns.CategoryFetchFailed | main.py:144-146 | a failed lookup gives the columns `Home, -, -, -, -, -` |
| Columns.CategoryColumnsRoundTrip | main.py:143-146 | up to six breadcrumbs without `-` are recovered from the columns by reading up to the first `-`; column k is breadcrumb k or `-` |
| Columns.CategoryColumnsTruncate | main.py:146 | six or more breadcrumbs keep only the first six |
| Columns.PadColumnsRoundTrip | main.py:146 | padding a list with `-` to a width at least its length and reading up to the first `-` gives the list back |
| Columns.ImageUrl | main.py:155 | an image URL is the image host, the image name, then the fixed query `?qlt=70&wid=1920&fmt=pjpeg&op_sharpen=1`; it is never the placeholder |
| Columns.ImageUrlInjective | main.py:155 | different image names give different URLs |
| Columns.ImageUrls | main.py:153-157 | URL i is built from image-set entry i, one per entry; none when the lookup fails |
| Columns.ImageColumns | main.py:158 | always exactly twelve image columns |
| Columns.ImageColumnsDropLast | main.py:158 | the image columns are the URLs without the last one, padded with `-` to twelve |
| Columns.AtMostOneImageYieldsNone | main.py:158 | with zero or one image URL, every image column is `-` |
| Columns.ImageColumnsRoundTrip | main.py:153-158 | for an image set of 1 to 13 entries, reading the columns up to the first `-` gives every URL but the last; a failed lookup gives none |
| Columns.KeyColor | main.py:150 | the colour part of the image key keeps the length, turns every space and `/` into `_`, and keeps every other character |
| Columns.ImageKey | main.py:149-150 | fails exactly when the product has no SKU; otherwise the key is the first SKU's parent part number, `_`, the cleaned colour, then `_is` |
| Columns.MinAmount | main.py:161-162 | no minimum exactly when every price is missing; otherwise a present price not above any other present price |
| Columns.ReducePrices | main.py:161-164 | fails exactly when no list price is present, or offer prices exist but none is present; the price is the minimum list price; the sale cell is never equal to it, holds the minimum offer price when present, and is empty only when there are no offer prices or the two minima agree |
| Columns.CreateDataDict | main.py:160-181 | fails exactly when the prices fail or brand, codes or gender is missing; the row keeps the link, name, brand, codes, gender, categories and images; colour is empty; price and sale cell are exactly the reduced prices; Size and Width are the space-joined distinct sizes and widths |
| Columns.SizeColumnRoundTrip | main.py:178 | the size column is empty for a colour without sizes; otherwise splitting it on spaces gives the distinct sizes in first-occurrence order, duplicate-free, with exactly the colour's sizes |
| Columns.WidthColumnRoundTrip | main.py:172 | the Width column is empty when the colour has no width; otherwise, for widths without spaces, it splits back into each width of the colour exactly once |
| Columns.BuildRow | main.py:77-83 | a built row carries the link, an empty colour, six category and twelve image columns, sku equal to productcode2 and the minimum list price of the colour; it needs a SKU of the colour |
| Columns.BuildRowExactly | main.py:77-83 | a colour yields a row exactly when a SKU of the colour is reached before any SKU without defining attributes, both price minima exist, and the style names a brand and a gender; the row then has that SKU's codes, the reduced prices, the category columns of the breadcrumb answer, the image columns of the image-set answer, Size and Width as the space-joined distinct sizes and widths of the colour, and the value of the style's last Brand and last Gender attribute |
| Columns.ColorNotFirstYieldsNoRow | main.py:100 | a colour that is never the first defining attribute of a SKU produces no row |
| Columns.RowMatchesHeader | main.py:166-180 | a row with six category and twelve image columns, as every built row has, yields one cell per header column, and every cell the row fills sits under its own header name: pcurl, Name, Brand, ProductCode1-4, Sku, Color, Width, Gender, Category1-6, Price, SalePrice, Size and Image1-12 |
| Scraper.UrlId | main.py:45 | the identifier is the upper-cased text after the link's last `/`: it has no `/` and no lowercase letter, it matches the link's tail character by character, and a `/` precedes it unless it is the whole link |
| Scraper.SaveColors | main.py:86-94 | rows are saved for the colours in order; the rows are exactly the built rows of a prefix of the colours, and the prefix stops only at a colour whose build fails |
| Scraper.ProcessUrl | main.py:43-66 | every saved row carries the link and an empty colour; a missing document or empty `productsData` saves nothing; otherwise the rows are the successful prefix over the extracted colours |
| Scraper.OneRowPerColor | main.py:56-64 | when every colour builds, one row per colour is saved, in the colour order |
| Scraper.NoColorNoRow | main.py:59-64 | a product without colours saves nothing |
| Scraper.Scheduled | main.py:203-209 | the scheduled links are among the input links and none is already in the ledger |
| Scraper.ScheduledExactly | main.py:201-209 | a link is scheduled exactly when it is an input link not already in the ledger; order and multiplicity of the remaining links are kept |
| Scraper.ScheduledIdempotent | main.py:205 | filtering the scheduled links again against the same ledger changes nothing |
| Scraper.RowsFor | main.py:208-211 | every row produced by a run belongs to one of the scheduled links |
| Scraper.RowsForComplete | main.py:208-211 | every row that processing a listed link saves is in the output, at least as often as that link saves it |
| Scraper.RowsForMultiplicity | main.py:204-211 | a row occurs in the output once per listed copy of its link, times the number of times processing that link saves it |
| Scraper.Run | main.py:196-211 | an existing ledger is kept as a prefix; every new row belongs to a link that was not yet in the ledger |
| Scraper.RunComplete | main.py:203-211 | every row that processing a scheduled link saves is appended to the ledger, at least as often as processing the link saves it |
| Scraper.RunNewRows | main.py:201-211 | the appended rows hold no row of a link already in the ledger, and every other row once per copy of its link in the input, times the number of times processing that link saves it |
| Scraper.RerunIsNoOp | main.py:201-209 | re-running on links that are all in the ledger leaves the ledger unchanged |
| Rollback.RemoveLastEntriesWithSameUrl | remove_last.py:7-11 | the result is strictly shorter and holds no row of the last row's URL |
| Rollback.RemoveLastKeepsOthers | remove_last.py:9-10 | the rows of other URLs are all kept, in order, with their multiplicity |
| Rollback.RollbackAfterPartialWrite | remove_last.py:7-11 | after some rows of one URL are appended, rolling back removes exactly the rows of that URL, including older ones |
| Chunking.ChunksOf | split_and_save.py:11 | the chunks concatenate back to the input; all but the last have the chunk size, the last is non-empty and not larger; their number is the ceiling of rows over size |
| Chunking.Chunks | split_and_save.py:11 | chunk size 0 is an error; a negative size gives no chunks; a positive size gives exactly the chunking of `ChunksOf`, with its sizes and count |
| Chunking.EmptyInputNoChunks | split_and_save.py:11-17 | an empty table gives no chunk files for any valid chunk size |
| Chunking.ChunkFileName | split_and_save.py:16 | the file name of chunk i is the stem, `_chunk_`, the decimal spelling of i + 1, then `.csv` |
| Chunking.ChunkFileNamesDistinct | split_and_save.py:15-17 | two chunks never share a file name |
| Chunking.ChunkFiles | split_and_save.py:15-17 | one file name per chunk, all distinct |
| Chunking.ServiceNameNotBase | split_and_save.py:26-45 | a worker name never collides with the base service name |
| Chunking.ServiceNamesDistinct | split_and_save.py:45 | two workers never share a service name |
| Chunking.ContainerNamesDistinct | split_and_save.py:44-48 | no two workers of one compose file share a container name |
| Chunking.Services | split_and_save.py:24-53 | the map holds the base service and one worker per file, `scraper-k` for the k-th file, and nothing else; it has one more entry than there are files |
| Chunking.ComposeOfChunkFiles | split_and_save.py:15-53 | when the files are listed in chunk order, the compose file for n chunk files has n + 1 services, and worker j reads the file of chunk j |
| Chunking.SplitThenCompose | split_and_save.py:11-53 | when the files are listed in chunk order, after splitting there is one service per chunk plus the base, and worker j reads `<stem>_chunk_<j>.csv`, the file of chunk j |
| Chunking.ChunkListing | split_and_save.py:15-22 | any listing of the n chunk files, in any order, has n entries, no entry twice, every chunk file, and nothing but chunk files |
| Chunking.ComposeAnyOrder | split_and_save.py:22-53 | for the chunk files listed in any order, the compose file has n + 1 services; worker j reads the j-th listed file, and that listing holds every chunk file exactly once, so each chunk file is read by exactly one worker |

## Left out

- Network transport is not modelled. This covers the TLS session, headers and cookie, request semaphores, timeouts and retries; the remote answers are the `Remote` parameter instead. The logging is left out too.
- The transport error path (main.py:38-41) is left out. It rolls back the ledger and calls `sys.exit(1)`. Every fetch runs inside the bare `except:` of `process_url` (main.py:48-66), and a bare `except` also catches `SystemExit`. So `sys.exit(1)` never ends the run: the rollback happens and only that link's coroutine stops. The model has no such path, so it does not state that rollback.
- JSON decoding and stripping of the JSONP envelope around the image-set answer are left out. Malformed JSON or a missing key in an answer, which the bare `except` would absorb, is not modelled: the documents are typed records whose fields are always present.
- The API URL templates (product details, category, image set) are left out; only the lookup keys (product identifier, category identifier, image key) are modelled.
- Reading and writing CSV and YAML files are left out, and so are the header-on-create rule of `save_to_csv`, directory creation and deleting the input file. So are the `latin1` encoding of the input and the configuration values in config.py.
- Command-line parsing of both scripts is left out; `chunkSize` and the output directory are parameters. The 5000 default is not modelled.
- Chunking.Services: takes the chunk file names in the order given. `ComposeAnyOrder` covers any order of the chunk files of one split. Stale `.csv` files left from an earlier split are not modelled.
- Chunking.ComposeOfChunkFiles: pairs worker j with chunk j only when the files are listed in chunk order; `glob` (split_and_save.py:22) promises no order. For any order, `ComposeAnyOrder` states only that each chunk file has exactly one worker.
- Chunking.SplitThenCompose: the same chunk-order assumption as `ComposeOfChunkFiles`.
- Seqs.Dedup: fixes one order (first occurrence) for `list(set(..))`. Python's order for a set of strings is unspecified and can change from one process to the next. `ExtractColors` and `ProductDetails` state membership and absence of duplicates only. Three contracts state the first-occurrence order: `CreateDataDict` and `BuildRowExactly` (their Size and Width cells are `SpaceJoinedSet`, which joins `Dedup`'s output) and `SizeColumnRoundTrip`.
- Scraper.ProcessUrl: visits the colours in first-occurrence order. When a colour fails, which earlier colours' rows survive depends on the iteration order of Python's set, and the model fixes one such order.
- Prices are integer cents, not floats. `Missing` stands for every falsy value. A numeric zero price, which Python also treats as falsy, is not distinguished from a present amount.
- Scraper.UrlId: upper-cases ASCII letters only. Python's `str.upper` also maps non-ASCII letters, which the model leaves unchanged.
- Each category identifier has one breadcrumb answer in `Remote`. The source fetches categories once per colour and could see different answers.
- The rollback reads and writes a fixed file name that differs from the configured output file (remove_last.py:5, remove_last.py:11); the model applies it to the ledger itself.
- Chunking.ChunksOf: states the chunk count as `(n - 1) * k < |rows| <= n * k`, which defines the ceiling without writing the division.
