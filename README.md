# jetcart-backend in Dafny

A Dafny model of the core of jetcart-backend, a small e-commerce backend. The core holds:

- the inventory ledger of the catalog, with its blocked-inventory records. Stock is blocked for
  five minutes and then committed.
- cart lines, how they are merged when items are added to a cart, and the price calculation that sets each line's sales tax and the cart's totals.
- the cart service: request validation, the pricing and saving of new and grown carts, and the checkout guard.
- facet counting and the sanitising of search arguments in the catalog service.
- the string helpers and the named sequence counter of the product-page scraper.

The model follows the structure of the code:

| file | module | models |
|---|---|---|
| `wrappers.dfy` | `Wrappers` | `Option` and `Result` |
| `domain_catalog.dfy` | `DomainCatalog` | jetcart/domain/catalog.py: `Catalog` is a class over a sku→`Inventory` map and an id→`BlockedInventory` map |
| `domain_cart.dfy` | `DomainCart` | jetcart/domain/cart.py: `Merge`, the pricing loops of `SimpleCartValueCalculator`, and the `Cart` class whose `AddItems` runs the merging loop and whose `Calculate` prices its lines |
| `service_cart.dfy` | `ServiceCart` | jetcart/service/cart.py: schema loading, and the `CartService` class over a map of carts and a list of orders |
| `service_catalog.dfy` | `ServiceCatalog` | jetcart/service/catalog.py: the `ComputeFacets` loop and `SanitizeKwargs` |
| `extractor.dfy` | `Extractor` | scrapper/extractor.py: `_add_scheme`, `_extract_img_url`, `_transform_image_url` and the comma stripping of prices |
| `fetcher.dfy` | `Fetcher` | scrapper/fetcher.py: the `SequenceStore` class behind `_get_sequence`, and `get_sleep_interval` |

Conventions:

- The clock is a parameter `now`, in epoch seconds.
- The random draw of `get_sleep_interval` is a parameter.
- MongoDB collections are in-memory maps, and generated ids are counters.
- Unit prices are integers. Money and tax amounts are exact `real` numbers rather than floats.
- The answers of the catalog and tax services are a parameter `lookup`: for each sku, the taxes of its product's category. A sku without an entry is one whose lookup raises.

A save of an `Inventory` document checks the declared field minimums first: `quantity >= 0` and `buyer_limit >= 1`. A save that breaks one of them writes nothing and raises a validation error. The model calls this error `FieldValidation`.

### Quirks of the reservation code

`block_inventory` and `commit_inventory` behave as follows, and the model follows them:

- There is no release or expiry operation, no sweep and no `EXPIRED` state. Reserved stock is never returned.
- The stock check of `block_inventory` is strict (`quantity < stock`). The last unit of a sku can never be blocked.
- `commit_inventory` never looks at the record's state. Inside the window it takes the quantity off the ledger again, on top of the deduction the block made, and marks the record COMMITTED. It then raises `BlockedInventoryExpired` on every path that finds the record and whose save succeeds, whether or not the commit was late. `CommitScenario` shows the stock going 10 → 8 → 6 → 4 over one block and two commits.
- The second deduction is a save, so it fails validation when it would take the stock below zero. `CommitBelowZeroScenario` uses the catalog test's own setup: stock 3, a block of 2, then a commit that is refused.
- The stored state strings are `str()` of the enum members: `"BlockedInventoryState.BLOCKED"` and `"BlockedInventoryState.COMMITTED"`, not `"blocked"` and `"committed"`.
- The ledger invariant "available = initial − blocked − committed" does not hold, because commit deducts a second time.

## Model

| member | source | states |
|---|---|---|
| DomainCatalog.ExpiryTime | jetcart/domain/catalog.py:182-183 | a positive window puts the expiry strictly after `now` |
| DomainCatalog.Catalog.SaveInventory | jetcart/domain/catalog.py:57-62 | a save is an upsert under the sku if `quantity >= 0` and `buyer_limit >= 1`; otherwise it is a validation error and nothing changes |
| DomainCatalog.Catalog.CreateInventory | jetcart/domain/catalog.py:137-145 | a new entry gets the default buyer limit 3; a negative quantity is refused and nothing is stored |
| DomainCatalog.Catalog.UpdateInventory | jetcart/domain/catalog.py:148-152 | only the quantity of that sku changes, and every other field and sku stays; an unknown sku or a negative quantity changes nothing |
| DomainCatalog.Catalog.BlockInventory | jetcart/domain/catalog.py:159-179 | errors come in the order unknown sku, then quantity outside `0 < q <= buyer_limit`, then not enough stock; it succeeds iff `q < stock`; on success the stock drops by exactly `q` and stays at least 1, other skus are untouched, and one BLOCKED record `(sku, q, now+300)` is added under a fresh id; a failure changes nothing |
| DomainCatalog.Catalog.CommitInventory | jetcart/domain/catalog.py:190-204 | an unknown id changes nothing; after the expiry nothing changes; inside the window the quantity is deducted again and the record becomes COMMITTED whatever its state, unless that would take the stock below zero, in which case the save is refused with a validation error and nothing changes; otherwise `BlockedInventoryExpired` is the outcome, late or not |
| DomainCatalog.BlockScenario | test/catalog_test.py:24-39 | stock 3, limit 5: blocking 2 succeeds and leaves 1; blocking 1 more fails with NotEnoughInventory |
| DomainCatalog.InvalidBlockScenario | test/catalog_test.py:41-49 | an unknown sku, a quantity above the buyer limit and a quantity above the stock are each refused, with their own error |
| DomainCatalog.CommitScenario | jetcart/domain/catalog.py:190-204 | repeated commits inside the window deduct each time (10, 8, 6, 4); a late commit changes nothing; every call ends in BlockedInventoryExpired |
| DomainCatalog.CommitBelowZeroScenario | jetcart/domain/catalog.py:196-199 | with stock 3 and a block of 2, the commit's second deduction fails validation and leaves stock 1 and the record BLOCKED |
| DomainCart.Merge | jetcart/domain/cart.py:27-34 | returns a line iff sku and unit price agree; the line has the same sku and price, the summed quantity, and default tax fields |
| DomainCart.MergeSymmetric | jetcart/domain/cart.py:28 | merging a with b equals merging b with a |
| DomainCart.SortBySku | jetcart/domain/cart.py:81-84 | the sorted lines are a permutation of the input |
| DomainCart.SortBySkuSorted | jetcart/domain/cart.py:81-84 | the result is in non-decreasing sku order (Python string order) |
| DomainCart.SortBySkuStable | jetcart/domain/cart.py:81-84 | lines with the same sku keep their relative order, as Python's stable `sorted` promises |
| DomainCart.Coalesce | jetcart/domain/cart.py:89-98 | the folded list is non-empty, no longer than the input, and its last line matches the input's last line |
| DomainCart.CoalesceSnoc | jetcart/domain/cart.py:91-97 | one more input line either merges into the last output line or is appended |
| DomainCart.CoalesceSorted | jetcart/domain/cart.py:89-98 | folding a sku-sorted list keeps it sorted |
| DomainCart.CoalesceQuantity | jetcart/domain/cart.py:91-97 | folding keeps the total quantity of every (sku, unit price) pair |
| DomainCart.CoalesceNoAdjacentDuplicates | jetcart/domain/cart.py:91-97 | no two neighbouring output lines share both sku and unit price |
| DomainCart.SortBySkuSameSku | jetcart/domain/cart.py:81-84 | lines that all carry one sku are left where they are by the sort |
| DomainCart.CoalesceKeepsSeparatedLines | jetcart/domain/cart.py:91-97 | for two lines with one sku and different prices, `a, b, a` sorts and folds to `a, b, a`: equal lines separated by another price are not merged |
| DomainCart.AddItemsEmpty | jetcart/domain/cart.py:78-79 | adding an empty list leaves the lines unchanged |
| DomainCart.AddItemsSorted | jetcart/domain/cart.py:81-99 | after a non-empty add the lines are sorted by sku |
| DomainCart.AddItemsLength | jetcart/domain/cart.py:86-98 | after a non-empty add the cart is non-empty and no longer than old plus new lines |
| DomainCart.AddItemsQuantity | jetcart/domain/cart.py:81-98 | per (sku, unit price), the quantity after the add equals the old quantity plus the added one |
| DomainCart.AddItemsNoAdjacentDuplicates | jetcart/domain/cart.py:89-99 | after a non-empty add no two neighbouring lines could be merged |
| DomainCart.CoalesceStep | jetcart/domain/cart.py:91-97 | one round of the loop keeps `merged + [last]` equal to the fold of the lines read so far |
| DomainCart.MergeLines | jetcart/domain/cart.py:89-98 | the accumulator loop over the sorted lines returns exactly their fold `Coalesce` |
| DomainCart.SalesTaxRate | jetcart/domain/cart.py:117 | the taxes of a line, summed one by one, equal the summed rate applied to its amount |
| DomainCart.UnitSalesTax | jetcart/domain/cart.py:116-118 | for a non-zero quantity, the line's taxes divided by its quantity equal the summed rate applied to the unit price |
| DomainCart.Calculated | jetcart/domain/cart.py:110-131 | a calculation either raises or gives totals with no discount and a payable amount that is at least 0 and at least value plus tax |
| DomainCart.CalculatedOutcome | jetcart/domain/cart.py:110-145 | it raises a lookup error iff some sku's lookup raises; it raises a division by zero iff every lookup succeeds and some quantity is 0; it succeeds iff every lookup succeeds and no quantity is 0 |
| DomainCart.BuildSkuTaxMap | jetcart/domain/cart.py:133-145 | the map is built iff no sku's lookup raises; then `get(sku) or []` gives every line's sku the taxes of its category |
| DomainCart.PriceLines | jetcart/domain/cart.py:110-131 | with a zero quantity, the division raises after the lines before it are priced and the rest are untouched; otherwise every line is priced and the totals are the sums of amounts and taxes |
| DomainCart.PricingRound | jetcart/domain/cart.py:115-121 | one round sets the line's tax fields to those of `PriceLine` and adds its amount and tax to the running totals |
| DomainCart.PricingStopped | jetcart/domain/cart.py:118 | a stop at line i leaves the lines before i priced and the others as they were |
| DomainCart.PricingDone | jetcart/domain/cart.py:114-121 | a loop that ran through all lines has priced each of them |
| DomainCart.SameTaxes | jetcart/domain/cart.py:115 | priced lines and summed taxes depend on the tax map only at the lines' skus |
| DomainCart.CalculateLines | jetcart/domain/cart.py:110-145 | the calculation's outcome is `Calculated` and the lines it leaves are `LinesAfterPricing` |
| DomainCart.TotalsReadLineKeys | jetcart/domain/cart.py:116-121 | the totals depend only on each line's sku, quantity and unit price |
| DomainCart.FirstZeroReadsQuantities | jetcart/domain/cart.py:118 | where the division raises depends only on the quantities |
| DomainCart.PricedLinesReadLineKeys | jetcart/domain/cart.py:118-119 | pricing overwrites both tax fields, so it gives the same lines for lines with the same sku, quantity and price |
| DomainCart.PricingReadsLineKeys | jetcart/domain/cart.py:110-131 | lines that agree on sku, quantity and price are priced alike and have the same outcome |
| DomainCart.RecalculateIdempotent | jetcart/domain/cart.py:72-75 | calculating a successfully calculated cart again changes neither its lines nor its totals |
| DomainCart.Cart.constructor | jetcart/domain/cart.py:56-59 | a new cart holds the given lines in state CREATED, with no totals |
| DomainCart.Cart.Load | jetcart/domain/cart.py:161-162 | a cart read back from the store carries the stored lines, state and totals |
| DomainCart.Cart.Calculate | jetcart/domain/cart.py:72-75 | the result is `Calculated` of the old lines; the lines become `LinesAfterPricing`, also when it raises; the totals are stored only on success; the state is kept |
| DomainCart.Cart.AddItems | jetcart/domain/cart.py:77-100 | an empty list changes nothing; otherwise the lines become the loop's result over the sku-sorted old and new lines, which is `AddedItems(old items, other)`; the state and totals are unchanged |
| ServiceCart.LoadItem | jetcart/service/cart.py:11-14 | an item loads iff sku, quantity and unit_price are all present; the loaded line carries them and default taxes |
| ServiceCart.LoadItems | jetcart/service/cart.py:46-52 | a list loads iff every item loads; the result has one line per item, in order |
| ServiceCart.LoadCart | jetcart/service/cart.py:17-22 | a cart request loads iff `items` is present, non-empty and every item loads |
| ServiceCart.LoadCartNeedsItems | jetcart/service/cart.py:17-22 | a request with a missing or empty `items` list is rejected |
| ServiceCart.CartService.CreateCart | jetcart/service/cart.py:25-32 | an invalid request gives a validation error with status 400 and stores nothing; a request whose pricing raises stores nothing and reports that error; otherwise one fresh cart is stored, in state CREATED, with the priced lines and the totals of `Calculated` |
| ServiceCart.CartService.AddItems | jetcart/service/cart.py:46-59 | items are validated before the cart is looked up (status 400); an unknown cart is refused; an empty list returns the stored lines and changes nothing; otherwise the merged lines `AddedItems` are priced, and the stored cart is replaced by the priced one only when pricing succeeds; the cart's state is kept on every path |
| ServiceCart.CartService.MergeAndPrice | jetcart/domain/cart.py:165-180 | a copy of the stored cart gets the merged lines and is priced; if pricing raises, the store is unchanged and the error is returned; otherwise the copy, with its new totals and the same state, replaces the stored cart |
| ServiceCart.CartService.Checkout | jetcart/service/cart.py:62-73 | an unknown cart is refused; a CHECKED_OUT cart is refused and stays so; otherwise exactly one order for that cart is appended, in state CREATED, it is returned, and the cart becomes CHECKED_OUT; the cart's lines and totals are kept on every path; no path creates an order on failure |
| ServiceCart.CheckoutTwice | jetcart/service/cart.py:65-69 | a second checkout of the same cart always fails, and at most one order is created |
| ServiceCatalog.ComputeFacets | jetcart/service/catalog.py:48-52 | each category maps to the number of products that carry it; only occurring categories are keys; the counts add up to the number of products |
| ServiceCatalog.CategoryCountAbsent | jetcart/service/catalog.py:49-52 | a category on no product counts 0 |
| ServiceCatalog.FacetsOfNoProducts | jetcart/service/catalog.py:49-52 | no products give an empty counter |
| ServiceCatalog.CategoryCountPermutation | jetcart/service/catalog.py:50-51 | the count of a category does not depend on the order of the products |
| ServiceCatalog.FacetsOrderIndependent | jetcart/service/catalog.py:48-52 | permuted product lists give the same facet map |
| ServiceCatalog.SanitizeKwargs | jetcart/service/catalog.py:25-29 | exactly the keys `title` and `filters`; `title` is the given value or None; `filters` is the given value when truthy, else `{}` |
| ServiceCatalog.SanitizeKwargsIdempotent | jetcart/service/catalog.py:25-29 | sanitising twice equals sanitising once |
| ServiceCatalog.SanitizeKwargsDropsOtherKeys | jetcart/service/catalog.py:25-29 | any key other than `title` and `filters` has no effect on the result |
| Extractor.AddSchemeAlwaysPrefixes | scrapper/extractor.py:29-32 | the host is always put in front, even of an absolute URL, since no string starts with both `http:` and `https:`; the result starts with the host and ends with the URL |
| Extractor.IndexOf | scrapper/extractor.py:80 | the first occurrence at or after a start position, or none when the pattern does not occur (where `index` raises) |
| Extractor.ExtractImgUrl | scrapper/extractor.py:79-81 | fails iff `url(` does not occur; the result is shorter than the style |
| Extractor.ExtractImgUrlAt | scrapper/extractor.py:79-81 | with the first `url(` at i, the result runs from i+4 to just before the last character, or is empty when nothing follows |
| Extractor.ExtractImgUrlOf | scrapper/extractor.py:79-81 | `pre + "url(" + body + ")"` gives back `body` when `pre` has no `url(` |
| Extractor.Replace | scrapper/extractor.py:84 | `str.replace` with a pattern and a replacement of equal length keeps the length |
| Extractor.ReplaceAbsent | scrapper/extractor.py:84 | a string without the pattern is unchanged by `replace` |
| Extractor.TransformImageUrlProperties | scrapper/extractor.py:83-84 | the rewrite keeps the URL's length and leaves a URL without `/128/` unchanged |
| Extractor.ReplaceFirstPass | scrapper/extractor.py:84 | one `replace` pass over `/128/128/` gives `/832/128/`, since the second occurrence shares its slash with the first |
| Extractor.ReplaceSecondPass | scrapper/extractor.py:84 | a pass over `/832/128/` gives `/832/832/` |
| Extractor.TransformImageUrlOverlap | scrapper/extractor.py:83-84 | on `/128/128/` one pass leaves `/832/128/` and the second pass gives `/832/832/` |
| Extractor.ReplaceCommaIsWithoutCommas | scrapper/extractor.py:70 | removing `,` with `replace` drops exactly the commas and keeps the other characters in order |
| Extractor.StripPriceCommasProperties | scrapper/extractor.py:68-70 | empty text gives None; other text gives its characters without commas, in order, with no comma left |
| Fetcher.Next | scrapper/fetcher.py:82-90 | a call returns the stored value (1 for a new name) and stores that value plus one for this name only |
| Fetcher.SequenceStore.GetSequence | scrapper/fetcher.py:82-90 | the method's result and new store are those of `Next` on the old store |
| Fetcher.DrawsCount | scrapper/fetcher.py:82-90 | the i-th of successive calls returns its name's start value plus the number of earlier calls for that name; other names do not matter |
| Fetcher.ConsecutiveDraws | scrapper/fetcher.py:64-90 | successive calls for a new name return 1, 2, 3, … |
| Fetcher.SequenceScenario | scrapper/fetcher.py:82-90 | on a fresh store, calls for one name give 1 then 2, and a different name in between gives 1 |
| Fetcher.SleepInterval | scrapper/fetcher.py:96-97 | `base_time >= 1` gives a pause in `[base_time+1, 2*base_time]`; a smaller base is the empty-range error of `randint` |
| Fetcher.SleepIntervalCovers | scrapper/fetcher.py:96-97 | every value of `[base_time+1, 2*base_time]` is the pause for some draw |

## Left out

- Concurrency: `block_inventory` reads and then writes without atomicity. The model is sequential and claims nothing about racing buyers.
- Floating point in the price calculation: amounts, taxes and totals are exact reals, so rounding is not modelled, and unit prices are integers.
- The catalog and tax service calls inside `_build_sku_tax_map` are one `lookup` parameter. Which of their steps raises, and how, is folded into `LookupFailed`.
- `PriceCalculationFailed` stands for the uncaught `AttributeError`/`ValueError`/`ZeroDivisionError` that reach the HTTP layer; the status code those produce is not modelled.
- MongoDB persistence: queries, pagination, text search and `delete_all_products`. The stores are in-memory maps, and ObjectIds are counters.
- Product and warehouse references of `Inventory`, and the product/warehouse CRUD functions: they carry no guard.
- Request coercion: marshmallow's type conversion, unknown fields and non-list `items`. A request field is modelled as present or missing.
- `fetch_cart`, the order and tax services, the Flask views, `main.py` and the scripts: these are routing, HTTP or thin CRUD.
- The scraper's network and HTML side: `fetch`, `fetch_network`, `extract`, `add_to_catalog`, and the BeautifulSoup walking in `extract`, `_extract_link`, `extract_categories`, `extract_title` and `extract_description`. In `extract_price` only the comma stripping of the found text is modelled.
- `except_exceptions`: a logging decorator.
- The module-level `connect` and the loop over `PLP_URLs` in scrapper/fetcher.py.
- DomainCatalog.ExpiryTime: assumes `arrow`'s `timestamp` is the integer property of arrow before version 1.0. In later versions it is a method, and the comparison in `commit_inventory` would fail.
- DomainCatalog.Catalog.UpdateInventory: the source dereferences a missing lookup result. The model reports this as `NoSuchInventory` instead of an attribute error.
- Fetcher.SequenceStore.GetSequence: a `Sequence` record is modelled as a map entry. The first save and the second save are one update, and the integer is unbounded.
- DomainCart.Cart.AddItems: the source's `if not all_items` guard is unreachable, since the sorted list holds at least the new items, so the model has no branch for it.
