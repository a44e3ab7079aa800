# Storefront cart, order text and category listing, in Dafny

This project models the two pieces of logic in a small Next.js storefront.
The catalog comes from a spreadsheet, and a shopper sends the order as a
pre-filled WhatsApp message.

- **The index page** (`pages/index.tsx`).
  - The cart is a React state cell that starts empty.
  - "Agregar" appends the chosen product with `concat`. A product added twice appears twice.
  - The order text is two `reduce` folds over the cart. The first writes one line `* {title} - {fmt(price)}\n` per entry, in cart order. The second sums the prices, and the text ends with `\nTotal: {fmt(total)}`.
  - The "Completar Pedido (n productos)" button appears only when the cart is non-empty. It shows `cart.length` and links to `https://wa.me/5491131066937?text=` followed by the encoded order text.
- **The grouped listing** (`components/CategoryList.tsx`).
  - For every category, in the order given, it filters the already filtered products down to that category. It also looks up the category's first open/closed state entry.
  - It renders nothing for a category with no products. Otherwise it renders a header `category (count)`, and the product grid only when the state exists and is open.

Files:
- `wrappers.dfy`: the `Option` type.
- `products.dfy`: the `Product` record, plus a subsequence predicate used to state order preservation.
- `storefront.dfy` (module `Storefront`): the cart as a class `Cart` with a `seq<Product>` field and an `Add` method.
  - The two folds are written exactly as `reduce` runs them, with an accumulator: `TotalFrom`, `LinesFold`.
  - Each fold is proved equal to an independent front-to-back reference: `SumPrices`, `LinesFrom`.
  - `OrderText` and `Checkout` are pure functions of the cart contents.
- `category_list.dfy` (module `CategoryList`): the listing as a pure function `Sections`. It returns one `Section(category, count, products, showGrid)` per rendered category.

Design choices:
- Prices are JavaScript numbers. They are modelled as exact `real`s, so the sums are mathematical sums.
- The currency formatter (`toLocaleString('es-Ar', ARS)`) is the parameter `fmt: real -> string` and `encodeURIComponent` is the parameter `encode: string -> string`. Nothing is assumed about either.
- Every "Agregar" adds one product, so there are no per-entry quantities. Each item line ends in `\n`, so with a non-empty cart a blank line comes before `Total: `.

## Model

| member | source | states |
|---|---|---|
| `Storefront.Cart.constructor` | pages/index.tsx:20 | the cart starts empty |
| `Storefront.Cart.Add` | pages/index.tsx:34 | the new cart is exactly the old cart followed by the product: length grows by one, earlier entries are kept in order, and a product already present is not merged |
| `Storefront.TotalEmpty` | pages/index.tsx:24 | the total of an empty cart is 0 |
| `Storefront.TotalFromIsSum` | pages/index.tsx:24 | `TotalFrom`, the `reduce` fold of prices from a starting value, yields that value plus the sum of all prices |
| `Storefront.TotalIsSumOfPrices` | pages/index.tsx:24 | `Total`, the fold started at 0, equals the front-to-back sum of the entry prices |
| `Storefront.TotalAppend` | pages/index.tsx:24 | adding a product raises the total by exactly its price |
| `Storefront.TotalConcat` | pages/index.tsx:24 | the total of a concatenated cart is the sum of the two totals |
| `Storefront.TotalNonNegative` | pages/index.tsx:24 | with non-negative prices the total is non-negative |
| `Storefront.ItemLine` | pages/index.tsx:23 | the line for one entry starts with `* `, then the title, and ends in a newline; its length is the title, the formatted price and six fixed characters |
| `Storefront.LinesFold` | pages/index.tsx:23 | the line fold only appends: its starting message is a prefix of its result |
| `Storefront.LinesFoldIsLinesFrom` | pages/index.tsx:23 | the `reduce` fold of lines from a starting message yields that message followed by every entry's line, in cart order |
| `Storefront.ItemLinesAreLinesFrom` | pages/index.tsx:23 | `ItemLines`, the line fold started at the empty string, is the in-order concatenation of `* title - fmt(price)\n` over the entries |
| `Storefront.ItemLinesConcat` | pages/index.tsx:23 | the line block of a concatenated cart is the concatenation of the two blocks |
| `Storefront.ItemLinesAppend` | pages/index.tsx:23 | adding a product extends the line block by exactly that product's line |
| `Storefront.ItemLineAt` | pages/index.tsx:23 | entry i's line sits between the lines of the entries before it and those after it |
| `Storefront.OrderTextEmpty` | pages/index.tsx:22-24 | the order text of an empty cart is exactly `\nTotal: ` followed by `fmt(0)` |
| `Storefront.OrderTextShape` | pages/index.tsx:22-24 | `OrderText`, the memoised text, is the entry lines in order, then `\nTotal: `, then the formatted sum of the prices |
| `Storefront.OrderTextAfterAdd` | pages/index.tsx:22-24 | after an add, the order text is the old line block, the new product's line, and the total raised by its price |
| `Storefront.Checkout` | pages/index.tsx:40-42 | the link exists iff the cart is non-empty; its count is the cart length; its target is the fixed WhatsApp prefix followed by the encoded order text |
| `Storefront.CheckoutAfterAdd` | pages/index.tsx:40-42 | after any add the link is shown, with count one more than the old length and the new order text encoded in its target |
| `CategoryList.ProductsOf` | components/CategoryList.tsx:16-18 | the filter result is never longer than the filtered products |
| `CategoryList.ProductsOfMembers` | components/CategoryList.tsx:16-18 | a product is in a category's list iff it is among the filtered products and has exactly that category |
| `CategoryList.ProductsOfMultiset` | components/CategoryList.tsx:16-18 | each product of the category is kept as many times as it occurs, and products of other categories are dropped |
| `CategoryList.ProductsOfSubsequence` | components/CategoryList.tsx:16-18 | a category's list keeps the original relative order of the filtered products |
| `CategoryList.ProductsOfConcat` | components/CategoryList.tsx:16-18 | filtering distributes over concatenation |
| `CategoryList.ProductsOfIdempotent` | components/CategoryList.tsx:16-18 | filtering a category's list by the same category again changes nothing |
| `CategoryList.FindState` | components/CategoryList.tsx:20-22 | a found state is an entry of the state list and belongs to the requested category |
| `CategoryList.FindStateFirst` | components/CategoryList.tsx:20-22 | the lookup fails iff no entry has the category, and otherwise returns the first entry that has it |
| `CategoryList.IsOpenIff` | components/CategoryList.tsx:38 | the grid is shown iff the first state entry of the category exists and is open |
| `CategoryList.IsOpen` | components/CategoryList.tsx:38 | the grid of a category can be open only if an open entry for that category is in the state list |
| `CategoryList.MissingStateIsCollapsed` | components/CategoryList.tsx:20-38 | a category with no state entry is shown collapsed |
| `CategoryList.FindStateOnlyOwnEntries` | components/CategoryList.tsx:20-22 | the lookup depends only on the state entries of that category |
| `CategoryList.SectionIndependence` | components/CategoryList.tsx:15-56 | changing state entries of other categories leaves a category's section unchanged |
| `CategoryList.SectionForPresence` | components/CategoryList.tsx:16-56 | `SectionFor`: a category yields a section iff some filtered product has it; the section then holds exactly that category's filtered products, all of that category, shows their number and shows its grid iff the category is open |
| `CategoryList.Head` | components/CategoryList.tsx:24-56 | a category contributes at most one element to the rendering, and that element is its own section with a positive count |
| `CategoryList.Sections` | components/CategoryList.tsx:15-57 | at most one section per entry of the category list (`|r| <= |categories|`) |
| `CategoryList.SectionsWellFormed` | components/CategoryList.tsx:15-53 | every section belongs to a listed category, holds exactly that category's filtered products, shows a positive count equal to their number, and shows its grid iff the category is open |
| `CategoryList.SectionPresence` | components/CategoryList.tsx:24-56 | a category has a section iff it is listed and has at least one filtered product |
| `CategoryList.SectionsConcat` | components/CategoryList.tsx:15-57 | rendering a concatenation of category lists gives the concatenation of their renderings |
| `CategoryList.SectionsOrder` | components/CategoryList.tsx:15-57 | a category with products gets its section between the sections of the categories listed before and after it |
| `CategoryList.SectionCategoriesInOrder` | components/CategoryList.tsx:15 | the section categories are a subsequence of the category list, in its order |
| `CategoryList.SectionCategoriesDistinct` | components/CategoryList.tsx:15-18 | with no repeated category, no two sections share a category |
| `CategoryList.SectionsDisjoint` | components/CategoryList.tsx:16-18 | with no repeated category, each product is listed in at most one section |
| `CategoryList.SumCountsIsProductsIn` | components/CategoryList.tsx:16-29 | with no repeated category, the header counts add up to the number of filtered products whose category is listed |
| `CategoryList.CountsBound` | components/CategoryList.tsx:16-29 | with no repeated category, the header counts add up to at most the number of filtered products, and exactly that number when every filtered product's category is listed |

## Left out

- The output format of the currency formatter `parseCurrency` (`toLocaleString`): it is locale-library code, so it is the uninterpreted parameter `fmt`.
- `encodeURIComponent`: foreign code, so it is the uninterpreted parameter `encode`.
- Floating-point arithmetic: prices are exact reals. The rounding of JavaScript's `+` and the `NaN` that `Number()` gives for a malformed price are not modelled.
- Storefront.Checkout: the button label is the count as a number. Its decimal rendering inside "Completar Pedido (n productos)" is not modelled, because it is presentation.
- Markup and styling (Chakra UI layout, product cards, icons) are presentation and carry no logic.
- The catalog loader `components/product/api.ts` is left out: an HTTP fetch, CSV parsing by a library and `Number()` coercion. The product list is an input.
- `getStaticProps` (`pages/index.tsx:48-56`) is left out: asynchronous build-time loading.
- The category toggle (`handleToggleProducts`) and the drawer opener (`handleOpenProductDrawer`) are props that the listing only calls. Neither handler is modelled, and the open/closed states are an input.
- Search filtering is not modelled: the listing receives `filteredProducts` already filtered.
- `components/CartSticky.tsx` (a variant checkout button with a `QuimicaGr-Pedido:` prefix) is not part of this model.
- Drawer quantity selection is not part of this model.
