# Product listing view — a Dafny model

This project models the in-memory logic of the product listing page
(`src/app/page.tsx`): a table of products, each with its owning user, that
the page searches and paginates on the client.

- **Search filter** (`Catalog`): a product is kept when the search term,
  lower-cased, occurs in the lower-cased product name, in the lower-cased
  owner name (the two dotted paths `"name"` and `"user.name"`, here the two
  accessors of `SearchField`), in the decimal text of the price or in the
  decimal text of the id. The string operations it needs (ASCII
  `toLowerCase`, `String.prototype.includes`, `Number.prototype.toString`
  for whole numbers) are in `Text`.
- **Pages** (`Paging`): the fixed page size 10, `totalPages =
  Math.ceil(n / 10)`, the current page cut out with `Array.prototype.slice`
  (with its clamping and negative-bound rules), the price total of the
  current page (a `reduce` from 0) and the "Showing X to Y of N entries"
  bounds.
- **Page picker** (`PageRange`): `generatePaginationRange`, written as the
  imperative method the source has (a `push` per label, two `for` loops),
  proved equal to a declarative description: every page when there are at
  most seven, otherwise page 1, a window of three interior pages around the
  current page, the last page, and a "..." for each side where pages are
  skipped.
- **View state** (`Listing.ListingView`): the React state `products`,
  `searchTerm`, `filteredProducts` and `currentPage` as a class. Its
  invariant `Valid()` says that the filtered list is the filter of the
  products by the term and that the current page lies in
  `1..max(1, totalPages)`. `SetProducts` and `SetSearchTerm` perform the
  state update together with the filter effect it triggers, so the filter is
  recomputed and the page goes back to 1; `HandlePageChange` moves only to
  an existing page.

Prices are whole numbers (`nat`) and ids are integers (`int`); their text is
their shortest decimal form, with a leading `-` for a negative id.

## Model

| member | source | states |
|---|---|---|
| Text.LowerChar | src/app/page.tsx:101 | lower-casing one character never yields an upper-case ASCII letter; A-Z go to a-z by the fixed offset, everything else is unchanged |
| Text.ToLower | src/app/page.tsx:101 | `toLowerCase` keeps the length, maps each character by `LowerChar` and leaves no upper-case ASCII letter |
| Text.ToLowerIdempotent | src/app/page.tsx:110 | lower-casing already lower-cased text changes nothing |
| Text.ToLowerFixesLowerText | src/app/page.tsx:112-113 | text without upper-case letters is its own lower-case form |
| Text.Includes | src/app/page.tsx:110-113 | `includes` holds for the empty needle and never for a needle longer than the text; `IncludesIffOccurs` gives its exact meaning |
| Text.IncludesIffOccurs | src/app/page.tsx:110-113 | `includes` is true exactly when the needle occurs at some index of the text; the empty needle occurs in every text |
| Text.NatToString | src/app/page.tsx:112 | a price's decimal text is non-empty, all digits, and has no leading zero unless the price is 0 |
| Text.IntToString | src/app/page.tsx:113 | an id's text starts with `-` exactly when the id is negative, is otherwise all digits with no leading zero (unless the id is 0), and has no upper-case letters |
| Text.ParseNatToString | src/app/page.tsx:112 | reading a price's decimal text back gives the price (the text determines the number) |
| Text.ParseIntToString | src/app/page.tsx:113 | reading an id's text back (an optional `-`, then digits) gives the id, so the text determines the id |
| Text.DecimalTextIsLowerCase | src/app/page.tsx:112-113 | lower-casing the decimal text of a price or id changes nothing, so comparing it unlowered with the lower-cased term still ignores case |
| Catalog.FieldValue | src/app/page.tsx:105-108 | looking up the path "name" gives the product's name and the path "user.name" its owner's name |
| Catalog.SomeFieldMatches | src/app/page.tsx:104-111 | `some` over no fields is false, and with the empty term it holds for any non-empty list of fields; `SomeFieldMatchesIffSome` gives its exact meaning |
| Catalog.SomeFieldMatchesIffSome | src/app/page.tsx:104-111 | `some` holds exactly when the lower-cased value of one of the listed fields includes the term |
| Catalog.Matches | src/app/page.tsx:103-114 | every product matches the empty term; `MatchesIffSomeTextContains` states exactly when a product matches |
| Catalog.MatchesIffSomeTextContains | src/app/page.tsx:100-114 | a product matches exactly when the lower-cased term occurs in one of its four lower-cased texts: name, owner name, price, id |
| Catalog.FilterLower | src/app/page.tsx:103-115 | the filtered list is no longer than the product list; every kept product is a product that matches, and every product that matches is kept |
| Catalog.Filter | src/app/page.tsx:101-115 | a product is in the result exactly when it is in the product list and matches the lower-cased term |
| Catalog.FilterIsSubsequence | src/app/page.tsx:103-115 | the filtered list is an order-preserving subsequence of the product list |
| Catalog.FilterConcat | src/app/page.tsx:103-115 | filtering a concatenation is concatenating the filtered parts |
| Catalog.FilterCounts | src/app/page.tsx:103-115 | a matching product keeps its number of occurrences and a non-matching one has none |
| Catalog.FilterEmptyTerm | src/app/page.tsx:101-115 | an empty search term keeps every product, in order: the filtered list equals the product list |
| Catalog.FilterLowerIdempotent | src/app/page.tsx:103-115 | filtering the filtered list with the same lower-cased term changes nothing |
| Catalog.FilterIdempotent | src/app/page.tsx:101-115 | filtering the filtered list with the same search term changes nothing |
| Catalog.FilterIgnoresTermCase | src/app/page.tsx:101 | a term and its lower-case form filter alike |
| Catalog.OwnerSearchExample | src/app/page.tsx:103-115 | of Widget (owner Alice, 100) and Gadget (owner Bob, 250) the term "ali" keeps only Widget |
| Paging.TotalPages | src/app/page.tsx:130 | the page count is the ceiling of n / 10: enough pages for n items, one fewer is not, and 0 exactly when there are no items |
| Paging.SliceBound | src/app/page.tsx:126-129 | a `slice` bound in 0..len is used as it is, a bound past the length becomes the length, and a negative one counts back from the end, stopping at 0 |
| Paging.Slice | src/app/page.tsx:126-129 | `slice` gives the elements from the start bound up to (not including) the end bound, none when the end is not past the start; with bounds in range it is the plain subsequence |
| Paging.CurrentItems | src/app/page.tsx:124-129 | with `FirstIndex(p) = (p-1)*10` and `LastIndex(p) = p*10` (`indexOfFirstItem`, `indexOfLastItem`) as the `slice` bounds, the current page holds at most 10 items; from page 1 on it holds min(10, n - (p-1)*10) items (none past the end), the k-th being item (p-1)*10 + k of the filtered list |
| Paging.PagesUpToIsPrefix | src/app/page.tsx:124-129 | pages 1 to k concatenated are the first min(10k, n) filtered items |
| Paging.PagesReassemble | src/app/page.tsx:124-130 | concatenating pages 1 to totalPages in order reproduces the filtered list exactly |
| Paging.PageNonEmptyIff | src/app/page.tsx:124-130 | a page from 1 on has items exactly when it is at most totalPages |
| Paging.PriceSum | src/app/page.tsx:180-183 | the `reduce` is at least its start value plus any one price, and is the start value for no items |
| Paging.TotalPrice | src/app/page.tsx:180-183 | the total is 0 for no items, at least each item's price, and the price itself for one item; `TotalPriceConcat` and `PageTotalsSum` relate it to the whole list |
| Paging.PriceSumFrom | src/app/page.tsx:180-183 | the `reduce` from a start value is that value plus the total from 0 |
| Paging.TotalPriceConcat | src/app/page.tsx:180-183 | the total of two lists in sequence is the sum of their totals |
| Paging.PageTotalsArePrefixTotal | src/app/page.tsx:180-183 | the per-page totals of pages 1 to k add up to the total of those pages' items |
| Paging.PageTotalsSum | src/app/page.tsx:180-183 | the per-page totals of all pages add up to the total of the whole filtered list, so each page total covers its own items only |
| Paging.PageTotalAtMostAll | src/app/page.tsx:180-183 | the current page's total never exceeds the total of the filtered list |
| Paging.ShowingFrom | src/app/page.tsx:338 | the "Showing" bound is 0 for an empty list and otherwise one past `indexOfFirstItem` (`FirstIndex(p) = (p-1)*10`, line 125), so at least 1 from page 1 on |
| Paging.ShowingTo | src/app/page.tsx:339 | the "to" bound never exceeds the number of filtered items |
| Paging.ShowingDescribesPage | src/app/page.tsx:338-340 | on a valid page, "Showing X to Y" is 0 to 0 for an empty list and otherwise the 1-based positions of the page's first and last item, Y - X + 1 being the page's item count |
| Paging.TwentyFiveItemsExample | src/app/page.tsx:124-130 | 25 items give 3 pages; page 3 is items 21 to 25 and shows "21 to 25" |
| PageRange.Nums | src/app/page.tsx:144-146 | the run of page labels from a to b has b - a + 1 entries (none if a > b), the k-th being page a + k |
| PageRange.WindowStart | src/app/page.tsx:153-162 | with more than seven pages the three-page window is centred on the current page (it starts one before it) and clamped: pages 2-4 while the current page is at most 3, the last three interior pages once it is within two of the end; it always lies strictly between page 1 and the last page and holds an interior current page |
| PageRange.PaginationRange | src/app/page.tsx:139-178 | the range is empty exactly when there are no pages, and otherwise starts with page 1 and ends with the last page |
| PageRange.SourceWindowIsWindow | src/app/page.tsx:150-168 | the source's start and end, after their corrections, are the three pages starting at `WindowStart`, and its two "..." tests agree with the window's position |
| PageRange.GeneratePaginationRange | src/app/page.tsx:139-178 | the labels pushed by the generator are exactly the declarative picker range, for every page count and current page |
| PageRange.SmallRangeListsEveryPage | src/app/page.tsx:141-146 | with at most seven pages the range is exactly 1, 2, ..., totalPages (empty for no pages) |
| PageRange.RangeAtMostSeven | src/app/page.tsx:139-178 | the range never has more than seven labels |
| PageRange.LargeRangeShape | src/app/page.tsx:147-175 | with more than seven pages and a valid current page, the range starts with 1 and ends with totalPages, a leading "..." appears exactly when the page is past 3 and a trailing one exactly when it is before totalPages - 2, and no other label is "...", so three interior pages are shown |
| PageRange.RangeNumbersValid | src/app/page.tsx:139-178 | for a valid current page, the range's numbers rise strictly, lie in 1..totalPages and include the current page; adjacent numbers are consecutive and each "..." sits between two numbers with a page skipped |
| PageRange.TenPagesOnFirstExample | src/app/page.tsx:147-175 | ten pages, on page 1, give 1, 2, 3, 4, "...", 10 |
| Listing.ListingView.PageCount | src/app/page.tsx:130 | the page count is 0 exactly for an empty filtered list and is the fewest pages of 10 that hold it |
| Listing.ListingView.Items | src/app/page.tsx:124-129 | the current page holds at most 10 filtered products, and in a valid state it is non-empty whenever the filtered list is |
| Listing.ListingView.constructor | src/app/page.tsx:73-79 | the initial state has no products, an empty term, an empty filtered list and page 1, and satisfies the invariant |
| Listing.ListingView.SetProducts | src/app/page.tsx:83-97 | loading products stores them, recomputes the filtered list with the current term and goes back to page 1, keeping the invariant |
| Listing.ListingView.SetSearchTerm | src/app/page.tsx:99-119 | changing the term keeps the products, recomputes the filtered list and goes back to page 1, keeping the invariant |
| Listing.ListingView.ApplyFilter | src/app/page.tsx:99-119 | the filter effect sets the filtered list to the filter of the products by the term and the page to 1 |
| Listing.ListingView.HandlePageChange | src/app/page.tsx:132-136 | the page becomes k exactly when 1 <= k <= totalPages; otherwise (k = 0, k = totalPages + 1, ...) nothing changes |
| Listing.ListingView.PaginationLabels | src/app/page.tsx:184 | the picker for the current state has at most seven labels, each a page the view accepts, and shows the current page whenever there are pages |

## Left out

- `src/app/api/users/route.ts`: a pass-through to a database query whose behaviour lives in the ORM and the database, which are not part of this model.
- `getProducts` and the mount-time fetch (`src/app/page.tsx:64-97`): the network request, the loading flag and the error message are not modelled; the loaded list is the argument of `SetProducts`.
- Listing.ListingView.SetProducts: the fetch stores the list in both `products` and `filteredProducts` and the filter effect then recomputes `filteredProducts`; the model performs both steps in one call, so the render in between (with an unfiltered list) is not modelled. The same holds for `SetSearchTerm` and the render before its effect runs.
- The `searchUsers` and `users` state (`src/app/page.tsx:80-81`) is declared but never used by the page.
- All JSX rendering, the "Create Data" dialog (which submits nothing) and the `toLocaleString` currency formatting of prices and totals.
- Floating-point prices and ids: prices are whole numbers and ids integers, so `toString` is plain decimal text (no fractions, exponents, `NaN` or `Infinity`).
- Unicode `toLowerCase`: lower-casing maps only the ASCII letters A-Z.
- Missing fields: the optional chaining in the dotted-path lookup (`obj?.[key]`, `value?.toString()`) guards against absent names or users; every product in this model has both.
