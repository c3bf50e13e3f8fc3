# Visual Product Matcher, modelled in Dafny

Visual Product Matcher is a single-page web application. A shopper gives it
a picture of a product, and it shows the products of a fixed fifty-item
catalog that a hosted vision model judges similar. This project models the
logic around the model calls:

- `catalog.dfy` (`Catalog`) holds the static catalog, with its fifty
  records in five categories of ten.
- `visual_search.dfy` (`VisualSearch`) models the visual-mode search
  service. It:
  - asks the model for a category, meaning to narrow the candidate pool
    to it; as written the lookup never succeeds on the shipped catalog, so
    the pool is always the whole catalog (see "## Findings"), and a
    corrected search is modelled beside the as-written one;
  - takes at most twelve candidates from a shuffle of the pool;
  - drops the candidates whose image could not be fetched;
  - builds the interleaved request (user image, caption, instructions,
    then an image and an id label per candidate);
  - reads the answer back, trimmed and parsed, and sorts it in place by
    descending score.
- `results_display.dfy` (`ResultsDisplay`) models the results view. It
  joins the returned ids to the catalog and drops orphans, that is,
  results whose id matches no product. It then applies the similarity
  slider (50..100, starting at 50) and renders the `Found N similar
  product(s).` label, the slider and the `No Matches Found` panel.
- `product_card.dfy` (`ProductCard`) models a product card: its score
  badge and the badge's colour band.
- `app.dfy` (`App`) models the page state (`userImage`, `searchResults`,
  `isLoading`, `error`). It is a class whose `handleSearch` and
  `handleReset` transitions keep an invariant, together with what the
  page renders in each state.
- `direct_search.dfy` (`DirectSearch`) models the direct-mode variant of
  the service. The catalog, reduced to its text fields, is inlined into
  one request. The reply's `matches` list is returned unchanged, and
  every error is rethrown.
- `types.dfy`, `text.dfy` and `seqs.dfy` hold the record shapes, the
  JavaScript string operations the code uses and the sequence facts used
  throughout:
  - the string operations are `trim`, ASCII `toLowerCase` and integer
    rendering in template literals;
  - the sequence facts cover `filter` and subsequences.

The hosted model, `fetch`, `FileReader`, `JSON.parse` and the random
shuffle are not modelled. Their outcomes enter as parameters:

- a `Result<Option<string>>` for a model call that may throw or may
  return no text;
- a function from strings to parse outcomes for `JSON.parse`;
- a function from URLs to encoded images for the image fetch;
- for the shuffle, any function from sequences to sequences; the lemmas
  about the selection state what follows when it returns a permutation of
  its argument.

Ids are `NumId(int) | StrId(string)`, so the join's strict equality is
faithful: the catalog writes string ids while the visual response schema
declares numeric ones. Prices are integer cents (`89.99` is `8999`).
Similarity scores are integers. The source's array literal is written as
five ten-entry constants concatenated in the same order.

Where the system's specification and the code disagree, the model follows
the code:

- the search uses the categoriser as written, whose lookup never succeeds;
- the code does not clamp or validate scores;
- it does not re-sort after the join;
- it does not deduplicate malformed entries;
- it does not cancel a superseded search.

## Model

| member | source | states |
|---|---|---|
| Catalog.CatalogSize | data/products.ts:3-66 | the catalog holds fifty products |
| Catalog.IdsInOrder | data/products.ts:5-65 | the product at position i has id `p<i+1>` |
| Catalog.IdsAreStrings | data/products.ts:5-65 | every catalog id is a string id |
| Catalog.IdsDistinct | data/products.ts:5-65 | no two catalog entries share an id |
| Catalog.ProductsDistinct | data/products.ts:5-65 | no product occurs twice |
| Catalog.BlockCategories | data/products.ts:4-65 | each of the five groups of ten holds a single category: Footwear, Clothing, Accessories, Home, Electronics |
| Catalog.CategoriesInBlocks | data/products.ts:4-65 | product i has the (i / 10)-th category name |
| Catalog.CategoryNamesDistinct | data/products.ts:4-55 | the five category names are pairwise distinct |
| Catalog.CategoryContiguous | data/products.ts:4-65 | a product has the k-th category exactly when its position is in 10k..10k+9 |
| Catalog.CategoryNamesLowerDistinct | data/products.ts:4-55 | the category names stay pairwise distinct once lower-cased |
| Catalog.PricesPositive | data/products.ts:5-65 | every price is strictly positive |
| Catalog.CategoryNamesCapitalised | data/products.ts:4-65 | every category name starts with an upper-case letter, so it differs from its own lower-case form |
| Text.LeadingSpaces | services/geminiService.ts:69 | the counted prefix is all whitespace, and the character after it is not whitespace |
| Text.TrailingSpaces | services/geminiService.ts:158 | the counted suffix is all whitespace, and the character before it is not whitespace |
| Text.TrimSlice | services/geminiService.ts:69 | `trim` keeps a contiguous middle of its input and drops only whitespace around it; the result neither starts nor ends with whitespace |
| Text.TrimEmptyIff | services/geminiService.ts:158-161 | the trimmed text is empty exactly when the input is all whitespace |
| Text.TrimUnpadded | services/geminiService.ts:69 | a string that neither starts nor ends with whitespace is its own trim |
| Text.TrimIdempotent | services/geminiService.ts:69 | trimming twice is trimming once |
| Text.ToLower | services/geminiService.ts:69 | `toLowerCase` keeps the length, maps `A`-`Z` to `a`-`z` and leaves every other character as it is |
| Text.ToLowerHasNoUpper | services/geminiService.ts:69 | no upper-case ASCII letter survives lower-casing, and lower-casing is idempotent |
| Text.NatToString | components/ResultsDisplay.tsx:31 | the decimal rendering is non-empty, all digits, with no leading zero |
| Text.ParseNatToString | components/ResultsDisplay.tsx:31 | supports the label's specification: reading a rendered count back gives the count |
| Text.NatToStringInjective | services/geminiService.ts:136 | distinct numbers render differently |
| Text.IntToString | components/ProductCard.tsx:22 | a rendered integer starts with `-` exactly when it is negative |
| Text.ParseIntToString | components/ProductCard.tsx:22 | supports the badge's specification: reading a rendered integer back gives the integer |
| Seqs.Filter | components/ResultsDisplay.tsx:22-23 | `filter` keeps only the elements satisfying the predicate and keeps each one that does; it is never longer than its input |
| Seqs.FilterIsSubsequence | services/geminiService.ts:112 | what `filter` keeps is a subsequence of its input: the order is kept |
| Seqs.FilterAppend | services/geminiService.ts:90 | filtering a concatenation is concatenating the filtered parts |
| Seqs.FilterNoDuplicates | services/geminiService.ts:90 | filtering a duplicate-free list keeps it duplicate-free |
| Seqs.FilterAllOrNone | services/geminiService.ts:90 | a predicate true of every element keeps the list; one true of none empties it |
| Seqs.SubsequenceBounds | components/ResultsDisplay.tsx:17-23 | a subsequence is never longer and holds only elements of the original |
| Seqs.SubsequenceTransitive | components/ResultsDisplay.tsx:17-23 | a subsequence of a subsequence is a subsequence |
| Seqs.NoDuplicatesMultiset | services/geminiService.ts:101 | a list is duplicate-free exactly when its multiset counts every element once |
| VisualSearch.CategoriesOf | services/geminiService.ts:54 | `products.map(p => p.category)`: one category per product, in order |
| VisualSearch.DedupAfterSpec | services/geminiService.ts:54 | extending a deduplication keeps what was seen as a prefix, adds each new value once and adds new values in order of first occurrence |
| VisualSearch.UniqueCategoriesSpec | services/geminiService.ts:54 | `[...new Set(categories)]` holds every catalog category exactly once and nothing else, in order of first occurrence |
| VisualSearch.CatalogUniqueCategories | services/geminiService.ts:54 | for the shipped catalog the unique categories are Footwear, Clothing, Accessories, Home, Electronics |
| VisualSearch.CategorizeImage | services/geminiService.ts:51-78 | as written: a category is returned exactly when the trimmed, lower-cased answer is non-empty and among the unique categories, and it is that answer; a thrown call or a missing text yields null |
| VisualSearch.CategorizeImageNeverMatches | services/geminiService.ts:69-72 | with the shipped catalog the as-written categoriser returns null for every answer |
| VisualSearch.CategorizeImageFootwearExample | services/geminiService.ts:69-72 | the answer `Footwear` is rejected as written and recognised by the corrected lookup |
| VisualSearch.FirstCaseInsensitive | services/geminiService.ts:70 | the position found is the first whose lower-case form is the key, or the end when there is none |
| VisualSearch.CategorizeImageCaseInsensitive | services/geminiService.ts:69-73 | corrected: a returned category is a catalog category equal to the answer up to case and surrounding whitespace; null means no answer, an empty answer or no such category |
| VisualSearch.CorrectedRecognisesCatalogNames | services/geminiService.ts:69-73 | an answer that trims to any category name, in any letter case, yields that category as the catalog spells it |
| VisualSearch.InCategory | services/geminiService.ts:90 | the filtered products are exactly the catalog's products of that category |
| VisualSearch.CandidatePool | services/geminiService.ts:87-98 | with a category that has products, the pool is exactly that category's products; otherwise the pool is the whole catalog; a non-empty catalog gives a non-empty pool |
| VisualSearch.CandidatePoolInCatalogOrder | services/geminiService.ts:87-98 | the pool keeps catalog order |
| VisualSearch.AsWrittenPoolIsWholeCatalog | services/geminiService.ts:85-98 | with the as-written categoriser the pool is always the whole shipped catalog |
| VisualSearch.CatalogInCategory | services/geminiService.ts:90 | filtering the shipped catalog by any string keeps exactly the group of ten with that category, or nothing |
| VisualSearch.CatalogCategoryPools | services/geminiService.ts:90-92 | each category's pool is its ten-product group |
| VisualSearch.CorrectedPoolForCategory | services/geminiService.ts:85-92 | with the corrected categoriser, an answer naming a category narrows the pool to that category's ten products |
| VisualSearch.TakeCandidates | services/geminiService.ts:102 | `slice(0, 12)` takes the first min(n, 12) products, each the shuffled product at its position |
| VisualSearch.CandidatePoolDistinct | services/geminiService.ts:87-98 | a duplicate-free catalog gives a duplicate-free pool |
| VisualSearch.ShippedSelectionDistinct | services/geminiService.ts:87-102 | with the shipped catalog a selection from a permutation of the pool repeats no product and holds only catalog products |
| VisualSearch.AsWrittenSelectsTwelve | services/geminiService.ts:85-102 | as written, a selection from a permutation of the pool is always exactly twelve products |
| VisualSearch.SelectionFromPermutation | services/geminiService.ts:101-102 | from any permutation of the pool, the selection has at most twelve members, all from the pool; a duplicate-free pool gives distinct members, and a pool of twelve or fewer is taken whole |
| VisualSearch.ProductImagesData | services/geminiService.ts:105-110 | one fetched image per selected product, in order, tagged with that product's id |
| VisualSearch.ValidProductImages | services/geminiService.ts:112 | exactly the fetched images with non-empty data are kept, each from some selected product |
| VisualSearch.ValidImagesInOrder | services/geminiService.ts:112 | the kept images keep selection order |
| VisualSearch.BuildParts | services/geminiService.ts:128-137 | the request is the user image, its caption and the instructions, then for each valid candidate its image followed by `Product ID: <id>`, in order |
| VisualSearch.StringIdLabelsDistinct | services/geminiService.ts:136 | distinct string ids give distinct labels |
| VisualSearch.SortByScore | services/geminiService.ts:166 | the array ends sorted by non-increasing score and is a permutation of its old contents |
| VisualSearch.HandleResponse | services/geminiService.ts:158-170 | missing or blank text gives an empty list; unparsable text throws `Could not understand the model's response.`; otherwise the result is the parsed list, sorted by non-increasing score, as a permutation |
| VisualSearch.CompareAgainstPool | services/geminiService.ts:100-171 | for a given pool, no request is made, and the result is empty, exactly when no candidate image could be fetched; otherwise the request is laid out for exactly the fetched candidates among the first twelve of the shuffle (5 to 27 parts), a failing model call propagates its error, and a reply is handled as `HandleResponse` states; a successful result is sorted by score |
| VisualSearch.FindSimilarProducts | services/geminiService.ts:81-171 | as written: the comparison of `CompareAgainstPool` against the pool chosen from the as-written categoriser's answer |
| VisualSearch.FindSimilarProductsCorrected | services/geminiService.ts:81-171 | the same comparison against the pool chosen from the corrected categoriser's answer |
| VisualSearch.SearchPoolsOnShippedCatalog | services/geminiService.ts:85-98 | for an answer naming a category in any case, the as-written search compares against the whole shipped catalog and the corrected one against that category's ten products, so the two differ |
| ResultsDisplay.FindIndex | components/ResultsDisplay.tsx:19 | `find` returns the first product with a strictly equal id, or none when no product has it |
| ResultsDisplay.NumericIdNeverJoinsCatalog | components/ResultsDisplay.tsx:19 | a numeric id never finds a product of the shipped catalog |
| ResultsDisplay.CatalogIdFindsItsProduct | components/ResultsDisplay.tsx:19 | every catalog id finds its own product |
| ResultsDisplay.JoinAppend | components/ResultsDisplay.tsx:17-22 | the join of concatenated results is the concatenation of the joins |
| ResultsDisplay.JoinFaithful | components/ResultsDisplay.tsx:17-22 | each joined entry is the first catalog product with the result's id, carrying the result's score, and the entries are a subsequence of the results |
| ResultsDisplay.OrphanDropped | components/ResultsDisplay.tsx:18-22 | removing a result whose id has no product leaves the displayed list unchanged |
| ResultsDisplay.MatchedProductsSpec | components/ResultsDisplay.tsx:16-24 | every displayed entry scores at least the slider value and is the catalog's product for its id; the entries come, in order, from exactly the results that have a product and score at least the slider value |
| ResultsDisplay.OriginsOfMatched | components/ResultsDisplay.tsx:16-24 | the results behind the displayed entries are exactly the results with a catalog product scoring at least the slider value, in order |
| ResultsDisplay.InitialView | components/ResultsDisplay.tsx:14-24 | the slider starts at 50, a legal slider value, and the first view shows exactly the results with a product scoring at least 50 |
| ResultsDisplay.FoundResultsAreShown | components/ResultsDisplay.tsx:16-24 | when every result has a product, the view shows exactly the results at or above the slider, in order |
| ResultsDisplay.NamedResultsAreShown | components/ResultsDisplay.tsx:16-24 | when every result carries the id of a catalog product, the view shows exactly the results at or above the slider, in order |
| ResultsDisplay.SliderKeepsScoresAtLeastFifty | components/ResultsDisplay.tsx:47-53 | at any slider value every displayed score is at least 50 |
| ResultsDisplay.RaisingThresholdShowsSubsequence | components/ResultsDisplay.tsx:23 | raising the slider shows a subsequence of what was shown before |
| ResultsDisplay.NumericResultsShowNothing | components/ResultsDisplay.tsx:19 | results with numeric ids never display anything against the shipped catalog |
| ResultsDisplay.FiveResultScenario | components/ResultsDisplay.tsx:16-24 | at slider 70, results scored 95, 80, 60, 40, 72 show the three scored 95, 80 and 72, in order |
| ResultsDisplay.ThresholdScenario | components/ResultsDisplay.tsx:16-24 | the same five-result scenario on the shipped catalog with ids p1..p5 |
| ResultsDisplay.DigitRun | components/ResultsDisplay.tsx:31 | supports the label's specification: the counted prefix is all digits and is followed by a non-digit |
| ResultsDisplay.CountLabelSpec | components/ResultsDisplay.tsx:31 | the label states the count it was made from and ends in `s.` exactly when the count is not one |
| ResultsDisplay.NoMatchesIff | components/ResultsDisplay.tsx:59-70 | `No Matches Found` appears exactly when every result is an orphan or below the slider, and always when there are no results (the slider is hidden then) |
| ProductCard.ScoreColorOf | components/ProductCard.tsx:10 | green exactly above 85, yellow exactly within (70, 85] and orange exactly at 70 or below |
| ProductCard.ScoreColorMonotone | components/ProductCard.tsx:10 | a higher score never gets a lower colour band |
| ProductCard.BadgeTextSpec | components/ProductCard.tsx:22 | the badge ends in `% Match` and the text before it reads back as the score |
| App.SearchSession.constructor | App.tsx:11-14 | the page starts with no image, no results, no error and no search running, showing the uploader only |
| App.SearchSession.BeginSearch | App.tsx:17-20 | a search starts loading, clears the error and the results, shows the image and keeps the invariant; the loader shows and the uploader is disabled |
| App.SearchSession.SettleSearch | App.tsx:22-30 | success stores the results, failure stores the fixed message, loading ends either way; afterwards the banner shows exactly on failure and the results view exactly on success with an image |
| App.SearchSession.HandleSearch | App.tsx:16-31 | runs the as-written search and stores its outcome: the results exactly on success and the fixed message exactly on failure; the image is set, loading is off, the invariant holds, the banner shows exactly on failure and the results view exactly on success with an image |
| App.SearchSession.HandleReset | App.tsx:33-38 | reset returns to the initial state, showing only the uploader |
| DirectSearch.ProductContexts | geminiService.ts:13-19 | one entry per product, in order, with its id, name, category, description and price |
| DirectSearch.ProductContextsLoseOnlyImages | geminiService.ts:13-19 | re-attaching the image references to the entries restores the catalog |
| DirectSearch.SameContextsSameProductsUpToImages | geminiService.ts:13-19 | two catalogs with the same entries differ at most in their image references |
| DirectSearch.HandleDirectResponse | geminiService.ts:78-89 | a thrown call is rethrown; missing or empty text throws `Empty response from Gemini`; a parse error is rethrown and a `null` reply throws; the result succeeds exactly when a non-empty text parses to a non-null value, and is then the value's `matches` list unchanged, or empty when it is falsy |
| DirectSearch.WhitespaceReplyIsParsed | geminiService.ts:78-84 | a whitespace-only reply is not treated as empty and goes to `JSON.parse` |

## Left out

- The hosted model is not modelled: the prompt wording, the model names, the response schemas and the answers. The answers arrive as parameters; the instructions part of the visual request is the constant `MatchingInstructions`.
- The `API_KEY` check at module load is left out, because it is configuration.
- `urlToImageData` is not modelled: the CORS proxy, `fetch`, `FileReader` and the data-URL split. It is a parameter returning encoded data, with empty strings for a failed fetch. A `FileReader` rejection, which the code lets escape, is not modelled.
- `Promise.all`, asynchrony and React's batching of state updates are not modelled. Fetches are taken in selection order, and the state updates of a handler are applied at once.
- The shuffle's distribution is not modelled, because `Math.random` is a source of randomness. The shuffle is any permutation.
- Prices and scores are integers. JavaScript numbers are floats; prices are modelled in cents, and `Math.round` on an integer score is the identity.
- Text.ToLower: lowers ASCII letters only, not the rest of Unicode.
- Text.IntToString: renders every integer in plain decimal, without JavaScript's exponent form for very large magnitudes.
- VisualSearch.SortByScore: does not state that the sort is stable, which `Array.prototype.sort` guarantees. Neither this method nor the model states the result's order among equal scores.
- VisualSearch.HandleResponse: the parse outcome stands for both `JSON.parse` and the array check behind `.sort`. An element without a numeric score, which JavaScript would sort as `NaN`, is not modelled.
- DirectSearch.HandleDirectResponse: a truthy `matches` that is not a list is not modelled. The `TypeError` message for a `null` reply depends on the engine; its text is a constant here.
- Console logging (`console.log`, `console.warn`, `console.error`) is not modelled, because it has no effect on the results.
- VisualSearch.FindSimilarProducts: the shuffle `sort(() => 0.5 - Math.random())` is any function; what follows when it is a permutation is stated by the selection lemmas rather than by the method.
- The rest of the interface is not modelled: layout, styling, the header, the loader, the uploader (drag and drop, URL entry), the filter bar and the user-image preview.
- A second search while one is still in flight is not modelled. The page disables the uploader while loading, and the model states that, but it does not model cancellation.

## Findings

| source | as written | input that shows it | evidently intended | confidence | as-written member | corrected member |
|---|---|---|---|---|---|---|
| services/geminiService.ts:69-72 | the model's answer is trimmed and lower-cased, then looked up among the category names as the catalog spells them (capitalised), so the lookup never succeeds and the pool is never narrowed | the model answers `Footwear`; `footwear` is not among `Footwear, Clothing, Accessories, Home, Electronics`, so the result is null | compare case-insensitively and return the category as the catalog spells it, so that the pool is narrowed to that category | not executed | VisualSearch.CategorizeImage (VisualSearch.CategorizeImageNeverMatches, VisualSearch.CategorizeImageFootwearExample) | VisualSearch.CategorizeImageCaseInsensitive (VisualSearch.CorrectedRecognisesCatalogNames, VisualSearch.CorrectedPoolForCategory, VisualSearch.FindSimilarProductsCorrected) |
| services/geminiService.ts:147-151 | the visual response schema declares the result `id` as a number, while the catalog's ids are strings and the results view joins them with strict equality, so a reply that follows the schema displays nothing | the model answers `[{"id": 1, "similarityScore": 90}]`; `1 === "p1"` is false, so the result is an orphan and `No Matches Found` is shown | declare the id as a string, so that a reply naming catalog ids is displayed | not executed | ResultsDisplay.NumericResultsShowNothing | ResultsDisplay.NamedResultsAreShown (Catalog.IdsAreStrings) |
