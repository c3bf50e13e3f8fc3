/** The visual-mode search service: categorise the user's image, choose a
    candidate pool, take at most twelve candidates from a shuffle of it,
    keep those whose image could be fetched, build the interleaved request
    and turn the model's answer into a list sorted by descending score.

    The hosted model, `fetch`, `JSON.parse` and `Math.random` are not
    modelled: their outcomes arrive as parameters. */
module VisualSearch {
  import opened Types
  import opened Text
  import opened Seqs
  import Catalog

  /** The most candidates compared against the user's image in one request. */
  const CandidateLimit: nat := 12

  /** The message of the error thrown when the response text cannot be read. */
  const UnparsableResponse: string := "Could not understand the model's response."

  /** The caption that follows the user's image in the request. */
  const TargetImageCaption: string := "This is the user's target image to match."

  // ---------------------------------------------------------------------
  // Categories

  function CategoriesOf(ps: seq<Product>): (r: seq<string>)
    ensures |r| == |ps|
    ensures forall i :: 0 <= i < |ps| ==> r[i] == ps[i].category
  {
    seq(|ps|, i requires 0 <= i < |ps| => ps[i].category)
  }

  /** `new Set(xs)` iterated in insertion order, continuing from the
      elements already inserted (`seen`). */
  function DedupAfter(seen: seq<string>, xs: seq<string>): seq<string>
    decreases |xs|
  {
    if xs == [] then seen
    else DedupAfter(if xs[0] in seen then seen else seen + [xs[0]], xs[1..])
  }

  /** `[...new Set(catalog.map(p => p.category))]`. */
  function UniqueCategories(catalog: seq<Product>): seq<string>
  {
    DedupAfter([], CategoriesOf(catalog))
  }

  /** The position of the first occurrence of `x` in `xs`. */
  function FirstIndex(xs: seq<string>, x: string): (k: nat)
    requires x in xs
    ensures k < |xs| && xs[k] == x && x !in xs[..k]
  {
    if xs[0] == x then 0
    else
      var k := 1 + FirstIndex(xs[1..], x);
      assert xs[..k] == [xs[0]] + xs[1..][..k - 1];
      k
  }

  /** Continuing a deduplication keeps what was seen as a prefix, adds each
      new element once, and adds them in the order of their first
      occurrence in `xs`. */
  lemma DedupAfterSpec(seen: seq<string>, xs: seq<string>)
    requires NoDuplicates(seen)
    ensures var r := DedupAfter(seen, xs);
      && NoDuplicates(r)
      && |seen| <= |r| && r[..|seen|] == seen
      && (forall x :: x in r <==> x in seen || x in xs)
      && (forall i :: |seen| <= i < |r| ==> r[i] in xs && r[i] !in seen)
      && (forall i, j :: |seen| <= i < j < |r| ==> FirstIndex(xs, r[i]) < FirstIndex(xs, r[j]))
  {
    DedupAfterShape(seen, xs);
    DedupAfterOrder(seen, xs);
  }

  /** What a deduplication holds: `seen` as a prefix, then new elements of
      `xs`, none twice. */
  lemma {:induction false} DedupAfterShape(seen: seq<string>, xs: seq<string>)
    requires NoDuplicates(seen)
    ensures var r := DedupAfter(seen, xs);
      && NoDuplicates(r)
      && |seen| <= |r| && r[..|seen|] == seen
      && (forall x :: x in r <==> x in seen || x in xs)
      && (forall i :: |seen| <= i < |r| ==> r[i] in xs && r[i] !in seen)
    decreases |xs|
  {
    if xs != [] {
      var a, rest := xs[0], xs[1..];
      var seen' := if a in seen then seen else seen + [a];
      assert NoDuplicates(seen');
      DedupAfterShape(seen', rest);
      var r := DedupAfter(seen', rest);
      assert r == DedupAfter(seen, xs);
      assert r[..|seen|] == r[..|seen'|][..|seen|];
      forall x ensures x in r <==> x in seen || x in xs {
        assert x in xs <==> x == a || x in rest;
      }
    }
  }

  /** The new elements of a deduplication come in order of first occurrence. */
  lemma {:induction false} DedupAfterOrder(seen: seq<string>, xs: seq<string>)
    requires NoDuplicates(seen)
    ensures var r := DedupAfter(seen, xs);
      (forall i :: |seen| <= i < |r| ==> r[i] in xs) &&
      (forall i, j :: |seen| <= i < j < |r| ==> FirstIndex(xs, r[i]) < FirstIndex(xs, r[j]))
    decreases |xs|
  {
    DedupAfterShape(seen, xs);
    if xs != [] {
      var a, rest := xs[0], xs[1..];
      var seen' := if a in seen then seen else seen + [a];
      assert NoDuplicates(seen');
      DedupAfterOrder(seen', rest);
      DedupAfterShape(seen', rest);
      var r := DedupAfter(seen', rest);
      assert r == DedupAfter(seen, xs);
      forall i, j | |seen| <= i < j < |r|
        ensures FirstIndex(xs, r[i]) < FirstIndex(xs, r[j])
      {
        assert r[j] != a by {
          if a !in seen {
            assert r[..|seen'|] == seen';
            assert r[|seen|] == a;
          }
        }
        if r[i] != a {
          assert FirstIndex(xs, r[i]) == 1 + FirstIndex(rest, r[i]);
        }
        assert FirstIndex(xs, r[j]) == 1 + FirstIndex(rest, r[j]);
      }
    }
  }

  /** Each catalog category appears exactly once, and the categories come in
      the order in which they first occur in the catalog. */
  lemma UniqueCategoriesSpec(catalog: seq<Product>)
    ensures var u := UniqueCategories(catalog);
      && NoDuplicates(u)
      && (forall c :: c in u <==> exists i :: 0 <= i < |catalog| && catalog[i].category == c)
      && (forall i :: 0 <= i < |u| ==> u[i] in CategoriesOf(catalog))
      && (forall i, j :: 0 <= i < j < |u| ==>
            FirstIndex(CategoriesOf(catalog), u[i]) < FirstIndex(CategoriesOf(catalog), u[j]))
  {
    var cs := CategoriesOf(catalog);
    var u := UniqueCategories(catalog);
    DedupAfterSpec([], cs);
    assert forall i :: 0 <= i < |u| ==> u[i] in cs;
    forall c ensures c in u <==> exists i :: 0 <= i < |catalog| && catalog[i].category == c {
      assert c in u <==> c in cs;
      if c in cs {
        var i :| 0 <= i < |cs| && cs[i] == c;
        assert catalog[i].category == c;
      }
      if exists i :: 0 <= i < |catalog| && catalog[i].category == c {
        var i :| 0 <= i < |catalog| && catalog[i].category == c;
        assert cs[i] == c;
      }
    }
  }

  function Repeat(x: string, n: nat): (r: seq<string>)
    ensures |r| == n && forall i :: 0 <= i < n ==> r[i] == x
  {
    seq(n, _ => x)
  }

  lemma {:induction false} DedupAfterAppend(seen: seq<string>, a: seq<string>, b: seq<string>)
    ensures DedupAfter(seen, a + b) == DedupAfter(DedupAfter(seen, a), b)
    decreases |a|
  {
    if a == [] {
      assert a + b == b;
    } else {
      assert (a + b)[1..] == a[1..] + b;
      DedupAfterAppend(if a[0] in seen then seen else seen + [a[0]], a[1..], b);
    }
  }

  /** A run of one repeated element adds it once, if it was new. */
  lemma {:induction false} DedupAfterRepeat(seen: seq<string>, x: string, n: nat)
    requires n > 0
    ensures DedupAfter(seen, Repeat(x, n)) == if x in seen then seen else seen + [x]
    decreases n
  {
    var s' := if x in seen then seen else seen + [x];
    assert Repeat(x, n)[1..] == Repeat(x, n - 1);
    if n > 1 {
      DedupAfterRepeat(s', x, n - 1);
    }
  }

  lemma CategoriesOfAppend(a: seq<Product>, b: seq<Product>)
    ensures CategoriesOf(a + b) == CategoriesOf(a) + CategoriesOf(b)
  {
  }

  /** The category column of the shipped catalog: five runs of ten. */
  lemma CatalogCategoryColumn()
    ensures CategoriesOf(Catalog.Products) ==
      Repeat("Footwear", 10) + Repeat("Clothing", 10) + Repeat("Accessories", 10) +
      Repeat("Home", 10) + Repeat("Electronics", 10)
  {
    Catalog.BlockCategories();
    var f, c, a, h, e := Catalog.FootwearProducts, Catalog.ClothingProducts, Catalog.AccessoriesProducts,
      Catalog.HomeProducts, Catalog.ElectronicsProducts;
    assert CategoriesOf(f) == Repeat("Footwear", 10);
    assert CategoriesOf(c) == Repeat("Clothing", 10);
    assert CategoriesOf(a) == Repeat("Accessories", 10);
    assert CategoriesOf(h) == Repeat("Home", 10);
    assert CategoriesOf(e) == Repeat("Electronics", 10);
    CategoriesOfAppend(f, c);
    CategoriesOfAppend(f + c, a);
    CategoriesOfAppend(f + c + a, h);
    CategoriesOfAppend(f + c + a + h, e);
  }

  /** Appending a run of a new name to a deduplicated prefix appends the
      name once. */
  lemma DedupRunStep(prefix: seq<string>, seen: seq<string>, x: string, n: nat)
    requires n > 0 && DedupAfter([], prefix) == seen && x !in seen
    ensures DedupAfter([], prefix + Repeat(x, n)) == seen + [x]
  {
    DedupAfterAppend([], prefix, Repeat(x, n));
    DedupAfterRepeat(seen, x, n);
  }

  /** Deduplicating five runs of pairwise distinct names gives the five
      names in order. */
  lemma DedupFiveRuns(a: string, b: string, c: string, d: string, e: string, n: nat)
    requires n > 0
    requires a != b && a != c && a != d && a != e && b != c && b != d && b != e && c != d && c != e && d != e
    ensures DedupAfter([], Repeat(a, n) + Repeat(b, n) + Repeat(c, n) + Repeat(d, n) + Repeat(e, n)) == [a, b, c, d, e]
  {
    var ra, rb, rc, rd, re := Repeat(a, n), Repeat(b, n), Repeat(c, n), Repeat(d, n), Repeat(e, n);
    assert [] + ra == ra;
    DedupRunStep([], [], a, n);
    assert [] + [a] == [a];
    DedupRunStep(ra, [a], b, n);
    assert [a] + [b] == [a, b];
    DedupRunStep(ra + rb, [a, b], c, n);
    assert [a, b] + [c] == [a, b, c];
    DedupRunStep(ra + rb + rc, [a, b, c], d, n);
    assert [a, b, c] + [d] == [a, b, c, d];
    DedupRunStep(ra + rb + rc + rd, [a, b, c, d], e, n);
    assert [a, b, c, d] + [e] == [a, b, c, d, e];
  }

  /** For the shipped catalog, the deduplicated category list is Footwear,
      Clothing, Accessories, Home, Electronics. */
  lemma CatalogUniqueCategories()
    ensures UniqueCategories(Catalog.Products) == Catalog.CategoryNames
  {
    CatalogCategoryColumn();
    Catalog.CategoryNamesDistinct();
    DedupFiveRuns("Footwear", "Clothing", "Accessories", "Home", "Electronics", 10);
  }

  // ---------------------------------------------------------------------
  // Categorisation of the user's image

  /** `categorizeImage` as written. `answer` is the text of the
      categorisation response; `None` stands for a call that threw or a
      response without text, both of which yield null. The answer is
      trimmed and lower-cased and then looked up among the category names
      as they are spelled in the catalog. */
  function CategorizeImage(catalog: seq<Product>, answer: Option<string>): (r: Option<string>)
    ensures r.Some? ==> r.value in UniqueCategories(catalog) && r.value != ""
    ensures r.Some? ==> answer.Some? && r.value == ToLower(Trim(answer.value))
    ensures (answer.Some? && ToLower(Trim(answer.value)) != "" &&
             ToLower(Trim(answer.value)) in UniqueCategories(catalog)) ==> r == Some(ToLower(Trim(answer.value)))
  {
    match answer
    case None => None
    case Some(text) =>
      var category := ToLower(Trim(text));
      if category != "" && category in UniqueCategories(catalog) then Some(category) else None
  }

  /** With the shipped catalog the lookup above never succeeds: every
      category name starts with a capital letter and the lower-cased answer
      has none. */
  lemma CategorizeImageNeverMatches(answer: Option<string>)
    ensures CategorizeImage(Catalog.Products, answer) == None
  {
    if answer.Some? {
      var category := ToLower(Trim(answer.value));
      CatalogUniqueCategories();
      Catalog.CategoryNamesCapitalised();
      ToLowerHasNoUpper(Trim(answer.value));
    }
  }

  /** A concrete instance: the model answering exactly "Footwear" is not
      recognised as written, but is recognised by the corrected lookup. */
  lemma CategorizeImageFootwearExample()
    ensures CategorizeImage(Catalog.Products, Some("Footwear")) == None
    ensures CategorizeImageCaseInsensitive(Catalog.Products, Some("Footwear")) == Some("Footwear")
  {
    CategorizeImageNeverMatches(Some("Footwear"));
    TrimUnpadded("Footwear");
    CorrectedRecognisesCatalogNames(0, "Footwear");
  }

  /** The position of the first of `cs` whose lower-case form is `key`, or
      `|cs|` when there is none. */
  function FirstCaseInsensitive(cs: seq<string>, key: string): (k: nat)
    ensures k <= |cs|
    ensures k < |cs| ==> ToLower(cs[k]) == key
    ensures forall i :: 0 <= i < k ==> ToLower(cs[i]) != key
  {
    if cs == [] then 0
    else if ToLower(cs[0]) == key then 0
    else 1 + FirstCaseInsensitive(cs[1..], key)
  }

  /** The evidently intended categorisation: compare case-insensitively and
      return the category as the catalog spells it. */
  function CategorizeImageCaseInsensitive(catalog: seq<Product>, answer: Option<string>): (r: Option<string>)
    ensures r.Some? ==> answer.Some? && r.value in UniqueCategories(catalog) &&
                        ToLower(r.value) == ToLower(Trim(answer.value)) && r.value != ""
    ensures r.None? ==> answer.None? || ToLower(Trim(answer.value)) == "" ||
                        forall c :: c in UniqueCategories(catalog) ==> ToLower(c) != ToLower(Trim(answer.value))
  {
    match answer
    case None => None
    case Some(text) =>
      var key := ToLower(Trim(text));
      var categories := UniqueCategories(catalog);
      var k := FirstCaseInsensitive(categories, key);
      if key != "" && k < |categories| then Some(categories[k]) else None
  }

  /** With the shipped catalog, an answer that trims to a category name, in
      any letter case, is recognised as that category. */
  lemma CorrectedRecognisesCatalogNames(k: nat, text: string)
    requires k < |Catalog.CategoryNames|
    requires ToLower(Trim(text)) == ToLower(Catalog.CategoryNames[k])
    ensures CategorizeImageCaseInsensitive(Catalog.Products, Some(text)) == Some(Catalog.CategoryNames[k])
  {
    CatalogUniqueCategories();
    Catalog.CategoryNamesCapitalised();
    Catalog.CategoryNamesLowerDistinct();
    var names := Catalog.CategoryNames;
    var key := ToLower(Trim(text));
    assert key != "";
    var j := FirstCaseInsensitive(names, key);
    assert j == k;
  }

  // ---------------------------------------------------------------------
  // Candidate pool and selection

  /** `catalog.filter(p => p.category === category)`. */
  function InCategory(catalog: seq<Product>, category: string): (r: seq<Product>)
    ensures forall i :: 0 <= i < |r| ==> r[i] in catalog && r[i].category == category
    ensures forall i :: 0 <= i < |catalog| && catalog[i].category == category ==> catalog[i] in r
  {
    Filter(catalog, (p: Product) => p.category == category)
  }

  /** The category narrows the pool: it is a non-empty string and some
      product has it. */
  predicate Narrows(catalog: seq<Product>, identified: Option<string>)
  {
    identified.Some? && identified.value != "" && InCategory(catalog, identified.value) != []
  }

  /** The candidate pool: the products of the identified category when there
      are any, otherwise the whole catalog. */
  function CandidatePool(catalog: seq<Product>, identified: Option<string>): (r: seq<Product>)
    ensures forall i :: 0 <= i < |r| ==> r[i] in catalog
    ensures |catalog| > 0 ==> |r| > 0
    ensures Narrows(catalog, identified) ==>
      (forall i :: 0 <= i < |r| ==> r[i].category == identified.value) &&
      (forall i :: 0 <= i < |catalog| && catalog[i].category == identified.value ==> catalog[i] in r)
    ensures !Narrows(catalog, identified) ==> r == catalog
  {
    if Narrows(catalog, identified) then InCategory(catalog, identified.value) else catalog
  }

  /** The pool keeps the catalog's order. */
  lemma CandidatePoolInCatalogOrder(catalog: seq<Product>, identified: Option<string>)
    ensures SubsequenceOf(CandidatePool(catalog, identified), catalog)
  {
    if Narrows(catalog, identified) {
      FilterIsSubsequence(catalog, (p: Product) => p.category == identified.value);
    } else {
      SubsequenceOfSelf(catalog);
    }
  }

  /** As written, the categoriser never narrows the shipped catalog, so the
      pool is always the whole catalog. */
  lemma AsWrittenPoolIsWholeCatalog(answer: Option<string>)
    ensures CandidatePool(Catalog.Products, CategorizeImage(Catalog.Products, answer)) == Catalog.Products
  {
    CategorizeImageNeverMatches(answer);
  }

  /** Filtering a block whose products all share one category keeps the
      whole block for that category and nothing for any other. */
  lemma InCategoryOfBlock(block: seq<Product>, name: string, c: string)
    requires forall i :: 0 <= i < |block| ==> block[i].category == name
    ensures InCategory(block, c) == if c == name then block else []
  {
    FilterAllOrNone(block, (p: Product) => p.category == c);
  }

  /** Filtering five single-category blocks by a category keeps the blocks
      that have it. */
  lemma InCategoryOfFiveBlocks(f: seq<Product>, l: seq<Product>, a: seq<Product>, h: seq<Product>, e: seq<Product>,
                               nf: string, nl: string, na: string, nh: string, ne: string, c: string)
    requires forall i :: 0 <= i < |f| ==> f[i].category == nf
    requires forall i :: 0 <= i < |l| ==> l[i].category == nl
    requires forall i :: 0 <= i < |a| ==> a[i].category == na
    requires forall i :: 0 <= i < |h| ==> h[i].category == nh
    requires forall i :: 0 <= i < |e| ==> e[i].category == ne
    ensures InCategory(f + l + a + h + e, c) ==
      (if c == nf then f else []) + (if c == nl then l else []) + (if c == na then a else []) +
      (if c == nh then h else []) + (if c == ne then e else [])
  {
    var keep := (p: Product) => p.category == c;
    FilterAppend(f + l + a + h, e, keep);
    FilterAppend(f + l + a, h, keep);
    FilterAppend(f + l, a, keep);
    FilterAppend(f, l, keep);
    InCategoryOfBlock(f, nf, c);
    InCategoryOfBlock(l, nl, c);
    InCategoryOfBlock(a, na, c);
    InCategoryOfBlock(h, nh, c);
    InCategoryOfBlock(e, ne, c);
  }

  /** Filtering the shipped catalog by a category keeps exactly the block
      that has it. */
  lemma CatalogInCategory(c: string)
    ensures InCategory(Catalog.Products, c) ==
      (if c == "Footwear" then Catalog.FootwearProducts else []) +
      (if c == "Clothing" then Catalog.ClothingProducts else []) +
      (if c == "Accessories" then Catalog.AccessoriesProducts else []) +
      (if c == "Home" then Catalog.HomeProducts else []) +
      (if c == "Electronics" then Catalog.ElectronicsProducts else [])
  {
    Catalog.BlockCategories();
    InCategoryOfFiveBlocks(Catalog.FootwearProducts, Catalog.ClothingProducts, Catalog.AccessoriesProducts,
      Catalog.HomeProducts, Catalog.ElectronicsProducts, "Footwear", "Clothing", "Accessories", "Home", "Electronics", c);
  }

  /** Five single-category blocks with distinct names: filtering their
      concatenation by the k-th name keeps exactly the k-th block. */
  lemma InCategoryOfNamedBlock(f: seq<Product>, l: seq<Product>, a: seq<Product>, h: seq<Product>, e: seq<Product>,
                               names: seq<string>, k: nat)
    requires |names| == 5 && NoDuplicates(names) && k < 5
    requires forall i :: 0 <= i < |f| ==> f[i].category == names[0]
    requires forall i :: 0 <= i < |l| ==> l[i].category == names[1]
    requires forall i :: 0 <= i < |a| ==> a[i].category == names[2]
    requires forall i :: 0 <= i < |h| ==> h[i].category == names[3]
    requires forall i :: 0 <= i < |e| ==> e[i].category == names[4]
    ensures InCategory(f + l + a + h + e, names[k]) == [f, l, a, h, e][k]
  {
    InCategoryOfFiveBlocks(f, l, a, h, e, names[0], names[1], names[2], names[3], names[4], names[k]);
    assert names[k] == names[0] <==> k == 0;
    assert names[k] == names[1] <==> k == 1;
    assert names[k] == names[2] <==> k == 2;
    assert names[k] == names[3] <==> k == 3;
    assert names[k] == names[4] <==> k == 4;
  }

  /** In the shipped catalog each category has exactly ten products, all of
      that category's ten-entry block. */
  lemma CatalogCategoryPools(k: nat)
    requires k < |Catalog.CategoryNames|
    ensures InCategory(Catalog.Products, Catalog.CategoryNames[k]) ==
      [Catalog.FootwearProducts, Catalog.ClothingProducts, Catalog.AccessoriesProducts,
       Catalog.HomeProducts, Catalog.ElectronicsProducts][k]
    ensures |InCategory(Catalog.Products, Catalog.CategoryNames[k])| == 10
  {
    Catalog.BlockCategories();
    Catalog.CategoryNamesDistinct();
    InCategoryOfNamedBlock(Catalog.FootwearProducts, Catalog.ClothingProducts, Catalog.AccessoriesProducts,
      Catalog.HomeProducts, Catalog.ElectronicsProducts, Catalog.CategoryNames, k);
    Catalog.BlockSizes();
  }

  /** With the corrected categoriser, an answer naming a category narrows the
      shipped catalog to that category's ten products, in catalog order. */
  lemma CorrectedPoolForCategory(k: nat, text: string)
    requires k < |Catalog.CategoryNames|
    requires ToLower(Trim(text)) == ToLower(Catalog.CategoryNames[k])
    ensures var pool := CandidatePool(Catalog.Products, CategorizeImageCaseInsensitive(Catalog.Products, Some(text)));
      pool == InCategory(Catalog.Products, Catalog.CategoryNames[k]) && |pool| == 10
  {
    CorrectedRecognisesCatalogNames(k, text);
    CatalogCategoryPools(k);
  }

  function Min(a: nat, b: nat): nat
  {
    if a <= b then a else b
  }

  /** `shuffled.slice(0, 12)`. */
  function TakeCandidates(shuffled: seq<Product>): (r: seq<Product>)
    ensures |r| == Min(|shuffled|, CandidateLimit)
    ensures forall i :: 0 <= i < |r| ==> r[i] == shuffled[i]
  {
    shuffled[..Min(|shuffled|, CandidateLimit)]
  }

  /** Taking at most twelve from any permutation of a duplicate-free pool
      gives at most twelve distinct pool members, and the whole pool when it
      has twelve or fewer. */
  lemma SelectionFromPermutation(pool: seq<Product>, shuffled: seq<Product>)
    requires multiset(shuffled) == multiset(pool)
    ensures var r := TakeCandidates(shuffled);
      && |r| <= CandidateLimit
      && (forall i :: 0 <= i < |r| ==> r[i] in pool)
      && (NoDuplicates(pool) ==> NoDuplicates(r))
      && (|pool| <= CandidateLimit ==> multiset(r) == multiset(pool))
  {
    var r := TakeCandidates(shuffled);
    assert |shuffled| == |multiset(shuffled)| == |pool|;
    forall i | 0 <= i < |r| ensures r[i] in pool {
      assert r[i] == shuffled[i];
      assert r[i] in multiset(shuffled);
    }
    if NoDuplicates(pool) {
      NoDuplicatesMultiset(pool);
      NoDuplicatesMultiset(shuffled);
    }
    if |pool| <= CandidateLimit {
      assert r == shuffled;
    }
  }

  // ---------------------------------------------------------------------
  // Candidate images

  /** What `urlToImageData` resolves to: empty strings when the fetch failed
      or came back with a non-OK status. */
  datatype Encoded = Encoded(base64: string, mimeType: string)

  /** A fetched candidate image together with the product id it belongs to. */
  datatype ProductImage = ProductImage(base64: string, mimeType: string, id: ProductId)

  function ImageOf(p: Product, fetch: string -> Encoded): ProductImage
  {
    ProductImage(fetch(p.imageUrl).base64, fetch(p.imageUrl).mimeType, p.id)
  }

  /** `selected.map(...)` awaited with `Promise.all`: one entry per selected
      product, in the same order. */
  function ProductImagesData(selected: seq<Product>, fetch: string -> Encoded): (r: seq<ProductImage>)
    ensures |r| == |selected|
    ensures forall i :: 0 <= i < |selected| ==> r[i] == ImageOf(selected[i], fetch)
  {
    seq(|selected|, i requires 0 <= i < |selected| => ImageOf(selected[i], fetch))
  }

  predicate HasData(d: ProductImage)
  {
    d.base64 != ""
  }

  /** `productImagesData.filter(d => d.base64)`: a failed fetch drops its
      candidate, every successful one is kept. */
  function ValidProductImages(selected: seq<Product>, fetch: string -> Encoded): (r: seq<ProductImage>)
    ensures |r| <= |selected|
    ensures forall i :: 0 <= i < |r| ==> r[i].base64 != ""
    ensures forall i :: 0 <= i < |r| ==> exists j :: 0 <= j < |selected| && r[i] == ImageOf(selected[j], fetch)
    ensures forall j :: 0 <= j < |selected| && fetch(selected[j].imageUrl).base64 != "" ==>
                        ImageOf(selected[j], fetch) in r
  {
    var data := ProductImagesData(selected, fetch);
    var r := Filter(data, HasData);
    forall i | 0 <= i < |r| ensures exists j :: 0 <= j < |selected| && r[i] == ImageOf(selected[j], fetch) {
      var j :| 0 <= j < |data| && data[j] == r[i];
    }
    r
  }

  /** The surviving images keep the order of the selection. */
  lemma ValidImagesInOrder(selected: seq<Product>, fetch: string -> Encoded)
    ensures SubsequenceOf(ValidProductImages(selected, fetch), ProductImagesData(selected, fetch))
  {
    FilterIsSubsequence(ProductImagesData(selected, fetch), HasData);
  }

  /** A duplicate-free catalog gives a duplicate-free pool. */
  lemma CandidatePoolDistinct(catalog: seq<Product>, identified: Option<string>)
    requires NoDuplicates(catalog)
    ensures NoDuplicates(CandidatePool(catalog, identified))
  {
    if Narrows(catalog, identified) {
      FilterNoDuplicates(catalog, (p: Product) => p.category == identified.value);
    }
  }

  /** On the shipped catalog the selection never repeats a product, whatever
      the categorisation; as written it is always twelve products. */
  lemma ShippedSelectionDistinct(identified: Option<string>, shuffled: seq<Product>)
    requires multiset(shuffled) == multiset(CandidatePool(Catalog.Products, identified))
    ensures NoDuplicates(TakeCandidates(shuffled))
    ensures forall i :: 0 <= i < |TakeCandidates(shuffled)| ==> TakeCandidates(shuffled)[i] in Catalog.Products
  {
    var pool := CandidatePool(Catalog.Products, identified);
    Catalog.ProductsDistinct();
    CandidatePoolDistinct(Catalog.Products, identified);
    SelectionFromPermutation(pool, shuffled);
  }

  lemma AsWrittenSelectsTwelve(answer: Option<string>, shuffled: seq<Product>)
    requires multiset(shuffled) == multiset(CandidatePool(Catalog.Products, CategorizeImage(Catalog.Products, answer)))
    ensures |TakeCandidates(shuffled)| == CandidateLimit
  {
    AsWrittenPoolIsWholeCatalog(answer);
    Catalog.CatalogSize();
    SelectsLimit(Catalog.Products, shuffled);
  }

  /** Any arrangement of a pool of at least twelve yields twelve candidates. */
  lemma SelectsLimit(pool: seq<Product>, shuffled: seq<Product>)
    requires multiset(shuffled) == multiset(pool) && |pool| >= CandidateLimit
    ensures |TakeCandidates(shuffled)| == CandidateLimit
  {
    assert |shuffled| == |multiset(shuffled)| == |pool|;
  }

  // ---------------------------------------------------------------------
  // The comparison request

  /** A request part: inline image data, a text part, or the fixed matching
      instructions (whose wording is not modelled). */
  datatype Part = InlineData(data: string, mimeType: string) | Text(text: string) | MatchingInstructions

  /** How a template literal renders a product id. */
  function IdText(id: ProductId): string
  {
    match id
    case StrId(s) => s
    case NumId(n) => IntToString(n)
  }

  function ProductIdLabel(id: ProductId): string
  {
    "Product ID: " + IdText(id)
  }

  /** The request `parts`: the user's image, its caption and the
      instructions, then for each valid candidate its image followed by its
      id label, in the order of `valid`. */
  predicate IsRequestFor(userImage: ImageData, valid: seq<ProductImage>, parts: seq<Part>)
  {
    && |parts| == 3 + 2 * |valid|
    && parts[0] == InlineData(userImage.base64, userImage.mimeType)
    && parts[1] == Text(TargetImageCaption) && parts[2] == MatchingInstructions
    && forall k :: 0 <= k < |valid| ==>
         parts[3 + 2 * k] == InlineData(valid[k].base64, valid[k].mimeType) &&
         parts[4 + 2 * k] == Text(ProductIdLabel(valid[k].id))
  }

  /** Builds the request laid out as `IsRequestFor` describes. */
  method BuildParts(userImage: ImageData, valid: seq<ProductImage>) returns (parts: seq<Part>)
    ensures IsRequestFor(userImage, valid, parts)
  {
    parts := [InlineData(userImage.base64, userImage.mimeType), Text(TargetImageCaption), MatchingInstructions];
    for i := 0 to |valid|
      invariant |parts| == 3 + 2 * i
      invariant parts[0] == InlineData(userImage.base64, userImage.mimeType)
      invariant parts[1] == Text(TargetImageCaption) && parts[2] == MatchingInstructions
      invariant forall k :: 0 <= k < i ==>
        parts[3 + 2 * k] == InlineData(valid[k].base64, valid[k].mimeType) &&
        parts[4 + 2 * k] == Text(ProductIdLabel(valid[k].id))
    {
      parts := parts + [InlineData(valid[i].base64, valid[i].mimeType)];
      parts := parts + [Text(ProductIdLabel(valid[i].id))];
    }
  }

  /** Distinct string ids get distinct labels, so every candidate image is
      labelled unambiguously. */
  lemma StringIdLabelsDistinct(a: string, b: string)
    requires a != b
    ensures ProductIdLabel(StrId(a)) != ProductIdLabel(StrId(b))
  {
    assert ProductIdLabel(StrId(a))[12..] == a;
    assert ProductIdLabel(StrId(b))[12..] == b;
  }

  // ---------------------------------------------------------------------
  // The response

  predicate SortedByScore(s: seq<SearchResult>)
  {
    forall i, j :: 0 <= i < j < |s| ==> s[i].similarityScore >= s[j].similarityScore
  }

  method Swap(a: array<SearchResult>, i: nat, j: nat)
    requires i < j < a.Length
    modifies a
    ensures a[i] == old(a[j]) && a[j] == old(a[i])
    ensures forall k :: 0 <= k < a.Length && k != i && k != j ==> a[k] == old(a[k])
    ensures multiset(a[..]) == multiset(old(a[..]))
  {
    a[i], a[j] := a[j], a[i];
  }

  /** `results.sort((a, b) => b.similarityScore - a.similarityScore)`: sorts
      the array in place into non-increasing score order (by insertion). */
  method SortByScore(a: array<SearchResult>)
    modifies a
    ensures SortedByScore(a[..])
    ensures multiset(a[..]) == multiset(old(a[..]))
  {
    var i := 0;
    while i < a.Length
      invariant 0 <= i <= a.Length
      invariant forall k, l :: 0 <= k < l < i ==> a[k].similarityScore >= a[l].similarityScore
      invariant multiset(a[..]) == multiset(old(a[..]))
    {
      var j := i;
      while j > 0 && a[j - 1].similarityScore < a[j].similarityScore
        invariant 0 <= j <= i
        invariant forall k, l :: 0 <= k < l <= i && k != j && l != j ==> a[k].similarityScore >= a[l].similarityScore
        invariant forall l :: j < l <= i ==> a[j].similarityScore > a[l].similarityScore
        invariant multiset(a[..]) == multiset(old(a[..]))
      {
        Swap(a, j - 1, j);
        j := j - 1;
      }
      i := i + 1;
    }
  }

  /** What the visual-mode code makes of the response text: missing or
      blank text is an empty list, unparsable text is the fixed error, and
      anything else is the parsed list reordered by non-increasing score. */
  predicate HandledAs(responseText: Option<string>, parse: string -> Option<seq<SearchResult>>,
                      r: Result<seq<SearchResult>>)
  {
    && (responseText.None? || Trim(responseText.value) == "" ==> r == Success([]))
    && (responseText.Some? && Trim(responseText.value) != "" && parse(Trim(responseText.value)).None? ==>
          r == Failure(UnparsableResponse))
    && (responseText.Some? && Trim(responseText.value) != "" && parse(Trim(responseText.value)).Some? ==>
          r.Success? && SortedByScore(r.value) &&
          multiset(r.value) == multiset(parse(Trim(responseText.value)).value))
  }

  /** The handling of the visual-mode response text. `responseText` is
      `response.text` (`None` when absent); `parse` stands for `JSON.parse`
      followed by the array check `.sort` performs, `None` meaning that
      either threw. */
  method HandleResponse(responseText: Option<string>, parse: string -> Option<seq<SearchResult>>)
    returns (r: Result<seq<SearchResult>>)
    ensures HandledAs(responseText, parse, r)
  {
    if responseText.None? {
      return Success([]);
    }
    var text := Trim(responseText.value);
    if text == "" {
      return Success([]);
    }
    match parse(text)
    case None =>
      r := Failure(UnparsableResponse);
    case Some(results) =>
      var a := new SearchResult[|results|](i requires 0 <= i < |results| => results[i]);
      assert a[..] == results;
      SortByScore(a);
      r := Success(a[..]);
  }

  // ---------------------------------------------------------------------
  // The whole search

  /** What one comparison against a candidate pool produces. The candidates
      are the first twelve of the shuffled pool whose image could be fetched
      (`valid`). No request is made, and the result is empty, exactly when
      there are none. Otherwise the request is laid out for exactly those
      candidates, a failing model call propagates its error, and the reply
      is handled as `HandledAs` states. */
  predicate ComparedAgainst(
    userImage: ImageData,
    pool: seq<Product>,
    shuffle: seq<Product> -> seq<Product>,
    fetch: string -> Encoded,
    generate: seq<Part> -> Result<Option<string>>,
    parse: string -> Option<seq<SearchResult>>,
    r: Result<seq<SearchResult>>,
    request: Option<seq<Part>>)
  {
    var valid := ValidProductImages(TakeCandidates(shuffle(pool)), fetch);
    && (request.None? <==> valid == [])
    && (valid == [] ==> r == Success([]))
    && (request.Some? ==> IsRequestFor(userImage, valid, request.value) &&
                          5 <= |request.value| <= 3 + 2 * CandidateLimit)
    && (request.Some? && generate(request.value).Failure? ==> r == Failure(generate(request.value).message))
    && (request.Some? && generate(request.value).Success? ==> HandledAs(generate(request.value).value, parse, r))
  }

  /** Steps 1 to 3 of `findSimilarProducts` once the pool is chosen: shuffle
      and select, fetch, build the request, call the model, read the reply.
      `request` is the list of parts sent to the model, `None` when no
      request is made. */
  method CompareAgainstPool(
    userImage: ImageData,
    pool: seq<Product>,
    shuffle: seq<Product> -> seq<Product>,
    fetch: string -> Encoded,
    generate: seq<Part> -> Result<Option<string>>,
    parse: string -> Option<seq<SearchResult>>)
    returns (r: Result<seq<SearchResult>>, request: Option<seq<Part>>)
    ensures ComparedAgainst(userImage, pool, shuffle, fetch, generate, parse, r, request)
    ensures r.Success? ==> SortedByScore(r.value)
  {
    var selected := TakeCandidates(shuffle(pool));
    var valid := ValidProductImages(selected, fetch);
    if valid == [] {
      return Success([]), None;
    }
    var parts := BuildParts(userImage, valid);
    request := Some(parts);
    match generate(parts)
    case Failure(message) =>
      r := Failure(message);
    case Success(responseText) =>
      r := HandleResponse(responseText, parse);
  }

  /** `findSimilarProducts` in visual mode, as written: the pool comes from
      `categorizeImage` as the code has it. The inputs stand for what the
      code receives from outside: the categorisation answer, the shuffle,
      the image fetches, the comparison call (which may throw) and the
      parser. */
  method FindSimilarProducts(
    userImage: ImageData,
    catalog: seq<Product>,
    categoryAnswer: Option<string>,
    shuffle: seq<Product> -> seq<Product>,
    fetch: string -> Encoded,
    generate: seq<Part> -> Result<Option<string>>,
    parse: string -> Option<seq<SearchResult>>)
    returns (r: Result<seq<SearchResult>>, request: Option<seq<Part>>)
    ensures ComparedAgainst(userImage, CandidatePool(catalog, CategorizeImage(catalog, categoryAnswer)),
                            shuffle, fetch, generate, parse, r, request)
    ensures r.Success? ==> SortedByScore(r.value)
  {
    var identified := CategorizeImage(catalog, categoryAnswer);
    r, request := CompareAgainstPool(userImage, CandidatePool(catalog, identified), shuffle, fetch, generate, parse);
  }

  /** The same search with the corrected, case-insensitive categoriser. */
  method FindSimilarProductsCorrected(
    userImage: ImageData,
    catalog: seq<Product>,
    categoryAnswer: Option<string>,
    shuffle: seq<Product> -> seq<Product>,
    fetch: string -> Encoded,
    generate: seq<Part> -> Result<Option<string>>,
    parse: string -> Option<seq<SearchResult>>)
    returns (r: Result<seq<SearchResult>>, request: Option<seq<Part>>)
    ensures ComparedAgainst(userImage, CandidatePool(catalog, CategorizeImageCaseInsensitive(catalog, categoryAnswer)),
                            shuffle, fetch, generate, parse, r, request)
    ensures r.Success? ==> SortedByScore(r.value)
  {
    var identified := CategorizeImageCaseInsensitive(catalog, categoryAnswer);
    r, request := CompareAgainstPool(userImage, CandidatePool(catalog, identified), shuffle, fetch, generate, parse);
  }

  /** On the shipped catalog the as-written search always compares against
      the whole catalog, while the corrected one compares against the ten
      products of a named category. */
  lemma SearchPoolsOnShippedCatalog(k: nat, text: string)
    requires k < |Catalog.CategoryNames|
    requires ToLower(Trim(text)) == ToLower(Catalog.CategoryNames[k])
    ensures CandidatePool(Catalog.Products, CategorizeImage(Catalog.Products, Some(text))) == Catalog.Products
    ensures |CandidatePool(Catalog.Products, CategorizeImageCaseInsensitive(Catalog.Products, Some(text)))| == 10
    ensures CandidatePool(Catalog.Products, CategorizeImage(Catalog.Products, Some(text))) !=
            CandidatePool(Catalog.Products, CategorizeImageCaseInsensitive(Catalog.Products, Some(text)))
  {
    AsWrittenPoolIsWholeCatalog(Some(text));
    CorrectedPoolForCategory(k, text);
    Catalog.CatalogSize();
  }
}
