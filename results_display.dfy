/** The results view: join each returned id to the catalog, drop the ones
    that have no product, keep those at or above the similarity slider, and
    label the count. */
module ResultsDisplay {
  import opened Types
  import opened Text
  import opened Seqs
  import Catalog

  /** The slider's initial value and its range. */
  const InitialSimilarityFilter: int := 50
  const SliderMin: int := 50
  const SliderMax: int := 100

  /** A value the slider can hold. */
  predicate SliderValue(t: int)
  {
    SliderMin <= t <= SliderMax
  }

  /** The position of the first product whose id is `id` (strict equality),
      or `|catalog|` when there is none. */
  function FindIndex(catalog: seq<Product>, id: ProductId): (k: nat)
    ensures k <= |catalog|
    ensures k < |catalog| ==> catalog[k].id == id
    ensures forall j :: 0 <= j < k ==> catalog[j].id != id
  {
    if catalog == [] then 0
    else if catalog[0].id == id then 0
    else 1 + FindIndex(catalog[1..], id)
  }

  /** `products.find(p => p.id === id)`. */
  function FindProduct(catalog: seq<Product>, id: ProductId): Option<Product>
  {
    var k := FindIndex(catalog, id);
    if k < |catalog| then Some(catalog[k]) else None
  }

  /** A catalog product with the score the model gave it. */
  datatype MatchedProduct = MatchedProduct(product: Product, similarityScore: int)

  /** `results.map(result => product ? {...product, similarityScore} : null)
      .filter(Boolean)`: each result that has a catalog product becomes that
      product with the result's score; the others are dropped. */
  function Join(catalog: seq<Product>, results: seq<SearchResult>): seq<MatchedProduct>
    decreases |results|
  {
    if results == [] then []
    else
      var rest := Join(catalog, results[1..]);
      match FindProduct(catalog, results[0].id)
      case None => rest
      case Some(p) => [MatchedProduct(p, results[0].similarityScore)] + rest
  }

  function AtLeast(similarityFilter: int): MatchedProduct -> bool
  {
    (m: MatchedProduct) => m.similarityScore >= similarityFilter
  }

  /** `matchedProducts`. */
  function MatchedProducts(catalog: seq<Product>, results: seq<SearchResult>, similarityFilter: int): seq<MatchedProduct>
  {
    Filter(Join(catalog, results), AtLeast(similarityFilter))
  }

  /** The result an entry was made from. */
  function Origin(m: MatchedProduct): SearchResult
  {
    SearchResult(m.product.id, m.similarityScore)
  }

  function Origins(ms: seq<MatchedProduct>): (r: seq<SearchResult>)
    ensures |r| == |ms| && forall i :: 0 <= i < |ms| ==> r[i] == Origin(ms[i])
  {
    seq(|ms|, i requires 0 <= i < |ms| => Origin(ms[i]))
  }

  /** Strict equality never equates a numeric id with a string id. */
  lemma NumericIdNeverJoinsCatalog(n: int)
    ensures FindProduct(Catalog.Products, NumId(n)) == None
  {
    Catalog.IdsAreStrings();
  }

  /** Each catalog id finds its own product, because catalog ids are
      distinct. */
  lemma CatalogIdFindsItsProduct(k: nat)
    requires k < |Catalog.Products|
    ensures FindProduct(Catalog.Products, Catalog.Products[k].id) == Some(Catalog.Products[k])
  {
    Catalog.IdsDistinct();
    var j := FindIndex(Catalog.Products, Catalog.Products[k].id);
    assert j == k;
  }

  lemma {:induction false} JoinAppend(catalog: seq<Product>, a: seq<SearchResult>, b: seq<SearchResult>)
    ensures Join(catalog, a + b) == Join(catalog, a) + Join(catalog, b)
    decreases |a|
  {
    if a == [] {
      assert a + b == b;
    } else {
      assert (a + b)[1..] == a[1..] + b;
      JoinAppend(catalog, a[1..], b);
    }
  }

  /** Every joined entry is the first catalog product with the result's id,
      carrying the result's score, and the entries keep the results' order. */
  lemma {:induction false} JoinFaithful(catalog: seq<Product>, results: seq<SearchResult>)
    ensures forall i :: 0 <= i < |Join(catalog, results)| ==>
      FindProduct(catalog, Join(catalog, results)[i].product.id) == Some(Join(catalog, results)[i].product)
    ensures SubsequenceOf(Origins(Join(catalog, results)), results)
    decreases |results|
  {
    if results != [] {
      JoinFaithful(catalog, results[1..]);
      var rest := Join(catalog, results[1..]);
      var x := results[0];
      match FindProduct(catalog, x.id)
      case None =>
        SubsequenceOfDrop(Origins(rest), results[1..], x);
        assert [x] + results[1..] == results;
      case Some(p) =>
        var j := Join(catalog, results);
        assert j == [MatchedProduct(p, x.similarityScore)] + rest;
        assert p.id == x.id;
        assert Origins(j) == [x] + Origins(rest);
        assert forall i :: 1 <= i < |j| ==> j[i] == rest[i - 1];
    }
  }

  /** A result without a catalog product contributes nothing: removing it
      leaves the displayed list unchanged, whatever surrounds it. */
  lemma OrphanDropped(catalog: seq<Product>, before: seq<SearchResult>, orphan: SearchResult,
                      after: seq<SearchResult>, similarityFilter: int)
    requires FindProduct(catalog, orphan.id) == None
    ensures MatchedProducts(catalog, before + [orphan] + after, similarityFilter) ==
            MatchedProducts(catalog, before + after, similarityFilter)
  {
    JoinAppend(catalog, before + [orphan], after);
    JoinAppend(catalog, before, [orphan]);
    JoinAppend(catalog, before, after);
    assert Join(catalog, [orphan]) == [];
    assert Join(catalog, before) + [] == Join(catalog, before);
  }

  /** A result is displayed when its id has a catalog product and its score
      is at or above the slider. */
  function Qualifies(catalog: seq<Product>, similarityFilter: int): SearchResult -> bool
  {
    (r: SearchResult) => FindProduct(catalog, r.id).Some? && r.similarityScore >= similarityFilter
  }

  /** The results the view is made from are exactly the qualifying ones, in
      the order of the results. */
  lemma {:induction false} OriginsOfMatched(catalog: seq<Product>, results: seq<SearchResult>, similarityFilter: int)
    ensures Origins(MatchedProducts(catalog, results, similarityFilter)) ==
            Filter(results, Qualifies(catalog, similarityFilter))
    decreases |results|
  {
    if results != [] {
      var x, rest := results[0], results[1..];
      assert results == [x] + rest;
      OriginsOfMatched(catalog, rest, similarityFilter);
      FilterCons([x], rest, Qualifies(catalog, similarityFilter));
      OriginsOfMatchedCons(catalog, x, rest, similarityFilter);
    }
  }

  /** One step of `OriginsOfMatched`: the first result contributes itself
      exactly when it qualifies. */
  lemma OriginsOfMatchedCons(catalog: seq<Product>, x: SearchResult, rest: seq<SearchResult>, similarityFilter: int)
    ensures Origins(MatchedProducts(catalog, [x] + rest, similarityFilter)) ==
            (if Qualifies(catalog, similarityFilter)(x) then [x] else []) +
            Origins(MatchedProducts(catalog, rest, similarityFilter))
  {
    var tail := MatchedProducts(catalog, rest, similarityFilter);
    match FindProduct(catalog, x.id)
    case None =>
      assert ([x] + rest)[1..] == rest;
    case Some(p) =>
      var m := MatchedProduct(p, x.similarityScore);
      JoinCons(catalog, x, rest, p);
      FilterCons([m], Join(catalog, rest), AtLeast(similarityFilter));
      if x.similarityScore >= similarityFilter {
        assert MatchedProducts(catalog, [x] + rest, similarityFilter) == [m] + tail;
        OriginsCons(m, tail);
        assert Origin(m) == x;
      } else {
        assert MatchedProducts(catalog, [x] + rest, similarityFilter) == tail;
      }
  }

  lemma OriginsCons(m: MatchedProduct, tail: seq<MatchedProduct>)
    ensures Origins([m] + tail) == [Origin(m)] + Origins(tail)
  {
    var whole, parts := Origins([m] + tail), [Origin(m)] + Origins(tail);
    forall i | 0 <= i < |whole| ensures whole[i] == parts[i] {
      if i > 0 {
        assert ([m] + tail)[i] == tail[i - 1];
      }
    }
  }

  /** What the view shows: each entry is the first catalog product with an
      equal id, with the result's score, at or above the slider; and every
      result that has a product and reaches the slider is shown, in the
      results' order. */
  lemma MatchedProductsSpec(catalog: seq<Product>, results: seq<SearchResult>, similarityFilter: int)
    ensures var shown := MatchedProducts(catalog, results, similarityFilter);
      && (forall i :: 0 <= i < |shown| ==>
            shown[i].similarityScore >= similarityFilter &&
            FindProduct(catalog, shown[i].product.id) == Some(shown[i].product))
      && Origins(shown) == Filter(results, Qualifies(catalog, similarityFilter))
      && SubsequenceOf(Origins(shown), results)
      && |shown| <= |results|
  {
    var joined := Join(catalog, results);
    var shown := MatchedProducts(catalog, results, similarityFilter);
    JoinFaithful(catalog, results);
    OriginsOfMatched(catalog, results, similarityFilter);
    FilterIsSubsequence(results, Qualifies(catalog, similarityFilter));
  }

  /** When the view opens, the slider is at 50, which it can hold, and the
      view shows exactly the results with a product that score 50 or more. */
  lemma InitialView(catalog: seq<Product>, results: seq<SearchResult>)
    ensures SliderValue(InitialSimilarityFilter)
    ensures Origins(MatchedProducts(catalog, results, InitialSimilarityFilter)) ==
            Filter(results, (r: SearchResult) => FindProduct(catalog, r.id).Some? && r.similarityScore >= 50)
  {
    OriginsOfMatched(catalog, results, InitialSimilarityFilter);
  }

  lemma {:induction false} OriginsOfSubsequence(a: seq<MatchedProduct>, b: seq<MatchedProduct>)
    requires SubsequenceOf(a, b)
    ensures SubsequenceOf(Origins(a), Origins(b))
    decreases |b|
  {
    if a != [] {
      assert Origins(b)[1..] == Origins(b[1..]);
      if a[0] == b[0] {
        assert Origins(a)[1..] == Origins(a[1..]);
        OriginsOfSubsequence(a[1..], b[1..]);
      } else {
        OriginsOfSubsequence(a, b[1..]);
        if Origins(a)[0] == Origins(b)[0] {
          SubsequenceOfTail(Origins(a), Origins(b[1..]));
        }
      }
    }
  }

  /** With any value the slider can hold, every score shown is at least 50. */
  lemma SliderKeepsScoresAtLeastFifty(catalog: seq<Product>, results: seq<SearchResult>, similarityFilter: int)
    requires SliderValue(similarityFilter)
    ensures forall i :: 0 <= i < |MatchedProducts(catalog, results, similarityFilter)| ==>
      MatchedProducts(catalog, results, similarityFilter)[i].similarityScore >= 50
  {
    MatchedProductsSpec(catalog, results, similarityFilter);
  }

  /** Filtering by a stronger condition after a weaker one is filtering by
      the stronger one. */
  lemma {:induction false} FilterStronger(s: seq<MatchedProduct>, low: int, high: int)
    requires low <= high
    ensures Filter(Filter(s, AtLeast(low)), AtLeast(high)) == Filter(s, AtLeast(high))
  {
    if s != [] {
      FilterStronger(s[1..], low, high);
    }
  }

  /** Raising the slider shows a subsequence of what was shown before. */
  lemma RaisingThresholdShowsSubsequence(catalog: seq<Product>, results: seq<SearchResult>, low: int, high: int)
    requires low <= high
    ensures SubsequenceOf(MatchedProducts(catalog, results, high), MatchedProducts(catalog, results, low))
  {
    var joined := Join(catalog, results);
    FilterStronger(joined, low, high);
    FilterIsSubsequence(Filter(joined, AtLeast(low)), AtLeast(high));
  }

  /** Numeric ids, which the visual response schema asks for, never join the
      shipped catalog: with such results the view always shows nothing. */
  lemma NumericResultsShowNothing(results: seq<SearchResult>, similarityFilter: int)
    requires forall i :: 0 <= i < |results| ==> results[i].id.NumId?
    ensures MatchedProducts(Catalog.Products, results, similarityFilter) == []
  {
    NumericResultsJoinNothing(results);
  }

  lemma {:induction false} NumericResultsJoinNothing(results: seq<SearchResult>)
    requires forall i :: 0 <= i < |results| ==> results[i].id.NumId?
    ensures Join(Catalog.Products, results) == []
    decreases |results|
  {
    if results != [] {
      NumericIdNeverJoinsCatalog(results[0].id.n);
      NumericResultsJoinNothing(results[1..]);
    }
  }

  /** When every result names a product, the view shows exactly the results
      at or above the slider. */
  lemma FoundResultsAreShown(catalog: seq<Product>, results: seq<SearchResult>, similarityFilter: int)
    requires forall i :: 0 <= i < |results| ==> FindProduct(catalog, results[i].id).Some?
    ensures Origins(MatchedProducts(catalog, results, similarityFilter)) ==
            Filter(results, (r: SearchResult) => r.similarityScore >= similarityFilter)
  {
    OriginsOfMatched(catalog, results, similarityFilter);
    SameFilter(results, Qualifies(catalog, similarityFilter),
               (r: SearchResult) => r.similarityScore >= similarityFilter);
  }

  /** `id` is the id of some product of `catalog`. */
  predicate HasId(catalog: seq<Product>, id: ProductId)
  {
    exists k :: 0 <= k < |catalog| && catalog[k].id == id
  }

  lemma IdIsFound(catalog: seq<Product>, id: ProductId)
    requires HasId(catalog, id)
    ensures FindProduct(catalog, id).Some?
  {
    var k :| 0 <= k < |catalog| && catalog[k].id == id;
    assert FindIndex(catalog, id) <= k;
  }

  /** With ids as the catalog writes them, every result naming a catalog
      product reaches the view whenever its score is at or above the
      slider. */
  lemma NamedResultsAreShown(catalog: seq<Product>, results: seq<SearchResult>, similarityFilter: int)
    requires forall i :: 0 <= i < |results| ==> HasId(catalog, results[i].id)
    ensures Origins(MatchedProducts(catalog, results, similarityFilter)) ==
            Filter(results, (r: SearchResult) => r.similarityScore >= similarityFilter)
  {
    AllIdsFound(catalog, results);
    FoundResultsAreShown(catalog, results, similarityFilter);
  }

  lemma AllIdsFound(catalog: seq<Product>, results: seq<SearchResult>)
    requires forall i :: 0 <= i < |results| ==> HasId(catalog, results[i].id)
    ensures forall i :: 0 <= i < |results| ==> FindProduct(catalog, results[i].id).Some?
  {
    forall i | 0 <= i < |results| ensures FindProduct(catalog, results[i].id).Some? {
      IdIsFound(catalog, results[i].id);
    }
  }

  /** Two predicates that agree on every element filter alike. */
  lemma {:induction false} SameFilter(s: seq<SearchResult>, f: SearchResult -> bool, g: SearchResult -> bool)
    requires forall i :: 0 <= i < |s| ==> f(s[i]) == g(s[i])
    ensures Filter(s, f) == Filter(s, g)
  {
    if s != [] {
      assert forall i :: 1 <= i < |s| ==> s[1..][i - 1] == s[i];
      SameFilter(s[1..], f, g);
    }
  }

  lemma JoinCons(catalog: seq<Product>, x: SearchResult, rest: seq<SearchResult>, p: Product)
    requires FindProduct(catalog, x.id) == Some(p)
    ensures Join(catalog, [x] + rest) == [MatchedProduct(p, x.similarityScore)] + Join(catalog, rest)
  {
    assert ([x] + rest)[1..] == rest;
  }

  /** Five results joined against products the catalog finds by id, with
      the slider at 70: the entries scored 95, 80 and 72 are shown, in the
      results' order, and those scored 60 and 40 are not. */
  lemma FiveResultScenario(catalog: seq<Product>, a: Product, b: Product, c: Product, d: Product, e: Product)
    requires FindProduct(catalog, a.id) == Some(a) && FindProduct(catalog, b.id) == Some(b)
    requires FindProduct(catalog, c.id) == Some(c) && FindProduct(catalog, d.id) == Some(d)
    requires FindProduct(catalog, e.id) == Some(e)
    ensures MatchedProducts(catalog, [SearchResult(a.id, 95), SearchResult(b.id, 80), SearchResult(c.id, 60),
                                      SearchResult(d.id, 40), SearchResult(e.id, 72)], 70) ==
            [MatchedProduct(a, 95), MatchedProduct(b, 80), MatchedProduct(e, 72)]
  {
    var s1, s2, s3, s4, s5 := SearchResult(a.id, 95), SearchResult(b.id, 80), SearchResult(c.id, 60),
                              SearchResult(d.id, 40), SearchResult(e.id, 72);
    JoinFive(catalog, s1, s2, s3, s4, s5, a, b, c, d, e);
    KeepFirstSecondFifth(MatchedProduct(a, 95), MatchedProduct(b, 80), MatchedProduct(c, 60),
                         MatchedProduct(d, 40), MatchedProduct(e, 72), AtLeast(70));
  }

  lemma JoinFive(catalog: seq<Product>, s1: SearchResult, s2: SearchResult, s3: SearchResult, s4: SearchResult,
                 s5: SearchResult, a: Product, b: Product, c: Product, d: Product, e: Product)
    requires FindProduct(catalog, s1.id) == Some(a) && FindProduct(catalog, s2.id) == Some(b)
    requires FindProduct(catalog, s3.id) == Some(c) && FindProduct(catalog, s4.id) == Some(d)
    requires FindProduct(catalog, s5.id) == Some(e)
    ensures Join(catalog, [s1, s2, s3, s4, s5]) ==
            [MatchedProduct(a, s1.similarityScore), MatchedProduct(b, s2.similarityScore),
             MatchedProduct(c, s3.similarityScore), MatchedProduct(d, s4.similarityScore),
             MatchedProduct(e, s5.similarityScore)]
  {
    var m5 := MatchedProduct(e, s5.similarityScore);
    var m4 := MatchedProduct(d, s4.similarityScore);
    var m3 := MatchedProduct(c, s3.similarityScore);
    var m2 := MatchedProduct(b, s2.similarityScore);
    assert Join(catalog, [s5]) == [m5] by {
      assert [s5] == [s5] + [];
      JoinCons(catalog, s5, [], e);
    }
    assert Join(catalog, [s4, s5]) == [m4, m5] by {
      assert [s4, s5] == [s4] + [s5];
      JoinCons(catalog, s4, [s5], d);
    }
    assert Join(catalog, [s3, s4, s5]) == [m3, m4, m5] by {
      assert [s3, s4, s5] == [s3] + [s4, s5];
      JoinCons(catalog, s3, [s4, s5], c);
    }
    assert Join(catalog, [s2, s3, s4, s5]) == [m2, m3, m4, m5] by {
      assert [s2, s3, s4, s5] == [s2] + [s3, s4, s5];
      JoinCons(catalog, s2, [s3, s4, s5], b);
    }
    assert [s1, s2, s3, s4, s5] == [s1] + [s2, s3, s4, s5];
    JoinCons(catalog, s1, [s2, s3, s4, s5], a);
  }

  lemma KeepFirstSecondFifth(m1: MatchedProduct, m2: MatchedProduct, m3: MatchedProduct, m4: MatchedProduct,
                             m5: MatchedProduct, keep: MatchedProduct -> bool)
    requires keep(m1) && keep(m2) && !keep(m3) && !keep(m4) && keep(m5)
    ensures Filter([m1, m2, m3, m4, m5], keep) == [m1, m2, m5]
  {
    KeepSecondFifth(m2, m3, m4, m5, keep);
    assert [m1, m2, m3, m4, m5][1..] == [m2, m3, m4, m5];
    assert [m1] + [m2, m5] == [m1, m2, m5];
  }

  lemma KeepSecondFifth(m2: MatchedProduct, m3: MatchedProduct, m4: MatchedProduct, m5: MatchedProduct,
                        keep: MatchedProduct -> bool)
    requires keep(m2) && !keep(m3) && !keep(m4) && keep(m5)
    ensures Filter([m2, m3, m4, m5], keep) == [m2, m5]
  {
    DropTwoKeepLast(m3, m4, m5, keep);
    assert [m2, m3, m4, m5][1..] == [m3, m4, m5];
    assert [m2] + [m5] == [m2, m5];
  }

  lemma DropTwoKeepLast(m3: MatchedProduct, m4: MatchedProduct, m5: MatchedProduct, keep: MatchedProduct -> bool)
    requires !keep(m3) && !keep(m4) && keep(m5)
    ensures Filter([m3, m4, m5], keep) == [m5]
  {
    assert [m5][1..] == [];
    assert Filter([m5], keep) == [m5];
    assert [m4, m5][1..] == [m5];
    assert Filter([m4, m5], keep) == [m5];
    assert [m3, m4, m5][1..] == [m4, m5];
  }

  /** The same scenario on the shipped catalog, with the ids `p1`..`p5`. */
  lemma ThresholdScenario()
    ensures MatchedProducts(Catalog.Products,
              [SearchResult(StrId("p1"), 95), SearchResult(StrId("p2"), 80), SearchResult(StrId("p3"), 60),
               SearchResult(StrId("p4"), 40), SearchResult(StrId("p5"), 72)], 70) ==
            [MatchedProduct(Catalog.Products[0], 95), MatchedProduct(Catalog.Products[1], 80),
             MatchedProduct(Catalog.Products[4], 72)]
  {
    Catalog.CatalogSize();
    Catalog.IdsInOrder();
    var ps := Catalog.Products;
    assert ps[0].id == StrId("p1") by { assert NatToString(1) == "1"; }
    assert ps[1].id == StrId("p2") by { assert NatToString(2) == "2"; }
    assert ps[2].id == StrId("p3") by { assert NatToString(3) == "3"; }
    assert ps[3].id == StrId("p4") by { assert NatToString(4) == "4"; }
    assert ps[4].id == StrId("p5") by { assert NatToString(5) == "5"; }
    CatalogIdFindsItsProduct(0);
    CatalogIdFindsItsProduct(1);
    CatalogIdFindsItsProduct(2);
    CatalogIdFindsItsProduct(3);
    CatalogIdFindsItsProduct(4);
    FiveResultScenario(ps, ps[0], ps[1], ps[2], ps[3], ps[4]);
  }

  // ---------------------------------------------------------------------
  // What the view renders

  /** `Found N similar product`, with an `s` exactly when N is not 1. */
  function CountLabel(n: nat): string
  {
    "Found " + NatToString(n) + " similar product" + (if n != 1 then "s" else "") + "."
  }

  /** The number of leading decimal digits of `s`. */
  function DigitRun(s: string): (k: nat)
    ensures k <= |s| && forall i :: 0 <= i < k ==> IsDigit(s[i])
    ensures k < |s| ==> !IsDigit(s[k])
  {
    if s == [] || !IsDigit(s[0]) then 0 else 1 + DigitRun(s[1..])
  }

  /** The count a label states: the digits after `Found `. */
  function LabelCount(text: string): nat
    requires |text| >= 6
  {
    var digits := text[6..];
    ParseNat(digits[..DigitRun(digits)])
  }

  lemma {:induction false} DigitRunOfNumberThenSpace(d: string, rest: string)
    requires forall i :: 0 <= i < |d| ==> IsDigit(d[i])
    requires rest != [] && rest[0] == ' '
    ensures DigitRun(d + rest) == |d|
    decreases |d|
  {
    if d != [] {
      assert (d + rest)[1..] == d[1..] + rest;
      DigitRunOfNumberThenSpace(d[1..], rest);
    } else {
      assert d + rest == rest;
    }
  }

  /** The label states the count it was made from, and ends in `products.`
      exactly when that count is not one. */
  lemma CountLabelSpec(n: nat)
    ensures LabelCount(CountLabel(n)) == n
    ensures |CountLabel(n)| >= 2 && (CountLabel(n)[|CountLabel(n)| - 2] == 's' <==> n != 1)
  {
    var shown := CountLabel(n);
    var digits := NatToString(n);
    var rest := " similar product" + (if n != 1 then "s" else "") + ".";
    assert shown == "Found " + (digits + rest);
    assert shown[6..] == digits + rest;
    DigitRunOfNumberThenSpace(digits, rest);
    assert (digits + rest)[..|digits|] == digits;
    ParseNatToString(n);
  }

  /** The slider is rendered only when the model returned results. */
  predicate ShowsSlider(results: seq<SearchResult>)
  {
    |results| > 0
  }

  /** `No Matches Found` is rendered when nothing passes the join and filter. */
  predicate ShowsNoMatches(catalog: seq<Product>, results: seq<SearchResult>, similarityFilter: int)
  {
    MatchedProducts(catalog, results, similarityFilter) == []
  }

  lemma {:induction false} JoinEmptyIff(catalog: seq<Product>, results: seq<SearchResult>, similarityFilter: int)
    ensures Filter(Join(catalog, results), AtLeast(similarityFilter)) == [] <==>
      forall i :: 0 <= i < |results| ==>
        FindProduct(catalog, results[i].id) == None || results[i].similarityScore < similarityFilter
    decreases |results|
  {
    if results != [] {
      JoinEmptyIff(catalog, results[1..], similarityFilter);
      assert forall i :: 1 <= i < |results| ==> results[i] == results[1..][i - 1];
    }
  }

  /** `No Matches Found` appears exactly when every result is an orphan or
      below the slider; in particular whenever the slider is hidden. */
  lemma NoMatchesIff(catalog: seq<Product>, results: seq<SearchResult>, similarityFilter: int)
    ensures ShowsNoMatches(catalog, results, similarityFilter) <==>
      forall i :: 0 <= i < |results| ==>
        FindProduct(catalog, results[i].id) == None || results[i].similarityScore < similarityFilter
    ensures !ShowsSlider(results) ==> ShowsNoMatches(catalog, results, similarityFilter)
  {
    JoinEmptyIff(catalog, results, similarityFilter);
  }
}
