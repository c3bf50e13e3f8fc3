/** The direct-mode search: the whole catalog, reduced to its text fields,
    is sent with the image in one request, and the reply's `matches` list is
    returned as the model wrote it. */
module DirectSearch {
  import opened Types

  const EmptyResponseMessage := "Empty response from Gemini"

  /** The `TypeError` a JavaScript engine raises for `null.matches`; its
      wording depends on the engine. */
  const NullMatchesMessage := "Cannot read properties of null (reading 'matches')"

  /** What the request carries for each product: every field but the image. */
  datatype ProductContext = ProductContext(
    id: ProductId,
    name: string,
    category: string,
    description: string,
    priceCents: int)

  /** `productContext`: one entry per product, in catalog order, with the
      product's id, name, category, description and price. */
  function ProductContexts(allProducts: seq<Product>): (r: seq<ProductContext>)
    ensures |r| == |allProducts|
    ensures forall i :: 0 <= i < |r| ==>
      r[i].id == allProducts[i].id && r[i].name == allProducts[i].name &&
      r[i].category == allProducts[i].category && r[i].description == allProducts[i].description &&
      r[i].priceCents == allProducts[i].priceCents
  {
    seq(|allProducts|, i requires 0 <= i < |allProducts| =>
      var p := allProducts[i];
      ProductContext(p.id, p.name, p.category, p.description, p.priceCents))
  }

  function ImageUrls(allProducts: seq<Product>): (r: seq<string>)
    ensures |r| == |allProducts| && forall i :: 0 <= i < |r| ==> r[i] == allProducts[i].imageUrl
  {
    seq(|allProducts|, i requires 0 <= i < |allProducts| => allProducts[i].imageUrl)
  }

  /** Puts image references back onto reduced entries. */
  function WithImages(contexts: seq<ProductContext>, imageUrls: seq<string>): (r: seq<Product>)
    requires |contexts| == |imageUrls|
    ensures |r| == |contexts|
  {
    seq(|contexts|, i requires 0 <= i < |contexts| =>
      var c := contexts[i];
      Product(c.id, c.name, c.category, c.priceCents, imageUrls[i], c.description))
  }

  /** The reduction loses only the image references: putting them back
      restores the catalog. */
  lemma ProductContextsLoseOnlyImages(allProducts: seq<Product>)
    ensures WithImages(ProductContexts(allProducts), ImageUrls(allProducts)) == allProducts
  {
  }

  /** Two catalogs with the same reduction differ at most in their images. */
  lemma SameContextsSameProductsUpToImages(a: seq<Product>, b: seq<Product>)
    requires ProductContexts(a) == ProductContexts(b)
    ensures |a| == |b|
    ensures forall i :: 0 <= i < |a| ==> a[i].imageUrl == b[i].imageUrl ==> a[i] == b[i]
  {
    assert |ProductContexts(a)| == |a| && |ProductContexts(b)| == |b|;
    forall i | 0 <= i < |a| && a[i].imageUrl == b[i].imageUrl ensures a[i] == b[i] {
      assert ProductContexts(a)[i] == ProductContexts(b)[i];
    }
  }

  /** One match as the direct-mode response schema describes it. */
  datatype MatchResult = MatchResult(productId: string, similarityScore: int, reason: string)

  /** What `JSON.parse` yields, as far as the code looks at it: `null`, or a
      value whose `matches` property is either a list of matches or falsy
      (absent, `null`, ...). */
  datatype ParsedResponse = NullValue | JsonValue(matches: Option<seq<MatchResult>>)

  /** The handling of the direct-mode reply. `call` is the model call
      (`Failure` when it throws, `Success(None)` when `response.text` is
      absent), `parse` is `JSON.parse` (`Failure` when it throws). Every
      failure reaches the caller, since the `catch` only logs and rethrows. */
  function HandleDirectResponse(call: Result<Option<string>>, parse: string -> Result<ParsedResponse>): (r: Result<seq<MatchResult>>)
    ensures call.Failure? ==> r == Failure(call.message)
    ensures call.Success? && (call.value.None? || call.value.value == "") ==> r == Failure(EmptyResponseMessage)
    ensures call.Success? && call.value.Some? && call.value.value != "" && parse(call.value.value).Failure? ==>
      r == Failure(parse(call.value.value).message)
    ensures call.Success? && call.value.Some? && call.value.value != "" && parse(call.value.value) == Success(NullValue) ==>
      r == Failure(NullMatchesMessage)
    ensures r.Success? <==>
      call.Success? && call.value.Some? && call.value.value != "" &&
      parse(call.value.value).Success? && parse(call.value.value).value.JsonValue?
    ensures r.Success? ==>
      var matches := parse(call.value.value).value.matches;
      r.value == (if matches.Some? then matches.value else [])
  {
    match call
    case Failure(message) => Failure(message)
    case Success(text) =>
      if text.None? || text.value == "" then Failure(EmptyResponseMessage)
      else
        match parse(text.value)
        case Failure(message) => Failure(message)
        case Success(NullValue) => Failure(NullMatchesMessage)
        case Success(JsonValue(None)) => Success([])
        case Success(JsonValue(Some(matches))) => Success(matches)
  }

  /** Nothing is trimmed: a reply of white space alone is not empty, so it
      reaches `JSON.parse`, and its outcome is whatever parsing gives. */
  lemma WhitespaceReplyIsParsed(parse: string -> Result<ParsedResponse>)
    ensures parse(" ").Failure? ==> HandleDirectResponse(Success(Some(" ")), parse) == Failure(parse(" ").message)
    ensures parse(" ").Success? && parse(" ").value.JsonValue? ==> HandleDirectResponse(Success(Some(" ")), parse).Success?
  {
  }
}
