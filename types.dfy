/** Record shapes shared by the catalog, the search service and the views. */
module Types {

  datatype Option<T> = None | Some(value: T)

  /** The outcome of an operation that may throw: `Failure` carries the
      message of the thrown `Error`. */
  datatype Result<T> = Success(value: T) | Failure(message: string)

  /** Product identifiers. The catalog writes string ids (`'p1'`), the
      visual response schema declares numeric ids, and the join between the
      two uses strict equality, under which a number never equals a string. */
  datatype ProductId = NumId(n: int) | StrId(s: string)

  /** A catalog record; the price is held in integer cents. */
  datatype Product = Product(
    id: ProductId,
    name: string,
    category: string,
    priceCents: int,
    imageUrl: string,
    description: string)

  /** One entry of the visual-mode model response. */
  datatype SearchResult = SearchResult(id: ProductId, similarityScore: int)

  /** The user's image: encoded bytes, declared MIME type and the reference
      used for display (a data URL or a remote URL). */
  datatype ImageData = ImageData(base64: string, mimeType: string, url: string)
}
