/** The page state of the application and the transitions its two handlers
    make, with what the page renders in each state. */
module App {
  import opened Types
  import VisualSearch

  const SearchFailedMessage :=
    "Failed to find matching products. The model may be unavailable or the image format is not supported. Please try again."

  /** A `string | null` in a JSX condition: null and the empty string are
      falsy, every other string is truthy. */
  predicate Truthy(s: Option<string>)
  {
    s.Some? && s.value != ""
  }

  /** The four pieces of page state. */
  class SearchSession {
    var userImage: Option<string>
    var searchResults: Option<seq<SearchResult>>
    var isLoading: bool
    var error: Option<string>

    /** The states the handlers can reach: a search in flight has neither
        results nor an error, and results and an error never coexist. */
    ghost predicate Valid()
      reads this
    {
      !(searchResults.Some? && error.Some?) &&
      (isLoading ==> searchResults.None? && error.None?)
    }

    /** The introduction and the uploader are shown while there is no image. */
    predicate ShowsUploader()
      reads this
    {
      !Truthy(userImage)
    }

    /** The uploader is disabled while a search is running. */
    predicate UploaderDisabled()
      reads this
    {
      isLoading
    }

    predicate ShowsLoader()
      reads this
    {
      isLoading
    }

    /** The error banner, with its `Try Again` button. */
    predicate ShowsError()
      reads this
    {
      Truthy(error)
    }

    /** The results view needs a settled search, no error, results and an
        image. */
    predicate ShowsResults()
      reads this
    {
      !isLoading && !Truthy(error) && searchResults.Some? && Truthy(userImage)
    }

    /** The initial state: nothing selected, nothing running. */
    constructor()
      ensures userImage == None && searchResults == None && !isLoading && error == None
      ensures Valid()
      ensures ShowsUploader() && !UploaderDisabled() && !ShowsLoader() && !ShowsError() && !ShowsResults()
    {
      userImage := None;
      searchResults := None;
      isLoading := false;
      error := None;
    }

    /** The synchronous start of `handleSearch`: loading, the previous error
        and results cleared, the new image shown. */
    method BeginSearch(image: ImageData)
      modifies this
      ensures isLoading && error == None && searchResults == None && userImage == Some(image.url)
      ensures Valid()
      ensures ShowsLoader() && UploaderDisabled() && !ShowsError() && !ShowsResults()
      ensures ShowsUploader() <==> image.url == ""
    {
      isLoading := true;
      error := None;
      searchResults := None;
      userImage := Some(image.url);
    }

    /** The end of `handleSearch`: results on success, the fixed message on
        any failure, and loading off either way. */
    method SettleSearch(outcome: Result<seq<SearchResult>>)
      requires Valid() && isLoading
      modifies this
      ensures !isLoading && userImage == old(userImage)
      ensures outcome.Success? ==> searchResults == Some(outcome.value) && error == None
      ensures outcome.Failure? ==> searchResults == None && error == Some(SearchFailedMessage)
      ensures Valid() && !ShowsLoader() && !UploaderDisabled()
      ensures ShowsError() <==> outcome.Failure?
      ensures ShowsResults() <==> outcome.Success? && Truthy(userImage)
    {
      match outcome {
        case Success(results) =>
          searchResults := Some(results);
        case Failure(_) =>
          error := Some(SearchFailedMessage);
      }
      isLoading := false;
    }

    /** `handleSearch`: start, run the visual search as written, settle.
        `outcome` and `request` are what the search returned and sent. The
        list the search returned is stored, even when it is empty, so the
        results view (with its `No Matches Found` panel) appears for any
        image with a non-empty reference; on any failure only the fixed
        message is stored, never the search's own message. */
    method HandleSearch(
      image: ImageData,
      catalog: seq<Product>,
      categoryAnswer: Option<string>,
      shuffle: seq<Product> -> seq<Product>,
      fetch: string -> VisualSearch.Encoded,
      generate: seq<VisualSearch.Part> -> Result<Option<string>>,
      parse: string -> Option<seq<SearchResult>>)
      returns (outcome: Result<seq<SearchResult>>, request: Option<seq<VisualSearch.Part>>)
      modifies this
      ensures VisualSearch.ComparedAgainst(image,
                VisualSearch.CandidatePool(catalog, VisualSearch.CategorizeImage(catalog, categoryAnswer)),
                shuffle, fetch, generate, parse, outcome, request)
      ensures searchResults == (if outcome.Success? then Some(outcome.value) else None)
      ensures error == (if outcome.Success? then None else Some(SearchFailedMessage))
      ensures !isLoading && userImage == Some(image.url) && Valid()
      ensures searchResults.Some? ==> VisualSearch.SortedByScore(searchResults.value)
      ensures ShowsError() <==> outcome.Failure?
      ensures ShowsResults() <==> outcome.Success? && image.url != ""
      ensures ShowsUploader() <==> image.url == ""
    {
      BeginSearch(image);
      outcome, request := VisualSearch.FindSimilarProducts(image, catalog, categoryAnswer, shuffle, fetch, generate, parse);
      SettleSearch(outcome);
    }

    /** `handleReset`: back to the initial state. */
    method HandleReset()
      modifies this
      ensures userImage == None && searchResults == None && error == None && !isLoading
      ensures Valid()
      ensures ShowsUploader() && !UploaderDisabled() && !ShowsLoader() && !ShowsError() && !ShowsResults()
    {
      userImage := None;
      searchResults := None;
      error := None;
      isLoading := false;
    }
  }
}
