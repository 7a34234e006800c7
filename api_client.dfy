/**
 * The browser's API client: it builds the request URL from a base URL and
 * a path, and turns a failed response into an error.
 */
module ApiClient {
  import opened Wrappers

  /** The base URL in development builds (the leading space is part of it). */
  const DevBaseUrl: string := " http://localhost:3001/api"

  /** The message of the error raised for a response that is not ok. */
  const NetworkError: string := "Network error"

  /** A response as the client sees it: `ok` and the result of decoding its JSON body. */
  datatype HttpResponse<T> = HttpResponse(ok: bool, json: Result<T, string>)

  /** What `fetch` did: it produced a response or rejected with an error message. */
  datatype FetchOutcome<T> = Responded(response: HttpResponse<T>) | Rejected(reason: string)

  /** The anchor `^\/\/`: the path begins with two slashes. */
  predicate StartsWithDoubleSlash(url: string)
  {
    |url| >= 2 && url[..2] == "//"
  }

  /** `url.replace(/^\/\//, '/')`: a leading `//` becomes a single `/`. */
  function NormalizePath(url: string): (r: string)
    ensures StartsWithDoubleSlash(url) ==> |r| == |url| - 1 && url == "/" + r && r[0] == '/'
    ensures !StartsWithDoubleSlash(url) ==> r == url
  {
    if StartsWithDoubleSlash(url) then "/" + url[2..] else url
  }

  /** Normalising twice gives the same as once exactly when the path does not start with `///`. */
  lemma NormalizeIdempotentUnlessTripleSlash(url: string)
    ensures (NormalizePath(NormalizePath(url)) == NormalizePath(url)) <==> !(|url| >= 3 && url[..3] == "///")
  {
  }

  /** Only one leading pair is collapsed: `///x` becomes `//x`, and normalising that again gives `/x`. */
  lemma NormalizeNotIdempotent()
    ensures NormalizePath("///x") == "//x"
    ensures NormalizePath(NormalizePath("///x")) == "/x"
  {
  }

  /** The client; `baseUrl` is fixed when it is created. */
  datatype Client = Client(baseUrl: string)
  {
    /** The URL requested for `url`: the base URL followed by the normalised path. */
    function FullUrl(url: string): (r: string)
      ensures |r| == |baseUrl| + |NormalizePath(url)|
      ensures r[..|baseUrl|] == baseUrl && r[|baseUrl|..] == NormalizePath(url)
    {
      baseUrl + NormalizePath(url)
    }

    /**
     * `get(url)`: fetch the full URL; a rejection propagates, a response that
     * is not ok raises "Network error", otherwise the decoded body is returned.
     */
    function Get<T>(url: string, fetch: string -> FetchOutcome<T>): (r: Result<T, string>)
      ensures fetch(FullUrl(url)).Rejected? ==> r == Failure(fetch(FullUrl(url)).reason)
      ensures fetch(FullUrl(url)).Responded? ==>
                var response := fetch(FullUrl(url)).response;
                r == if response.ok then response.json else Failure(NetworkError)
    {
      match fetch(FullUrl(url))
      case Rejected(reason) => Failure(reason)
      case Responded(response) => if response.ok then response.json else Failure(NetworkError)
    }
  }

  /** The client as built: the development base URL in development builds, empty otherwise. */
  function NewClient(dev: bool): (c: Client)
    ensures dev ==> c.baseUrl == DevBaseUrl && c.FullUrl("//x") == " http://localhost:3001/api/x"
    ensures !dev ==> forall url :: c.FullUrl(url) == NormalizePath(url)
  {
    var c := Client(if dev then DevBaseUrl else "");
    assert dev ==> c.FullUrl("//x") == DevBaseUrl + "/x" by {
      assert StartsWithDoubleSlash("//x");
    }
    c
  }
}
