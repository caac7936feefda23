/**
 * The boundary to the four web services. A request is what the clients
 * hand to `requests.Session` (verb, URL, query parameters or JSON body,
 * and the ledger's session cookie); a response is what they read back
 * (status code, the body parsed as JSON when it parses, the raw text).
 * The services themselves are one oracle, `Server`, that answers each
 * request given every request sent before it, so any server-side state
 * is allowed.
 */
module Http {
  import opened PyJson
  import opened PyText

  datatype Verb = GET | POST

  /**
   * One HTTP request. For a GET, `payload` is the query-parameter dict;
   * for a POST, the JSON body. `sessionCookie` is the `PHPSESSID` cookie.
   */
  datatype Request = Request(
    verb: Verb,
    url: string,
    payload: map<string, Json>,
    sessionCookie: Option<string>)

  /** `json` is `None` exactly when `.json()` would raise. */
  datatype Response = Response(status: int, json: Option<Json>, text: string)

  /** The remote services: the answer to a request, given every request sent before it. */
  type Server = (seq<Request>, Request) -> Response

  /** `requests`' `.json()`: the parsed body, or the `ValueError` it raises. */
  function ParsedBody(resp: Response): (r: Result<Json>)
    ensures r.Ok? <==> resp.json.Some?
    ensures r.Ok? ==> r.value == resp.json.value
  {
    match resp.json
    case Some(j) => Ok(j)
    case None => Err(ValueError)
  }

  /**
   * `urllib.parse.quote(s, safe)` and `urllib.parse.unquote(s)`, percent-
   * encoding as section 2.1 of RFC 3986 describes, taken as given functions.
   */
  datatype Codec = Codec(quote: (string, string) -> string, unquote: string -> string)

  const CommonsApiUrl: string := "https://commons.wikimedia.org/w/api.php"
  const WikidataApiUrl: string := "https://www.wikidata.org/w/api.php"
  const WikidataSparqlUrl: string := "https://query.wikidata.org/sparql"
  const PetScanUrl: string := "https://petscan.wmcloud.org/"
  const DepictorApiUrl: string := "https://hay.toolforge.org/depictor/api/index.php"
}
