/**
 * The client of the knowledge base (Wikidata): the check for an image
 * claim (P18) on an item, and the SPARQL lookup of the item whose Commons
 * category (P373) is a given name.
 */
module WikidataClient {
  import opened PyText
  import opened PyJson
  import opened Http
  import opened Descriptors

  // -------------------------------------------------------------- hasImageClaim

  /** `hasImageClaim`, the request: the claims of exactly the given item. */
  function HasImageClaimRequest(qId: string): (req: Request)
    ensures req.verb == GET && req.url == WikidataApiUrl && req.sessionCookie.None?
    ensures req.payload == map[
      "action" := Str("wbgetentities"), "ids" := Str(qId), "props" := Str("claims"), "format" := Str("json")]
  {
    Request(GET, WikidataApiUrl,
            map["action" := Str("wbgetentities"), "ids" := Str(qId), "props" := Str("claims"), "format" := Str("json")],
            None)
  }

  /** `d.get(key, {})` on a well-formed answer: the dict under `key`, or an empty one when it is missing. */
  function ObjectAt(fields: map<string, Json>, key: string): Option<map<string, Json>> {
    if key !in fields then Some(map[])
    else if fields[key].Obj? then Some(fields[key].fields)
    else None
  }

  /**
   * The claims of `qId` in a well-formed answer (every level that is
   * present is a dict), with missing levels read as empty dicts.
   */
  function ClaimsOf(resp: Response, qId: string): Option<map<string, Json>> {
    if resp.json.Some? && resp.json.value.Obj? then
      match ObjectAt(resp.json.value.fields, "entities")
      case None => None
      case Some(entities) =>
        match ObjectAt(entities, qId)
        case None => None
        case Some(item) => ObjectAt(item, "claims")
    else None
  }

  /** `hasImageClaim`, the answer: `'P18' in response['entities'][qId]['claims']`, each level defaulting to `{}`. */
  function HasImageClaim(qId: string, resp: Response): (r: Result<bool>)
    ensures resp.json.None? ==> r == Err(ValueError)
    ensures ClaimsOf(resp, qId).Some? ==> r == Ok("P18" in ClaimsOf(resp, qId).value)
    ensures r == Ok(true) ==> resp.json.Some? && resp.json.value.Obj? && "entities" in resp.json.value.fields
  {
    var response :- ParsedBody(resp);
    var entities :- Get(response, "entities", Obj(map[]));
    var itemData :- Get(entities, qId, Obj(map[]));
    var claims :- Get(itemData, "claims", Obj(map[]));
    Contains(claims, "P18")
  }

  // --------------------------------------------------- getItemForCommonsCategory

  /** The SPARQL query text, byte for byte as the f-string renders it. */
  function SparqlQuery(categoryName: string): string {
    "\n            select ?item ?image ?cat where {\n"
    + "              ?item wdt:P18 ?image;\n"
    + "                    wdt:P373 \"" + categoryName + "\";\n"
    + "                    wdt:P373 ?cat.\n"
    + "            }\n        "
  }

  /** `getItemForCommonsCategory`, the request: the query as the only parameter besides the format. */
  function ItemForCategoryRequest(categoryName: string): (req: Request)
    ensures req.verb == GET && req.url == WikidataSparqlUrl && req.sessionCookie.None?
    ensures req.payload == map["format" := Str("json"), "query" := Str(SparqlQuery(categoryName))]
  {
    Request(GET, WikidataSparqlUrl, map["format" := Str("json"), "query" := Str(SparqlQuery(categoryName))], None)
  }

  /** `response['results']['bindings']`, when the answer is a dict holding a dict holding it. */
  function Bindings(resp: Response): Option<Json> {
    if resp.json.Some? && resp.json.value.Obj? && "results" in resp.json.value.fields then
      var results := resp.json.value.fields["results"];
      if results.Obj? && "bindings" in results.fields then Some(results.fields["bindings"]) else None
    else None
  }

  /** The answer is a dict that lacks `results`, or whose `results` is a dict without `bindings`. */
  predicate LacksBindings(resp: Response) {
    && resp.json.Some? && resp.json.value.Obj?
    && ("results" !in resp.json.value.fields
        || (resp.json.value.fields["results"].Obj? && "bindings" !in resp.json.value.fields["results"].fields))
  }

  /** `bindings[0].get('item', {}).get('value')` along dicts: the item URI of the first binding. */
  function FirstItemValue(resp: Response): Option<Json> {
    match Bindings(resp)
    case Some(Arr(b)) =>
      if b != [] && b[0].Obj? then
        var item := if "item" in b[0].fields then b[0].fields["item"] else Obj(map[]);
        if item.Obj? then Some(if "value" in item.fields then item.fields["value"] else Null) else None
      else None
    case _ => None
  }

  /**
   * `getItemForCommonsCategory`, the answer: the item of the first binding,
   * its QID taken from the end of the item URI, titled with the name asked
   * for; or one of the four failures.
   */
  function ItemForCategory(categoryName: string, resp: Response): (r: Result<CategoryDescriptor>)
    ensures LacksBindings(resp) ==> r == Err(InvalidSparqlResponse(resp.json.value))
    ensures Bindings(resp) == Some(Arr([])) ==> r == Err(NoSparqlResults(categoryName))
    ensures FirstItemValue(resp).Some? && !Truthy(FirstItemValue(resp).value) ==> r == Err(NoSparqlItem(categoryName))
    ensures FirstItemValue(resp).Some? && FirstItemValue(resp).value.Str? && FirstItemValue(resp).value.s != []
            && !StartsWith(LastSegment(FirstItemValue(resp).value.s, '/'), "Q")
            ==> r == Err(InvalidQid(LastSegment(FirstItemValue(resp).value.s, '/'), FirstItemValue(resp).value.s))
    ensures r.Ok? <==>
      && FirstItemValue(resp).Some? && FirstItemValue(resp).value.Str? && FirstItemValue(resp).value.s != []
      && StartsWith(LastSegment(FirstItemValue(resp).value.s, '/'), "Q")
    ensures r.Ok? ==> r.value == CategoryDescriptor(LastSegment(FirstItemValue(resp).value.s, '/'), categoryName)
  {
    var response :- ParsedBody(resp);
    var hasResults :- Contains(response, "results");
    if !hasResults then Err(InvalidSparqlResponse(response))
    else
      var results :- Index(response, "results");
      var hasBindings :- Contains(results, "bindings");
      if !hasBindings then Err(InvalidSparqlResponse(response))
      else
        var bindings :- Index(results, "bindings");
        if !Truthy(bindings) then Err(NoSparqlResults(categoryName))
        else
          var binding :- First(bindings);
          var item :- Get(binding, "item", Obj(map[]));
          var itemUri :- Get(item, "value", Null);
          if !Truthy(itemUri) then Err(NoSparqlItem(categoryName))
          else match itemUri
            case Str(uri) =>
              var qId := LastSegment(uri, '/');
              if StartsWith(qId, "Q") then Ok(CategoryDescriptor(qId, categoryName))
              else Err(InvalidQid(qId, uri))
            case _ => Err(AttributeError)
  }

  /** A successful lookup yields a QID that starts with `Q`, holds no `/`, and ends the item URI. */
  lemma ResolvedQidShape(categoryName: string, resp: Response)
    requires ItemForCategory(categoryName, resp).Ok?
    ensures var d := ItemForCategory(categoryName, resp).value;
      && d.title == categoryName
      && StartsWith(d.qId, "Q") && '/' !in d.qId
      && exists uri :: FirstItemValue(resp) == Some(Str(uri)) && d.qId == uri[|uri| - |d.qId|..]
  {
    var uri := FirstItemValue(resp).value.s;
    assert FirstItemValue(resp) == Some(Str(uri));
  }
}
