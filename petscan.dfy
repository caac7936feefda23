/**
 * The client of the category-hierarchy service (PetScan): one lookup of
 * the subcategories of a category down to a depth, read from the fixed
 * path `response['*'][0]['a']['*']` of its answer.
 */
module PetScanClient {
  import opened PyText
  import opened PyJson
  import opened Http
  import opened Descriptors

  /** `getSubcategories`, the request: underscores become spaces; the depth goes through unchanged. */
  function SubcategoriesRequest(categoryName: string, depth: int): (req: Request)
    ensures req.verb == GET && req.url == PetScanUrl && req.sessionCookie.None?
    ensures "categories" in req.payload && req.payload["categories"] == Str(ReplaceChar(categoryName, '_', ' '))
    ensures "depth" in req.payload && req.payload["depth"] == Int(depth)
    ensures "ns[14]" in req.payload && req.payload["ns[14]"] == Int(1)
    ensures "wikidata_item" in req.payload && req.payload["wikidata_item"] == Str("with")
  {
    Request(GET, PetScanUrl,
            map[
              "categories" := Str(ReplaceChar(categoryName, '_', ' ')),
              "depth" := Int(depth),
              "wikidata_item" := Str("with"),
              "project" := Str("wikimedia"),
              "language" := Str("commons"),
              "format" := Str("json"),
              "ns[14]" := Int(1),
              "search_max_results" := Int(500),
              "doit" := Int(1)],
            None)
  }

  /** One step of the comprehension: keep `item` when `'q' in item and 'title' in item`. */
  function ItemStep(item: Json): (r: Result<Option<CategoryDescriptor>>)
    ensures item.Obj? ==> r.Ok? && (r.value.Some? <==> "q" in item.fields && "title" in item.fields)
    ensures item.Obj? && r.value.Some? ==>
      r.value.value == CategoryDescriptor(PyStr(item.fields["q"]), PyStr(item.fields["title"]))
    ensures item.Str? ==> r == Ok(None) || r == Err(TypeError)
  {
    var hasQ :- Contains(item, "q");
    // `and` short-circuits; once `'q' in item` succeeded, `'title' in item` cannot raise
    if !hasQ || !Contains(item, "title").value then Ok(None)
    else match item
      case Obj(m) => Ok(Some(CategoryDescriptor(PyStr(m["q"]), PyStr(m["title"]))))
      case _ => Err(TypeError)  // `item['q']` on a list or a string
  }

  /** Iterating a string yields one-character strings, none of which holds `title`. */
  lemma {:induction false} CharsYieldNothing(s: string)
    ensures KeepItems(Chars(s)) == Ok([])
  {
    if s != [] {
      assert Chars(s)[1..] == Chars(s[1..]);
      assert !IsSubstring("title", [s[0]]) by {
        assert !StartsWith([s[0]], "title");
        assert !IsSubstring("title", []);
      }
      CharsYieldNothing(s[1..]);
    }
  }

  /** The items an element list yields, in order; the first raising step aborts the whole list. */
  function KeepItems(items: seq<Json>): (r: Result<seq<CategoryDescriptor>>)
    ensures r.Ok? ==> |r.value| <= |items|
    ensures (forall i :: 0 <= i < |items| ==> items[i].Obj?) ==> r.Ok?
  {
    if items == [] then Ok([])
    else
      var head :- ItemStep(items[0]);
      var rest :- KeepItems(items[1..]);
      match head
      case Some(c) => Ok([c] + rest)
      case None => Ok(rest)
  }

  /** Whether a dict item has both `q` and `title`. */
  predicate HasQAndTitle(item: Json) {
    item.Obj? && "q" in item.fields && "title" in item.fields
  }

  /** A reference reading of the comprehension over dict items: filter, then convert. */
  function FilteredDescriptors(items: seq<Json>): seq<CategoryDescriptor> {
    if items == [] then []
    else if HasQAndTitle(items[0]) then
      [CategoryDescriptor(PyStr(items[0].fields["q"]), PyStr(items[0].fields["title"]))] + FilteredDescriptors(items[1..])
    else FilteredDescriptors(items[1..])
  }

  /**
   * `for item in items`: a list yields its elements, a string its
   * characters, a dict its keys; anything else is not iterable. Every key
   * of a dict is a string, and a string item is either skipped or raises
   * `TypeError` at `item['q']`, so the keys' order does not matter.
   */
  function IterateItems(items: Json): (r: Result<seq<CategoryDescriptor>>)
    ensures items.Arr? ==> r == KeepItems(items.elems)
    ensures items.Obj? || items.Str? ==> r == Ok([]) || r == Err(TypeError)
  {
    match items
    case Arr(a) => KeepItems(a)
    case Str(s) =>
      CharsYieldNothing(s);
      KeepItems(Chars(s))
    case Obj(m) => if exists k | k in m :: ItemStep(Str(k)).Err? then Err(TypeError) else Ok([])
    case _ => Err(TypeError)
  }

  /**
   * `getSubcategories`, the answer: an error quoting the status and the
   * first 200 characters of the body when it is not JSON; otherwise the
   * items at `['*'][0]['a']['*']` (a missing `a` or inner `*` giving none)
   * that have both `q` and `title`, as descriptors, in order.
   */
  function Subcategories(resp: Response): (r: Result<seq<CategoryDescriptor>>)
    ensures resp.json.None? ==>
      r == Err(InvalidPetScanJson(resp.status, resp.text[..if |resp.text| < 200 then |resp.text| else 200]))
  {
    match resp.json
    case None => Err(InvalidPetScanJson(resp.status, resp.text[..if |resp.text| < 200 then |resp.text| else 200]))
    case Some(response) =>
      var results :- Get(response, "*", Arr([Obj(map[])]));
      var first :- First(results);
      var a :- Get(first, "a", Obj(map[]));
      var items :- Get(a, "*", Arr([]));
      IterateItems(items)
  }

  /** The item list at `['*'][0]['a']['*']` of a well-formed answer, missing levels read as their defaults. */
  function ItemsOf(resp: Response): Option<seq<Json>> {
    if resp.json.Some? && resp.json.value.Obj? then
      var top := resp.json.value.fields;
      var results := if "*" in top then top["*"] else Arr([Obj(map[])]);
      if results.Arr? && results.elems != [] && results.elems[0].Obj? then
        var first := results.elems[0].fields;
        var a := if "a" in first then first["a"] else Obj(map[]);
        if a.Obj? then
          var items := if "*" in a.fields then a.fields["*"] else Arr([]);
          if items.Arr? then Some(items.elems) else None
        else None
      else None
    else None
  }

  /** Over dict items, the comprehension keeps exactly the items with both keys, in order. */
  lemma {:induction false} KeepItemsMatchesFilter(items: seq<Json>)
    requires forall i :: 0 <= i < |items| ==> items[i].Obj?
    ensures KeepItems(items) == Ok(FilteredDescriptors(items))
  {
    if items != [] {
      KeepItemsMatchesFilter(items[1..]);
    }
  }

  /** On a well-formed answer of dict items, the result is exactly the filtered list, never longer than the items. */
  lemma SubcategoriesOfWellFormed(resp: Response)
    requires ItemsOf(resp).Some?
    requires forall i :: 0 <= i < |ItemsOf(resp).value| ==> ItemsOf(resp).value[i].Obj?
    ensures Subcategories(resp) == Ok(FilteredDescriptors(ItemsOf(resp).value))
    ensures |FilteredDescriptors(ItemsOf(resp).value)| <= |ItemsOf(resp).value|
  {
    KeepItemsMatchesFilter(ItemsOf(resp).value);
  }

  /** A missing `a`, or a missing list under it, yields no categories. */
  lemma MissingPathYieldsNothing(resp: Response)
    requires ItemsOf(resp) == Some([])
    ensures Subcategories(resp) == Ok([])
  {
  }
}
