/**
 * The client of the media-search service (Commons): the files of a
 * category that lack a "depicts" (P180) claim for a subject, one search
 * page by default, following `continue.sroffset` when the whole category
 * is asked for.
 */
module CommonsClient {
  import opened PyText
  import opened PyJson
  import opened Http
  import opened Descriptors

  /** The search expression: no P180 claim for the subject, in the category, bitmap files only. */
  function SearchExpression(categoryName: string, qId: string): string {
    "-haswbstatement:P180=" + qId + " incategory:\"" + categoryName + "\" filetype:bitmap"
  }

  /** The parameters of the first request. */
  function InitialParams(categoryName: string, qId: string): map<string, Json> {
    map[
      "action" := Str("query"),
      "list" := Str("search"),
      "srlimit" := Int(500),
      "srnamespace" := Int(6),
      "srsearch" := Str(SearchExpression(categoryName, qId)),
      "format" := Str("json"),
      "formatversion" := Int(2)]
  }

  function SearchRequest(params: map<string, Json>): Request {
    Request(GET, CommonsApiUrl, params, None)
  }

  // --------------------------------------------------------------- one page

  /** One search hit: skipped without `pageid`, else the file `M<pageid>` with the hit's title or `""`. */
  function HitStep(hit: Json): (r: Result<Option<FileDescriptor>>)
    ensures hit.Obj? ==> r.Ok? && (r.value.Some? <==> "pageid" in hit.fields)
    ensures r.Ok? && r.value.Some? ==> hit.Obj? && r.value.value.mId == "M" + PyStr(hit.fields["pageid"])
    ensures r.Ok? && r.value.Some? ==>
      r.value.value.title == PyStr(if "title" in hit.fields then hit.fields["title"] else Str(""))
    ensures hit.Str? ==> r == Ok(None) || r == Err(TypeError)
  {
    var hasPageId :- Contains(hit, "pageid");
    if !hasPageId then Ok(None)
    else match hit
      case Obj(m) =>
        var title := if "title" in m then m["title"] else Str("");
        Ok(Some(FileDescriptor("M" + PyStr(m["pageid"]), PyStr(title))))
      case _ => Err(TypeError)  // `result['pageid']` on a list or a string
  }

  /** The files a list of hits yields, in order; a raising hit aborts the whole listing. */
  function KeepHits(hits: seq<Json>): (r: Result<seq<FileDescriptor>>)
    ensures r.Ok? ==> |r.value| <= |hits|
    ensures r.Ok? ==> forall f | f in r.value :: StartsWith(f.mId, "M")
  {
    if hits == [] then Ok([])
    else
      var head :- HitStep(hits[0]);
      var rest :- KeepHits(hits[1..]);
      match head
      case Some(f) => Ok([f] + rest)
      case None => Ok(rest)
  }

  /** A reference reading of the loop over dict hits: those with `pageid`, converted, in order. */
  function HitFiles(hits: seq<Json>): seq<FileDescriptor>
    requires forall i :: 0 <= i < |hits| ==> hits[i].Obj?
  {
    if hits == [] then []
    else
      var m := hits[0].fields;
      var rest := HitFiles(hits[1..]);
      if "pageid" in m then
        [FileDescriptor("M" + PyStr(m["pageid"]), PyStr(if "title" in m then m["title"] else Str("")))] + rest
      else rest
  }

  /** Iterating a string yields one-character strings, none of which holds `pageid`. */
  lemma {:induction false} CharsHitNothing(s: string)
    ensures KeepHits(Chars(s)) == Ok([])
  {
    if s != [] {
      assert Chars(s)[1..] == Chars(s[1..]);
      assert !IsSubstring("pageid", [s[0]]) by {
        assert !StartsWith([s[0]], "pageid");
        assert !IsSubstring("pageid", []);
      }
      CharsHitNothing(s[1..]);
    }
  }

  /**
   * `for result in searchResults`: a list yields its elements, a string
   * its characters, a dict its keys (each key is a string, skipped or
   * raising `TypeError`, so their order does not matter).
   */
  function IterateHits(results: Json): (r: Result<seq<FileDescriptor>>)
    ensures results.Arr? ==> r == KeepHits(results.elems)
    ensures results.Obj? || results.Str? ==> r == Ok([]) || r == Err(TypeError)
  {
    match results
    case Arr(a) => KeepHits(a)
    case Str(s) =>
      CharsHitNothing(s);
      KeepHits(Chars(s))
    case Obj(m) => if exists k | k in m :: HitStep(Str(k)).Err? then Err(TypeError) else Ok([])
    case _ => Err(TypeError)
  }

  /** `response.get('query', {}).get('search', [])`. */
  function SearchResults(response: Json): (r: Result<Json>)
    ensures !response.Obj? ==> r == Err(AttributeError)
    ensures response.Obj? && "query" !in response.fields ==> r == Ok(Arr([]))
    ensures response.Obj? && "query" in response.fields ==>
      var query := response.fields["query"];
      && (!query.Obj? ==> r == Err(AttributeError))
      && (query.Obj? ==> r == Ok(if "search" in query.fields then query.fields["search"] else Arr([])))
  {
    var query :- Get(response, "query", Obj(map[]));
    Get(query, "search", Arr([]))
  }

  /** The next offset: none without `continue`, else `continue.get('sroffset', 0)`. */
  function NextOffset(response: Json): (r: Result<Option<Json>>)
    ensures response.Obj? && "continue" !in response.fields ==> r == Ok(None)
    ensures r.Ok? && r.value.Some? ==> response.Obj? && "continue" in response.fields
    ensures response.Obj? && "continue" in response.fields ==>
      var cont := response.fields["continue"];
      && (!cont.Obj? ==> r == Err(AttributeError))
      && (cont.Obj? ==> r == Ok(Some(if "sroffset" in cont.fields then cont.fields["sroffset"] else Int(0))))
  {
    var hasContinue :- Contains(response, "continue");
    if !hasContinue then Ok(None)
    else
      var cont :- Index(response, "continue");
      var offset :- Get(cont, "sroffset", Int(0));
      Ok(Some(offset))
  }

  /** One page: its files and the offset to continue from, in the order the loop body evaluates them. */
  function PageOutcome(resp: Response): Result<(seq<FileDescriptor>, Option<Json>)> {
    var response :- ParsedBody(resp);
    var results :- SearchResults(response);
    var files :- IterateHits(results);
    var next :- NextOffset(response);
    Ok((files, next))
  }

  // ------------------------------------------------------------- the crawl

  /** `files` in front of what a later page produced; an error anywhere makes `list()` raise it. */
  function Prepend(files: seq<FileDescriptor>, later: Result<seq<FileDescriptor>>): Result<seq<FileDescriptor>> {
    if later.Ok? then Ok(files + later.value) else later
  }

  lemma PrependTwice(a: seq<FileDescriptor>, b: seq<FileDescriptor>, later: Result<seq<FileDescriptor>>)
    ensures Prepend(a, Prepend(b, later)) == Prepend(a + b, later)
  {
    if later.Ok? {
      assert a + (b + later.value) == (a + b) + later.value;
    }
  }

  /**
   * The pages the loop requests, starting from `params`, and the files it
   * yields, when at most `fuel` pages are fetched. It stops after a page
   * without `continue` and, unless `wholeCategory`, after the first page.
   */
  function Crawl(server: Server, history: seq<Request>, params: map<string, Json>, wholeCategory: bool, fuel: nat)
    : (Result<seq<FileDescriptor>>, seq<Request>)
    decreases fuel
  {
    if fuel == 0 then (Ok([]), [])
    else
      var req := SearchRequest(params);
      match PageOutcome(server(history, req))
      case Err(e) => (Err(e), [req])
      case Ok((files, next)) =>
        if next.None? || !wholeCategory then (Ok(files), [req])
        else
          var later := Crawl(server, history + [req], params["sroffset" := next.value], wholeCategory, fuel - 1);
          (Prepend(files, later.0), [req] + later.1)
  }

  /** A page that ends the crawl: its files are all, and it is the only request. */
  lemma CrawlStops(server: Server, history: seq<Request>, params: map<string, Json>, wholeCategory: bool, fuel: nat)
    requires PageOutcome(server(history, SearchRequest(params))).Ok?
    requires var next := PageOutcome(server(history, SearchRequest(params))).value.1;
      next.None? || !wholeCategory || fuel == 0
    ensures Crawl(server, history, params, wholeCategory, fuel + 1)
      == (Ok(PageOutcome(server(history, SearchRequest(params))).value.0), [SearchRequest(params)])
  {
    var (files, next) := PageOutcome(server(history, SearchRequest(params))).value;
    if next.Some? && wholeCategory {
      var later := Crawl(server, history + [SearchRequest(params)], params["sroffset" := next.value], true, 0);
      assert later == (Ok([]), []);
      assert files + [] == files;
      assert [SearchRequest(params)] + [] == [SearchRequest(params)];
    }
  }

  /**
   * A page that continues the crawl: what `collected` and `sent` become
   * after it, in front of the crawl from the next offset.
   */
  lemma CrawlContinues(
    server: Server, history: seq<Request>, params: map<string, Json>, fuel: nat,
    collected: seq<FileDescriptor>, sent: seq<Request>)
    requires PageOutcome(server(history, SearchRequest(params))).Ok?
    requires PageOutcome(server(history, SearchRequest(params))).value.1.Some?
    ensures var (files, next) := PageOutcome(server(history, SearchRequest(params))).value;
      var req := SearchRequest(params);
      var later := Crawl(server, history + [req], params["sroffset" := next.value], true, fuel + 1);
      && Prepend(collected, Crawl(server, history, params, true, fuel + 2).0) == Prepend(collected + files, later.0)
      && sent + Crawl(server, history, params, true, fuel + 2).1 == (sent + [req]) + later.1
  {
    var (files, next) := PageOutcome(server(history, SearchRequest(params))).value;
    var req := SearchRequest(params);
    var later := Crawl(server, history + [req], params["sroffset" := next.value], true, fuel + 1);
    PrependTwice(collected, files, later.0);
    assert sent + ([req] + later.1) == (sent + [req]) + later.1;
  }

  /** The inner `for` over one page's hits: the files it yields, or the error a hit raises. */
  method YieldHits(hits: seq<Json>) returns (r: Result<seq<FileDescriptor>>)
    ensures r == KeepHits(hits)
  {
    var yielded: seq<FileDescriptor> := [];
    var i := 0;
    assert hits[i..] == hits;
    assert KeepHits(hits).Ok? ==> [] + KeepHits(hits).value == KeepHits(hits).value;
    while i < |hits|
      invariant 0 <= i <= |hits|
      invariant KeepHits(hits) == Prepend(yielded, KeepHits(hits[i..]))
    {
      assert hits[i..][1..] == hits[i + 1..];
      var step := HitStep(hits[i]);
      if step.Err? {
        return Err(step.error);
      }
      if step.value.Some? {
        assert KeepHits(hits[i..]) == Prepend([step.value.value], KeepHits(hits[i + 1..]));
        PrependTwice(yielded, [step.value.value], KeepHits(hits[i + 1..]));
        yielded := yielded + [step.value.value];
      } else {
        assert KeepHits(hits[i..]) == KeepHits(hits[i + 1..]);
      }
      i := i + 1;
    }
    assert hits[i..] == [];
    assert yielded + [] == yielded;
    r := Ok(yielded);
  }

  /**
   * `getFilesNotDepictingSubject`, drained by `list()`: request pages and
   * collect the files of their hits, as `Crawl` describes. In
   * `wholeCategory` mode at most `1 + extraPages` pages are fetched.
   */
  method GetFilesNotDepictingSubject(
    server: Server, history: seq<Request>, categoryName: string, qId: string,
    wholeCategory: bool, extraPages: nat)
    returns (files: Result<seq<FileDescriptor>>, requests: seq<Request>)
    ensures (files, requests) == Crawl(server, history, InitialParams(categoryName, qId), wholeCategory, extraPages + 1)
  {
    var params := InitialParams(categoryName, qId);
    var collected: seq<FileDescriptor> := [];
    requests := [];
    var pagesLeft := extraPages;
    ghost var whole := Crawl(server, history, params, wholeCategory, extraPages + 1);
    assert history + requests == history;
    assert whole.0.Ok? ==> [] + whole.0.value == whole.0.value;
    while true
      invariant whole.0 == Prepend(collected, Crawl(server, history + requests, params, wholeCategory, pagesLeft + 1).0)
      invariant whole.1 == requests + Crawl(server, history + requests, params, wholeCategory, pagesLeft + 1).1
      decreases pagesLeft
    {
      var outcome, sent, gathered, nextParams := CrawlPage(server, history, requests, params, wholeCategory, pagesLeft, collected, whole);
      requests := sent;
      if outcome.Some? {
        files := outcome.value;
        return;
      }
      collected, params, pagesLeft := gathered, nextParams, pagesLeft - 1;
    }
  }

  /**
   * One iteration of the page loop: fetch the page at `params`; either the
   * crawl ends with `outcome`, or it goes on from `nextParams` with the
   * files `gathered` so far and one page fewer left.
   */
  method CrawlPage(
    server: Server, history: seq<Request>, requests: seq<Request>, params: map<string, Json>, wholeCategory: bool, pagesLeft: nat,
    collected: seq<FileDescriptor>, ghost whole: (Result<seq<FileDescriptor>>, seq<Request>))
    returns (outcome: Option<Result<seq<FileDescriptor>>>, sent: seq<Request>, gathered: seq<FileDescriptor>, nextParams: map<string, Json>)
    requires whole.0 == Prepend(collected, Crawl(server, history + requests, params, wholeCategory, pagesLeft + 1).0)
    requires whole.1 == requests + Crawl(server, history + requests, params, wholeCategory, pagesLeft + 1).1
    ensures sent == requests + [SearchRequest(params)]
    ensures outcome.Some? ==> whole == (outcome.value, sent)
    ensures outcome.None? ==>
      && pagesLeft > 0
      && whole.0 == Prepend(gathered, Crawl(server, history + sent, nextParams, wholeCategory, pagesLeft).0)
      && whole.1 == sent + Crawl(server, history + sent, nextParams, wholeCategory, pagesLeft).1
  {
    var req := SearchRequest(params);
    var page := FetchPage(server(history + requests, req));
    sent := requests + [req];
    gathered, nextParams := collected, params;
    if page.Err? || page.value.1.None? || !wholeCategory || pagesLeft == 0 {
      CrawlLoopEnds(server, history, requests, params, wholeCategory, pagesLeft, collected, whole);
      outcome := Some(if page.Err? then Err(page.error) else Ok(collected + page.value.0));
      return;
    }
    var (yielded, next) := page.value;
    CrawlLoopGoesOn(server, history, requests, params, wholeCategory, pagesLeft, collected, whole);
    outcome := None;
    gathered, nextParams := collected + yielded, params["sroffset" := next.value];
  }

  /** The last page of the loop: what the whole crawl then returns. */
  lemma CrawlLoopEnds(
    server: Server, history: seq<Request>, requests: seq<Request>, params: map<string, Json>, wholeCategory: bool, pagesLeft: nat,
    collected: seq<FileDescriptor>, whole: (Result<seq<FileDescriptor>>, seq<Request>))
    requires whole.0 == Prepend(collected, Crawl(server, history + requests, params, wholeCategory, pagesLeft + 1).0)
    requires whole.1 == requests + Crawl(server, history + requests, params, wholeCategory, pagesLeft + 1).1
    requires var page := PageOutcome(server(history + requests, SearchRequest(params)));
      page.Err? || page.value.1.None? || !wholeCategory || pagesLeft == 0
    ensures var page := PageOutcome(server(history + requests, SearchRequest(params)));
      && whole.1 == requests + [SearchRequest(params)]
      && whole.0 == if page.Err? then Err(page.error) else Ok(collected + page.value.0)
  {
    var before := history + requests;
    if PageOutcome(server(before, SearchRequest(params))).Ok? {
      CrawlStops(server, before, params, wholeCategory, pagesLeft);
    }
  }

  /** A page after which the loop goes on: the invariant for the next offset. */
  lemma CrawlLoopGoesOn(
    server: Server, history: seq<Request>, requests: seq<Request>, params: map<string, Json>, wholeCategory: bool, pagesLeft: nat,
    collected: seq<FileDescriptor>, whole: (Result<seq<FileDescriptor>>, seq<Request>))
    requires whole.0 == Prepend(collected, Crawl(server, history + requests, params, wholeCategory, pagesLeft + 1).0)
    requires whole.1 == requests + Crawl(server, history + requests, params, wholeCategory, pagesLeft + 1).1
    requires var page := PageOutcome(server(history + requests, SearchRequest(params)));
      page.Ok? && page.value.1.Some? && wholeCategory && pagesLeft > 0
    ensures var (files, next) := PageOutcome(server(history + requests, SearchRequest(params))).value;
      var sent := requests + [SearchRequest(params)];
      var later := Crawl(server, history + sent, params["sroffset" := next.value], wholeCategory, pagesLeft);
      && whole.0 == Prepend(collected + files, later.0)
      && whole.1 == sent + later.1
  {
    var before := history + requests;
    var req := SearchRequest(params);
    assert history + (requests + [req]) == before + [req];
    CrawlContinues(server, before, params, pagesLeft - 1, collected, requests);
  }

  /** The body of one iteration: read the page, yield its hits' files, read `continue`. */
  method FetchPage(resp: Response) returns (page: Result<(seq<FileDescriptor>, Option<Json>)>)
    ensures page == PageOutcome(resp)
  {
    var body := ParsedBody(resp);
    if body.Err? {
      return Err(body.error);
    }
    var results := SearchResults(body.value);
    if results.Err? {
      return Err(results.error);
    }
    // `for result in searchResults`
    var hits: seq<Json>;
    match results.value {
      case Arr(a) =>
        hits := a;
      case Str(s) =>
        hits := Chars(s);
      case Obj(m) =>
        if exists k | k in m :: HitStep(Str(k)).Err? {
          return Err(TypeError);
        }
        hits := [];
      case _ =>
        return Err(TypeError);
    }
    assert IterateHits(results.value) == KeepHits(hits) by {
      if results.value.Str? { CharsHitNothing(results.value.s); }
    }
    var pageFiles := YieldHits(hits);
    if pageFiles.Err? {
      return Err(pageFiles.error);
    }
    var next := NextOffset(body.value);
    if next.Err? {
      return Err(next.error);
    }
    page := Ok((pageFiles.value, next.value));
  }

  // ------------------------------------------------------------------ lemmas

  /** Over dict hits, the loop yields exactly the hits with `pageid`, converted, in order. */
  lemma {:induction false} KeepHitsMatchesHitFiles(hits: seq<Json>)
    requires forall i :: 0 <= i < |hits| ==> hits[i].Obj?
    ensures KeepHits(hits) == Ok(HitFiles(hits))
  {
    if hits != [] {
      KeepHitsMatchesHitFiles(hits[1..]);
    }
  }

  /** An answer without `query` and without `continue` is a last page without files. */
  lemma PageWithoutQuery(resp: Response)
    requires resp.json.Some? && resp.json.value.Obj?
    requires "query" !in resp.json.value.fields && "continue" !in resp.json.value.fields
    ensures PageOutcome(resp) == Ok(([], None))
  {
  }

  /** Unless the whole category is asked for, exactly one page is requested, with the given parameters. */
  lemma SinglePageMode(server: Server, history: seq<Request>, params: map<string, Json>, fuel: nat)
    requires fuel >= 1
    ensures Crawl(server, history, params, false, fuel).1 == [SearchRequest(params)]
    ensures var page := PageOutcome(server(history, SearchRequest(params)));
      Crawl(server, history, params, false, fuel).0 == if page.Ok? then Ok(page.value.0) else Err(page.error)
  {
  }

  /** A search request with the given parameters, the offset aside. */
  predicate KeepsSearch(r: Request, params: map<string, Json>) {
    && r.verb == GET && r.url == CommonsApiUrl && r.sessionCookie.None?
    && forall key | key in params && key != "sroffset" :: key in r.payload && r.payload[key] == params[key]
  }

  lemma KeepsSearchAfterOffset(r: Request, params: map<string, Json>, offset: Json)
    requires KeepsSearch(r, params["sroffset" := offset])
    ensures KeepsSearch(r, params)
  {
    var moved := params["sroffset" := offset];
    assert forall key | key in params && key != "sroffset" :: key in moved && moved[key] == params[key];
  }

  /**
   * Every request of a crawl goes to the search endpoint with the given
   * parameters, the offset aside; at most `fuel` pages are requested, the
   * first with exactly the given parameters.
   */
  lemma {:induction false} CrawlRequestsKeepSearch(
    server: Server, history: seq<Request>, params: map<string, Json>, wholeCategory: bool, fuel: nat)
    ensures var reqs := Crawl(server, history, params, wholeCategory, fuel).1;
      && |reqs| <= fuel
      && (fuel >= 1 ==> |reqs| >= 1 && reqs[0] == SearchRequest(params))
      && forall r | r in reqs :: KeepsSearch(r, params)
    decreases fuel
  {
    if fuel > 0 {
      var req := SearchRequest(params);
      var reqs := Crawl(server, history, params, wholeCategory, fuel).1;
      assert KeepsSearch(req, params);
      var page := PageOutcome(server(history, req));
      if page.Ok? && page.value.1.Some? && wholeCategory {
        var moved := params["sroffset" := page.value.1.value];
        var later := Crawl(server, history + [req], moved, wholeCategory, fuel - 1).1;
        CrawlRequestsKeepSearch(server, history + [req], moved, wholeCategory, fuel - 1);
        assert reqs == [req] + later;
        forall r | r in later
          ensures KeepsSearch(r, params)
        {
          KeepsSearchAfterOffset(r, params, page.value.1.value);
        }
      } else {
        assert reqs == [req];
      }
    }
  }

  /**
   * Each page after the first continues from the offset the page before it
   * reported: the second request's `sroffset` is the first answer's
   * `continue.sroffset` (or 0 when that is missing).
   */
  lemma ContinuesFromReportedOffset(
    server: Server, history: seq<Request>, params: map<string, Json>, fuel: nat)
    requires fuel >= 2
    requires |Crawl(server, history, params, true, fuel).1| >= 2
    ensures var first := server(history, SearchRequest(params));
      && PageOutcome(first).Ok? && PageOutcome(first).value.1.Some?
      && first.json.Some? && first.json.value.Obj? && "continue" in first.json.value.fields
      && var cont := first.json.value.fields["continue"];
      && cont.Obj?
      && Crawl(server, history, params, true, fuel).1[1]
         == SearchRequest(params["sroffset" := if "sroffset" in cont.fields then cont.fields["sroffset"] else Int(0)])
  {
    var req := SearchRequest(params);
    var (files, next) := PageOutcome(server(history, req)).value;
    var params2 := params["sroffset" := next.value];
    var later := Crawl(server, history + [req], params2, true, fuel - 1);
    assert later.1[0] == SearchRequest(params2);
  }

  /** Every file a crawl yields has a media identifier starting with `M` (`HitStep` gives the exact `M` + page id). */
  lemma {:induction false} CrawlYieldsMediaIds(
    server: Server, history: seq<Request>, params: map<string, Json>, wholeCategory: bool, fuel: nat)
    requires Crawl(server, history, params, wholeCategory, fuel).0.Ok?
    ensures forall f | f in Crawl(server, history, params, wholeCategory, fuel).0.value :: StartsWith(f.mId, "M")
    decreases fuel
  {
    if fuel > 0 {
      var req := SearchRequest(params);
      var page := PageOutcome(server(history, req));
      var (files, next) := page.value;
      assert forall f | f in files :: StartsWith(f.mId, "M") by {
        var response := ParsedBody(server(history, req)).value;
        var results := SearchResults(response).value;
        if results.Str? { CharsHitNothing(results.s); }
      }
      if next.Some? && wholeCategory {
        CrawlYieldsMediaIds(server, history + [req], params["sroffset" := next.value], wholeCategory, fuel - 1);
      }
    }
  }
}
