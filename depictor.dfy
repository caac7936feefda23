/**
 * The client of the crowd-tracking ledger (Depictor): two batch done-checks
 * that filter a list against the ledger's answer, and two mutating calls
 * that succeed only on status 200 with `ok == "Added"` in the body.
 * Each operation is a request builder and a function that interprets the
 * response to that request.
 */
module DepictorClient {
  import opened PyText
  import opened PyJson
  import opened Http
  import opened Descriptors

  /** A ledger client: the user name sent with every mark and the `PHPSESSID` session cookie. */
  datatype Depictor = Depictor(userName: string, phpSessionId: string)

  // ------------------------------------------------------------ dedup checks

  /** `not done.get(id, False)`: the ledger has no truthy entry for `id`. */
  predicate IsUndone(done: map<string, Json>, id: string) {
    !(id in done && Truthy(done[id]))
  }

  /** `xs` is `ys` with some elements left out, the rest in their order. */
  predicate IsSubsequence<T(==,!new)>(xs: seq<T>, ys: seq<T>)
    decreases |ys|
  {
    if ys == [] then xs == []
    else (xs != [] && xs[0] == ys[0] && IsSubsequence(xs[1..], ys[1..])) || IsSubsequence(xs, ys[1..])
  }

  /**
   * The list comprehension of both done-checks: the items, in input order,
   * whose identifier is absent or falsy in the ledger's answer.
   */
  function KeepUndone<T(==,!new)>(items: seq<T>, id: T -> string, done: map<string, Json>): (r: seq<T>)
    ensures IsSubsequence(r, items)
    ensures forall x :: multiset(r)[x] == if IsUndone(done, id(x)) then multiset(items)[x] else 0
  {
    if items == [] then []
    else
      var rest := KeepUndone(items[1..], id, done);
      assert items == [items[0]] + items[1..];
      if IsUndone(done, id(items[0])) then [items[0]] + rest else rest
  }

  /** The request of a done-check: `{"action": action, key: [ids...]}` posted with the session cookie. */
  function BatchRequest(d: Depictor, action: string, key: string, ids: seq<string>): (req: Request)
    requires key != "action"
    ensures req.verb == POST && req.url == DepictorApiUrl && req.sessionCookie == Some(d.phpSessionId)
    ensures "action" in req.payload && req.payload["action"] == Str(action)
    ensures BatchIds(req, key) == Some(ids)
  {
    var list := seq(|ids|, i requires 0 <= i < |ids| => Str(ids[i]));
    var req := Request(POST, DepictorApiUrl, map["action" := Str(action), key := Arr(list)], Some(d.phpSessionId));
    assert req.payload[key].elems == list;
    assert forall j | j in list :: j.Str?;
    assert BatchIds(req, key).value == ids;
    req
  }

  /** The identifiers a batch request carries under `key`, as the ledger reads them back. */
  function BatchIds(req: Request, key: string): Option<seq<string>> {
    if key in req.payload && req.payload[key].Arr? && forall j | j in req.payload[key].elems :: j.Str?
    then Some(seq(|req.payload[key].elems|, i requires 0 <= i < |req.payload[key].elems| => req.payload[key].elems[i].s))
    else None
  }

  function QIds(categories: seq<CategoryDescriptor>): seq<string> {
    seq(|categories|, i requires 0 <= i < |categories| => categories[i].qId)
  }

  function MIds(files: seq<FileDescriptor>): seq<string> {
    seq(|files|, i requires 0 <= i < |files| => files[i].mId)
  }

  /** `getUndoneCategories`, the request: one batch `items-done` with every `qId`, in input order. */
  function UndoneCategoriesRequest(d: Depictor, categories: seq<CategoryDescriptor>): (req: Request)
    ensures req.verb == POST && req.url == DepictorApiUrl && req.sessionCookie == Some(d.phpSessionId)
    ensures "action" in req.payload && req.payload["action"] == Str("items-done")
    ensures BatchIds(req, "qids") == Some(QIds(categories))
  {
    BatchRequest(d, "items-done", "qids", QIds(categories))
  }

  /** `getUndoneFiles`, the request: one batch `files-exists` with every `mId`, in input order. */
  function UndoneFilesRequest(d: Depictor, files: seq<FileDescriptor>): (req: Request)
    ensures req.verb == POST && req.url == DepictorApiUrl && req.sessionCookie == Some(d.phpSessionId)
    ensures "action" in req.payload && req.payload["action"] == Str("files-exists")
    ensures BatchIds(req, "mids") == Some(MIds(files))
  {
    BatchRequest(d, "files-exists", "mids", MIds(files))
  }

  /**
   * Filtering by the ledger's answer: the body must parse, and it must be a
   * dict as soon as there is an item to look up (`.get` is called once per
   * item, so an empty list never touches it).
   */
  function UndoneFrom<T(==,!new)>(items: seq<T>, id: T -> string, resp: Response): (r: Result<seq<T>>)
    ensures r.Ok? <==> resp.json.Some? && (items == [] || resp.json.value.Obj?)
    ensures r.Ok? && items != [] ==> r.value == KeepUndone(items, id, resp.json.value.fields)
    ensures r.Ok? && items == [] ==> r.value == []
  {
    var done :- ParsedBody(resp);
    if items == [] then Ok([])
    else match done
      case Obj(m) => Ok(KeepUndone(items, id, m))
      case _ => Err(AttributeError)
  }

  /** `getUndoneCategories`, the answer: the categories whose `qId` the ledger does not report done. */
  function UndoneCategories(categories: seq<CategoryDescriptor>, resp: Response): Result<seq<CategoryDescriptor>> {
    UndoneFrom(categories, (c: CategoryDescriptor) => c.qId, resp)
  }

  /** `getUndoneFiles`, the answer: the files whose `mId` the ledger does not report done. */
  function UndoneFiles(files: seq<FileDescriptor>, resp: Response): Result<seq<FileDescriptor>> {
    UndoneFrom(files, (f: FileDescriptor) => f.mId, resp)
  }

  // ---------------------------------------------------------- mutating calls

  /** The success rule both marks share: `status_code == 200 and json().get('ok') == 'Added'`. */
  function Added(resp: Response): (r: Result<bool>)
    ensures r.Err? <==> resp.status == 200 && (resp.json.None? || !resp.json.value.Obj?)
    ensures r == Ok(true) <==>
      && resp.status == 200 && resp.json.Some? && resp.json.value.Obj?
      && "ok" in resp.json.value.fields && resp.json.value.fields["ok"] == Str("Added")
  {
    if resp.status != 200 then Ok(false)
    else
      var body :- ParsedBody(resp);
      var ok :- Get(body, "ok", Null);
      Ok(ok == Str("Added"))
  }

  /**
   * `markFileAsNotDepictingSubject`, the request: a GET carrying the file,
   * the subject, the user and the status, with the category title
   * percent-encoded (no safe characters) in the URL itself.
   */
  function MarkFileRequest(d: Depictor, codec: Codec, mId: string, category: CategoryDescriptor): (req: Request)
    ensures req.verb == GET && req.sessionCookie == Some(d.phpSessionId)
    ensures req.url == DepictorApiUrl + "?category=" + codec.quote(category.title, "")
    ensures req.payload == map[
      "mid" := Str(mId), "qid" := Str(category.qId), "user" := Str(d.userName),
      "status" := Str("not-depicted"), "action" := Str("add-file")]
  {
    Request(GET, DepictorApiUrl + "?category=" + codec.quote(category.title, ""),
            map["mid" := Str(mId), "qid" := Str(category.qId), "user" := Str(d.userName),
                "status" := Str("not-depicted"), "action" := Str("add-file")],
            Some(d.phpSessionId))
  }

  /**
   * `markFileAsNotDepictingSubject`, the answer: success exactly on the
   * success rule; otherwise an error naming the file, the subject, the
   * category and the raw body (or the error of reading the body).
   */
  function MarkFileResult(mId: string, category: CategoryDescriptor, resp: Response): (r: Result<()>)
    ensures r.Ok? <==> Added(resp) == Ok(true)
    ensures Added(resp) == Ok(false) ==> r == Err(MarkFileFailed(mId, category.qId, category.title, resp.text))
  {
    var success :- Added(resp);
    if success then Ok(()) else Err(MarkFileFailed(mId, category.qId, category.title, resp.text))
  }

  /** `markCategoryAsDone`, the request: `{"action": "item-done", "qid", "user"}` posted with the session cookie. */
  function MarkCategoryRequest(d: Depictor, qId: string): (req: Request)
    ensures req.verb == POST && req.url == DepictorApiUrl && req.sessionCookie == Some(d.phpSessionId)
    ensures req.payload == map["action" := Str("item-done"), "qid" := Str(qId), "user" := Str(d.userName)]
  {
    Request(POST, DepictorApiUrl,
            map["action" := Str("item-done"), "qid" := Str(qId), "user" := Str(d.userName)],
            Some(d.phpSessionId))
  }

  /** `markCategoryAsDone`, the answer: the same success rule, with an error naming the subject and the raw body. */
  function MarkCategoryResult(qId: string, resp: Response): (r: Result<()>)
    ensures r.Ok? <==> Added(resp) == Ok(true)
    ensures Added(resp) == Ok(false) ==> r == Err(MarkCategoryFailed(qId, resp.text))
  {
    var success :- Added(resp);
    if success then Ok(()) else Err(MarkCategoryFailed(qId, resp.text))
  }

  /** A call whose action marks a file as not depicting its subject. */
  predicate IsFileMark(req: Request) {
    "action" in req.payload && req.payload["action"] == Str("add-file")
  }

  /** A call whose action marks a category as done. */
  predicate IsCompletion(req: Request) {
    "action" in req.payload && req.payload["action"] == Str("item-done")
  }

  /** A mutating ledger call: a file mark or a category completion sent to the ledger. */
  predicate IsMutation(req: Request) {
    StartsWith(req.url, DepictorApiUrl) && (IsFileMark(req) || IsCompletion(req))
  }

  // ------------------------------------------------------------------ lemmas

  /** Nothing the ledger reports done survives the filter. */
  lemma {:induction false} KeepUndoneDropsDone<T(!new)>(items: seq<T>, id: T -> string, done: map<string, Json>, x: T)
    requires x in KeepUndone(items, id, done)
    ensures x in items && IsUndone(done, id(x))
  {
    assert multiset(KeepUndone(items, id, done))[x] > 0;
  }

  /** Filtering an already filtered list against the same answer changes nothing. */
  lemma {:induction false} KeepUndoneIdempotent<T(!new)>(items: seq<T>, id: T -> string, done: map<string, Json>)
    ensures KeepUndone(KeepUndone(items, id, done), id, done) == KeepUndone(items, id, done)
  {
    if items != [] {
      KeepUndoneIdempotent(items[1..], id, done);
    }
  }

  /** If the ledger reports nothing done, the filter keeps everything. */
  lemma {:induction false} KeepUndoneKeepsAllWhenNothingDone<T(!new)>(items: seq<T>, id: T -> string, done: map<string, Json>)
    requires forall x | x in items :: IsUndone(done, id(x))
    ensures KeepUndone(items, id, done) == items
  {
    if items != [] {
      KeepUndoneKeepsAllWhenNothingDone(items[1..], id, done);
      assert items == [items[0]] + items[1..];
    }
  }
}
