/**
 * What the run guarantees about the calls it makes: a dry run never
 * writes to the ledger; a category is completed at most once and only
 * when its file loop reached every undone file; files are marked once
 * each, in order; a failing root entry is skipped, and only a depth that
 * is not an integer ends the run.
 */
module RunProperties {
  import opened PyText
  import opened PyJson
  import opened Http
  import opened Descriptors
  import opened DepictorClient
  import opened WikidataClient
  import opened CommonsClient
  import opened PetScanClient
  import opened Reporting
  import opened NoDepictor
  import opened InterruptHandling

  /** The requests of `reqs` that satisfy `p`, in order. */
  function Those(reqs: seq<Request>, p: Request -> bool): (r: seq<Request>)
    ensures |r| <= |reqs|
    ensures forall x | x in r :: x in reqs && p(x)
  {
    if reqs == [] then []
    else
      var rest := Those(reqs[..|reqs| - 1], p);
      if p(reqs[|reqs| - 1]) then rest + [reqs[|reqs| - 1]] else rest
  }

  lemma {:induction false} ThoseAppend(a: seq<Request>, b: seq<Request>, p: Request -> bool)
    ensures Those(a + b, p) == Those(a, p) + Those(b, p)
    decreases |b|
  {
    if b == [] {
      assert a + b == a;
    } else {
      assert (a + b)[..|a + b| - 1] == a + b[..|b| - 1];
      ThoseAppend(a, b[..|b| - 1], p);
    }
  }

  lemma ThoseOfMiddle(a: seq<Request>, b: seq<Request>, c: seq<Request>, p: Request -> bool)
    requires Those(a, p) == [] && Those(c, p) == []
    ensures Those(a + b + c, p) == Those(b, p)
  {
    ThoseAppend(a, b, p);
    ThoseAppend(a + b, c, p);
  }

  lemma {:induction false} ThoseOfNone(reqs: seq<Request>, p: Request -> bool)
    requires forall r | r in reqs :: !p(r)
    ensures Those(reqs, p) == []
    decreases |reqs|
  {
    if reqs != [] {
      ThoseOfNone(reqs[..|reqs| - 1], p);
    }
  }

  /** An action that is neither a file mark nor a completion, so no `IsMutation` wherever it is sent. */
  predicate Harmless(r: Request) {
    !IsFileMark(r) && !IsCompletion(r)
  }

  // -------------------------------------------------------- one category

  /**
   * Before its file loop a category pass sends, in order, the image check,
   * then the search pages, then the done-check of the files found, and
   * stops after the first of these that fails.
   */
  lemma PrepareSends(s: Services, history: seq<Request>, category: CategoryDescriptor)
    ensures var imageReq := HasImageClaimRequest(category.qId);
      var search := Crawl(s.server, history + [imageReq], InitialParams(category.title, category.qId), false, 1);
      var sent := PrepareCategory(s, history, category).sent;
      || sent == [imageReq]
      || sent == [imageReq] + search.1
      || (search.0.Ok? && sent == [imageReq] + search.1 + [UndoneFilesRequest(s.depictor, search.0.value)])
  {
  }

  /** Before its file loop a category pass only reads: the image check, the search, the done-check. */
  lemma PrepareIsHarmless(s: Services, history: seq<Request>, category: CategoryDescriptor)
    ensures forall r | r in PrepareCategory(s, history, category).sent :: Harmless(r)
  {
    var imageReq := HasImageClaimRequest(category.qId);
    var params := InitialParams(category.title, category.qId);
    var search := Crawl(s.server, history + [imageReq], params, false, 1);
    var sent := [imageReq] + search.1;
    assert "action" in params && params["action"] == Str("query");
    CrawlRequestsKeepSearch(s.server, history + [imageReq], params, false, 1);
    assert forall r | r in sent :: Harmless(r);
    PrepareSends(s, history, category);
    if search.0.Ok? {
      var dedupReq := UndoneFilesRequest(s.depictor, search.0.value);
      assert forall r | r in sent + [dedupReq] :: Harmless(r);
    }
  }

  /**
   * A category reaches its file loop only after exactly three requests:
   * the image check, one search page, and the done-check of that page's
   * files; and the files it works on are those of the page, in order, that
   * the ledger did not report done.
   */
  lemma WorkFilesWereNotDone(s: Services, history: seq<Request>, category: CategoryDescriptor)
    requires PrepareCategory(s, history, category).Work?
    ensures var prep := PrepareCategory(s, history, category);
      var imageReq := HasImageClaimRequest(category.qId);
      var search := Crawl(s.server, history + [imageReq], InitialParams(category.title, category.qId), false, 1);
      && search.0.Ok?
      && prep.sent == [imageReq, SearchRequest(InitialParams(category.title, category.qId)), UndoneFilesRequest(s.depictor, search.0.value)]
      && IsSubsequence(prep.undone, search.0.value)
      && var answer := s.server(history + prep.sent[..2], prep.sent[2]);
         answer.json.Some? && answer.json.value.Obj?
         && forall f | f in prep.undone :: IsUndone(answer.json.value.fields, f.mId)
  {
    var prep := PrepareCategory(s, history, category);
    var imageReq := HasImageClaimRequest(category.qId);
    var params := InitialParams(category.title, category.qId);
    var search := Crawl(s.server, history + [imageReq], params, false, 1);
    SinglePageMode(s.server, history + [imageReq], params, 1);
    var files := search.0.value;
    var dedupReq := UndoneFilesRequest(s.depictor, files);
    var sent := [imageReq] + search.1;
    assert prep.sent == sent + [dedupReq];
    assert prep.sent[..2] == sent;
    var answer := s.server(history + sent, dedupReq);
    assert UndoneFiles(files, answer) == Ok(prep.undone);
    assert files != [];
    forall f | f in prep.undone
      ensures IsUndone(answer.json.value.fields, f.mId)
    {
      KeepUndoneDropsDone(files, (g: FileDescriptor) => g.mId, answer.json.value.fields, f);
    }
  }

  /** The requests the marks of `files` send when not in a dry run: one file mark per file, in order. */
  function MarkRequests(s: Services, category: CategoryDescriptor, files: seq<FileDescriptor>): seq<Request> {
    seq(|files|, j requires 0 <= j < |files| => MarkFileRequest(s.depictor, s.codec, files[j].mId, category))
  }

  /** The file loop sends exactly one mark per file reached, in order, and none in a dry run. */
  lemma {:induction false} MarksSendOneRequestPerFile(
    s: Services, history: seq<Request>, category: CategoryDescriptor, files: seq<FileDescriptor>, dryRun: bool)
    ensures Marks(s, history, category, files, dryRun).0 == if dryRun then [] else MarkRequests(s, category, files)
    decreases |files|
  {
    if files != [] {
      var n := |files| - 1;
      var init := files[..n];
      var before := Marks(s, history, category, init, dryRun);
      MarksSendOneRequestPerFile(s, history, category, init, dryRun);
      MarkStepSends(s, history + before.0, category, files[n], dryRun);
      assert Marks(s, history, category, files, dryRun).0
        == before.0 + MarkStep(s, history + before.0, category, files[n], dryRun).0;
      if !dryRun {
        assert MarkRequests(s, category, files) == MarkRequests(s, category, init)
          + [MarkFileRequest(s.depictor, s.codec, files[n].mId, category)];
      }
    }
  }

  /** The mark of one file sends its request, whatever the answer, except in a dry run. */
  lemma MarkStepSends(s: Services, history: seq<Request>, category: CategoryDescriptor, file: FileDescriptor, dryRun: bool)
    ensures MarkStep(s, history, category, file, dryRun).0
      == if dryRun then [] else [MarkFileRequest(s.depictor, s.codec, file.mId, category)]
  {
  }

  /** Every mark request is a file mark, and none is a completion. */
  lemma MarkRequestsAreFileMarks(s: Services, category: CategoryDescriptor, files: seq<FileDescriptor>)
    ensures forall r | r in MarkRequests(s, category, files) :: IsFileMark(r) && !IsCompletion(r)
    ensures Those(MarkRequests(s, category, files), IsFileMark) == MarkRequests(s, category, files)
    ensures Those(MarkRequests(s, category, files), IsCompletion) == []
  {
    ThoseOfNone(MarkRequests(s, category, files), IsCompletion);
    ThoseOfAll(MarkRequests(s, category, files), IsFileMark);
  }

  lemma {:induction false} ThoseOfAll(reqs: seq<Request>, p: Request -> bool)
    requires forall r | r in reqs :: p(r)
    ensures Those(reqs, p) == reqs
    decreases |reqs|
  {
    if reqs != [] {
      ThoseOfAll(reqs[..|reqs| - 1], p);
      assert reqs == reqs[..|reqs| - 1] + [reqs[|reqs| - 1]];
    }
  }

  /** The undone files the file loop reached, when the pass got to it. */
  function ReachedFiles(s: Services, history: seq<Request>, category: CategoryDescriptor, reach: Reach): seq<FileDescriptor>
    requires PrepareCategory(s, history, category).Work?
  {
    var undone := PrepareCategory(s, history, category).undone;
    undone[..Reached(reach, |undone|)]
  }

  /**
   * A category is completed at most once, and exactly when the pass got
   * to its file loop, the loop reached every undone file, and it is not a
   * dry run.
   */
  lemma CompletionOnlyAfterEveryFile(s: Services, history: seq<Request>, category: CategoryDescriptor, dryRun: bool, reach: Reach)
    ensures var prep := PrepareCategory(s, history, category);
      Those(CategoryPass(s, history, category, dryRun, reach).0, IsCompletion)
      == if prep.Work? && Reached(reach, |prep.undone|) == |prep.undone| && !dryRun then [MarkCategoryRequest(s.depictor, category.qId)] else []
  {
    var prep := PrepareCategory(s, history, category);
    PrepareIsHarmless(s, history, category);
    ThoseOfNone(prep.sent, IsCompletion);
    if prep.Work? {
      var k := Reached(reach, |prep.undone|);
      var files := prep.undone[..k];
      var marks := Marks(s, history + prep.sent, category, files, dryRun);
      var finish := FinishCategory(s, history + prep.sent + marks.0, category, |prep.undone|, k, dryRun);
      assert CategoryPass(s, history, category, dryRun, reach).0 == prep.sent + marks.0 + finish.0;
      MarksSendNoCompletion(s, history + prep.sent, category, files, dryRun);
      FinishCompletes(s, history + prep.sent + marks.0, category, |prep.undone|, k, dryRun);
      ThoseAppend(prep.sent, marks.0, IsCompletion);
      ThoseAppend(prep.sent + marks.0, finish.0, IsCompletion);
    }
  }

  /**
   * The completion against the flag readings of the pass: a category is
   * completed exactly when the pass got to its file loop, none of the
   * loop's readings saw the flag raised, and it is not a dry run. A SIGINT
   * that lands after the last reading does not prevent it; one that a
   * reading sees does.
   */
  lemma CompletionIffNoRaisedReading(s: Services, history: seq<Request>, category: CategoryDescriptor, dryRun: bool, reach: Reach)
    ensures var prep := PrepareCategory(s, history, category);
      Those(CategoryPass(s, history, category, dryRun, reach).0, IsCompletion)
      == if prep.Work? && true !in PassReadings(prep, reach) && !dryRun then [MarkCategoryRequest(s.depictor, category.qId)] else []
  {
    CompletionOnlyAfterEveryFile(s, history, category, dryRun, reach);
    var prep := PrepareCategory(s, history, category);
    if prep.Work? {
      ReadingsRaisedIffEarly(Reached(reach, |prep.undone|), |prep.undone|);
    }
  }

  /** The file loop of a pass never completes the category. */
  lemma MarksSendNoCompletion(s: Services, history: seq<Request>, category: CategoryDescriptor, files: seq<FileDescriptor>, dryRun: bool)
    ensures Those(Marks(s, history, category, files, dryRun).0, IsCompletion) == []
  {
    MarksSendOneRequestPerFile(s, history, category, files, dryRun);
    MarkRequestsAreFileMarks(s, category, files);
  }

  /** The end of a category pass completes it exactly when every file was reached and it is not a dry run. */
  lemma FinishCompletes(s: Services, history: seq<Request>, category: CategoryDescriptor, total: nat, reached: nat, dryRun: bool)
    ensures Those(FinishCategory(s, history, category, total, reached, dryRun).0, IsCompletion)
      == if reached >= total && !dryRun then [MarkCategoryRequest(s.depictor, category.qId)] else []
  {
    var sent := FinishCategory(s, history, category, total, reached, dryRun).0;
    if reached >= total && !dryRun {
      var req := MarkCategoryRequest(s.depictor, category.qId);
      assert sent == [req];
      assert IsCompletion(req);
      assert sent[..0] == [];
    } else {
      assert sent == [];
    }
  }

  /**
   * The files a pass marks are exactly the undone files its loop reached,
   * each once, in list order; none in a dry run, nor when the pass
   * stopped before its file loop.
   */
  lemma FilesMarkedInOrder(s: Services, history: seq<Request>, category: CategoryDescriptor, dryRun: bool, reach: Reach)
    ensures var prep := PrepareCategory(s, history, category);
      Those(CategoryPass(s, history, category, dryRun, reach).0, IsFileMark)
      == if prep.Work? && !dryRun then MarkRequests(s, category, ReachedFiles(s, history, category, reach)) else []
  {
    var prep := PrepareCategory(s, history, category);
    if prep.Work? {
      WorkMarksFiles(s, history, category, dryRun, reach, prep.sent, prep.undone);
    } else {
      PrepareIsHarmless(s, history, category);
      ThoseOfNone(prep.sent, IsFileMark);
    }
  }

  /** The file marks of a pass that got to its file loop: those of the loop, in order. */
  lemma WorkMarksFiles(s: Services, history: seq<Request>, category: CategoryDescriptor, dryRun: bool, reach: Reach,
                       sent: seq<Request>, undone: seq<FileDescriptor>)
    requires PrepareCategory(s, history, category) == Work(sent, undone)
    ensures Those(CategoryPass(s, history, category, dryRun, reach).0, IsFileMark)
      == if dryRun then [] else MarkRequests(s, category, undone[..Reached(reach, |undone|)])
  {
    PrepareIsHarmless(s, history, category);
    ThoseOfNone(sent, IsFileMark);
    var k := Reached(reach, |undone|);
    var files := undone[..k];
    var marks := Marks(s, history + sent, category, files, dryRun);
    var finish := FinishCategory(s, history + sent + marks.0, category, |undone|, k, dryRun);
    assert CategoryPass(s, history, category, dryRun, reach).0 == sent + marks.0 + finish.0;
    MarksFileMarks(s, history + sent, category, files, dryRun);
    FinishSendsNoFileMark(s, history + sent + marks.0, category, |undone|, k, dryRun);
    ThoseOfMiddle(sent, marks.0, finish.0, IsFileMark);
  }

  /** The file marks of the file loop: one per file reached, in order, none in a dry run. */
  lemma MarksFileMarks(s: Services, history: seq<Request>, category: CategoryDescriptor, files: seq<FileDescriptor>, dryRun: bool)
    ensures Those(Marks(s, history, category, files, dryRun).0, IsFileMark)
      == if dryRun then [] else MarkRequests(s, category, files)
  {
    MarksSendOneRequestPerFile(s, history, category, files, dryRun);
    MarkRequestsAreFileMarks(s, category, files);
  }

  /** The end of a category pass sends no file mark. */
  lemma FinishSendsNoFileMark(s: Services, history: seq<Request>, category: CategoryDescriptor, total: nat, reached: nat, dryRun: bool)
    ensures Those(FinishCategory(s, history, category, total, reached, dryRun).0, IsFileMark) == []
  {
    var sent := FinishCategory(s, history, category, total, reached, dryRun).0;
    assert forall r | r in sent :: !IsFileMark(r);
    ThoseOfNone(sent, IsFileMark);
  }

  /** A category without an image claim (or whose check fails) costs one request and is not searched. */
  lemma NoImageNoSearch(s: Services, history: seq<Request>, category: CategoryDescriptor, dryRun: bool, reach: Reach)
    requires HasImageClaim(category.qId, s.server(history, HasImageClaimRequest(category.qId))) != Ok(true)
    ensures CategoryPass(s, history, category, dryRun, reach).0 == [HasImageClaimRequest(category.qId)]
    ensures forall r | r in CategoryPass(s, history, category, dryRun, reach).0 :: r.url == WikidataApiUrl
  {
  }

  // ------------------------------------------------------------ dry runs

  /** A dry-run category pass sends no ledger mutation. */
  lemma DryCategoryPassIsHarmless(s: Services, history: seq<Request>, category: CategoryDescriptor, reach: Reach)
    ensures forall r | r in CategoryPass(s, history, category, true, reach).0 :: Harmless(r)
  {
    var prep := PrepareCategory(s, history, category);
    PrepareIsHarmless(s, history, category);
    if prep.Work? {
      var k := Reached(reach, |prep.undone|);
      MarksSendOneRequestPerFile(s, history + prep.sent, category, prep.undone[..k], true);
      var marks := Marks(s, history + prep.sent, category, prep.undone[..k], true);
      var finish := FinishCategory(s, history + prep.sent + marks.0, category, |prep.undone|, k, true);
      assert finish.0 == [];
      assert CategoryPass(s, history, category, true, reach).0 == prep.sent + [] + [];
    }
  }

  lemma {:induction false} DryWorkIsHarmless(
    s: Services, history: seq<Request>, categories: seq<CategoryDescriptor>, reached: seq<Reach>)
    requires |reached| == |categories|
    ensures forall r | r in WorkPasses(s, history, categories, true, reached).0 :: Harmless(r)
    decreases |categories|
  {
    if categories != [] {
      var n := |categories| - 1;
      var before := WorkPasses(s, history, categories[..n], true, reached[..n]);
      DryWorkIsHarmless(s, history, categories[..n], reached[..n]);
      DryCategoryPassIsHarmless(s, history + before.0, categories[n], reached[n]);
    }
  }

  /** The ledger's done-check of the categories found only reads. */
  lemma DedupIsHarmless(s: Services, history: seq<Request>, sent: seq<Request>, log: seq<LogEntry>, categories: seq<CategoryDescriptor>)
    requires forall r | r in sent :: Harmless(r)
    ensures var prep := DedupCategories(s, history, sent, log, categories);
      !prep.Crash? && forall r | r in prep.sent :: Harmless(r)
  {
    var req := UndoneCategoriesRequest(s.depictor, categories);
    DedupSends(s, history, sent, log, categories);
    assert Harmless(req);
  }

  /** The done-check of the categories found adds at most its own request to what was sent. */
  lemma DedupSends(s: Services, history: seq<Request>, sent: seq<Request>, log: seq<LogEntry>, categories: seq<CategoryDescriptor>)
    ensures var prep := DedupCategories(s, history, sent, log, categories);
      prep.sent == sent || prep.sent == sent + [UndoneCategoriesRequest(s.depictor, categories)]
  {
  }

  /** A root entry with a depth only reads: the subcategory lookup, then the done-check. */
  lemma ExpandIsHarmless(s: Services, history: seq<Request>, name: string, depth: int)
    ensures forall r | r in ExpandRoot(s, history, name, depth).sent :: Harmless(r)
  {
    var req := SubcategoriesRequest(name, depth);
    assert "action" !in req.payload;
    var head := [LogEntry(INFO, Separator, None),
      LogEntry(INFO, "Fetching subcategories for " + Catlink(s.codec, name, false) + " with depth " + IntToDecimal(depth), None)];
    var found := Subcategories(s.server(history, req));
    if found.Ok? {
      DedupIsHarmless(s, history, [req], head, found.value);
    }
  }

  /** The item lookup only reads. */
  lemma ItemLookupIsHarmless(name: string)
    ensures Harmless(ItemForCategoryRequest(name))
  {
    assert ItemForCategoryRequest(name).payload.Keys == {"format", "query"};
  }

  /** A root entry without a depth only reads: the item lookup, then the done-check. */
  lemma ResolveIsHarmless(s: Services, history: seq<Request>, name: string)
    ensures forall r | r in ResolveRoot(s, history, name).sent :: Harmless(r)
  {
    ItemLookupIsHarmless(name);
    var found := ItemForCategory(name, s.server(history, ItemForCategoryRequest(name)));
    if found.Ok? {
      ResolvedIsHarmless(s, history, name, found.value);
    }
  }

  /** The done-check after an item lookup that found the category's item only reads. */
  lemma ResolvedIsHarmless(s: Services, history: seq<Request>, name: string, category: CategoryDescriptor)
    requires ItemForCategory(name, s.server(history, ItemForCategoryRequest(name))) == Ok(category)
    ensures forall r | r in ResolveRoot(s, history, name).sent :: Harmless(r)
  {
    var req := ItemForCategoryRequest(name);
    ItemLookupIsHarmless(name);
    var head := [LogEntry(INFO, Separator, None), LogEntry(INFO, "Getting QID for " + Catlink(s.codec, name, false), None)];
    DedupIsHarmless(s, history, [req], head, [category]);
  }

  /** Before its category loop a root entry only reads. */
  lemma PrepareRootIsHarmless(s: Services, history: seq<Request>, entry: string)
    ensures var prep := PrepareRoot(s, history, entry);
      !prep.Crash? ==> forall r | r in prep.sent :: Harmless(r)
  {
    match RouteEntry(s.codec, entry)
    case BadDepth(_) =>
    case Expand(name, depth) => ExpandIsHarmless(s, history, name, depth);
    case Resolve(name) => ResolveIsHarmless(s, history, name);
  }

  lemma {:induction false} DryRootsAreHarmless(
    s: Services, history: seq<Request>, entries: seq<string>, choices: seq<Choice>)
    requires |choices| == |entries|
    ensures forall r | r in RootPasses(s, history, entries, true, choices).1 :: Harmless(r)
    decreases |entries|
  {
    if entries != [] {
      var n := |entries| - 1;
      var before := RootPasses(s, history, entries[..n], true, choices[..n]);
      DryRootsAreHarmless(s, history, entries[..n], choices[..n]);
      if before.0.None? {
        var h := history + before.1;
        var prep := PrepareRoot(s, h, entries[n]);
        PrepareRootIsHarmless(s, h, entries[n]);
        if prep.Dispatch? {
          var c := choices[n];
          var m := Reached(c.loop, |prep.undone|);
          DryWorkIsHarmless(s, h + prep.sent, prep.undone[..m], Padded(c.reached, m));
        }
      }
    }
  }

  /** With `dry_run`, the whole run issues neither a file mark nor a category completion. */
  lemma DryRunNeverMutates(s: Services, entries: seq<string>, choices: seq<Choice>)
    requires |choices| == |entries|
    ensures forall r | r in RootPasses(s, [], entries, true, choices).1 :: !IsMutation(r) && !IsFileMark(r) && !IsCompletion(r)
  {
    DryRootsAreHarmless(s, [], entries, choices);
  }

  // -------------------------------------------------------- root entries

  /** The text before the first `|` is the only prefix of that shape. */
  lemma {:induction false} SplitFirstIsUnique(left: string, right: string, c: char)
    requires c !in left
    ensures c in left + [c] + right && SplitFirst(left + [c] + right, c) == (left, right)
    decreases |left|
  {
    var s := left + [c] + right;
    assert s[|left|] == c;
    if left != [] {
      assert s[1..] == left[1..] + [c] + right;
      SplitFirstIsUnique(left[1..], right, c);
      assert [left[0]] + left[1..] == left;
    } else {
      assert s[1..] == right;
    }
  }

  /**
   * An entry `name|depth` with a `|`-free name is expanded from the
   * unquoted, stripped name to exactly the depth written after the bar.
   */
  lemma RouteOfNameAndDepth(codec: Codec, name: string, depth: int)
    requires '|' !in name
    ensures RouteEntry(codec, name + "|" + IntToDecimal(depth)) == Expand(codec.unquote(Strip(name)), depth)
  {
    var digits := IntToDecimal(depth);
    SplitFirstIsUnique(name, digits, '|');
    assert name + "|" + digits == name + ['|'] + digits;
    ParseIntOfDecimal(depth);
    assert !IsSpace(digits[0]) && !IsSpace(digits[|digits| - 1]) by {
      DecimalHasNoSpace(depth);
    }
  }

  lemma DecimalHasNoSpace(n: int)
    ensures var d := IntToDecimal(n); d != [] && !IsSpace(d[0]) && !IsSpace(d[|d| - 1])
  {
    var d := IntToDecimal(n);
    if n >= 0 {
      assert d == NatToDecimal(n);
      assert IsDigit(d[0]) && IsDigit(d[|d| - 1]);
    } else {
      assert d == "-" + NatToDecimal(-n);
      assert IsDigit(d[|d| - 1]);
    }
  }

  /**
   * A failing lookup, an empty list or a failing done-check skips to the
   * next root entry: the only entry that ends the run is one whose depth
   * is not an integer, and it ends it with `ValueError` before any request.
   */
  lemma OnlyBadDepthCrashes(s: Services, history: seq<Request>, entry: string, dryRun: bool, choice: Choice)
    ensures var pass := RootPass(s, history, entry, dryRun, choice);
      && (pass.0.Some? <==> RouteEntry(s.codec, entry).BadDepth?)
      && (pass.0.Some? ==> pass == (Some(ValueError), [], []))
  {
  }

  /** One more entry after a crash adds nothing. */
  lemma RootPassesAfterCrash(s: Services, history: seq<Request>, entries: seq<string>, dryRun: bool, choices: seq<Choice>)
    requires |choices| == |entries| && entries != []
    requires RootPasses(s, history, entries[..|entries| - 1], dryRun, choices[..|choices| - 1]).0.Some?
    ensures RootPasses(s, history, entries, dryRun, choices) == RootPasses(s, history, entries[..|entries| - 1], dryRun, choices[..|choices| - 1])
  {
  }

  /** Once an entry has crashed, the entries after it add nothing. */
  lemma {:induction false} CrashEndsRun(
    s: Services, history: seq<Request>, entries: seq<string>, dryRun: bool, choices: seq<Choice>,
    later: seq<string>, laterChoices: seq<Choice>)
    requires |choices| == |entries| && |laterChoices| == |later|
    requires RootPasses(s, history, entries, dryRun, choices).0.Some?
    ensures RootPasses(s, history, entries + later, dryRun, choices + laterChoices) == RootPasses(s, history, entries, dryRun, choices)
    decreases |later|
  {
    if later == [] {
      assert entries + later == entries && choices + laterChoices == choices;
    } else {
      var n := |later| - 1;
      var all, allChoices := entries + later, choices + laterChoices;
      CrashEndsRun(s, history, entries, dryRun, choices, later[..n], laterChoices[..n]);
      assert all[..|all| - 1] == entries + later[..n];
      assert allChoices[..|allChoices| - 1] == choices + laterChoices[..n];
      RootPassesAfterCrash(s, history, all, dryRun, allChoices);
    }
  }
}
