/**
 * The command-line run: root entries are routed to hierarchy expansion or
 * to single-category resolution, the categories not yet done in the ledger
 * are worked through one by one, and in each the files lacking a
 * "depicts" claim are marked, the category being completed only when
 * every one of its files was reached. Every step that fails is logged and
 * skipped; a SIGINT stops the loops between items.
 *
 * The four services are one `Server` answering each request given the
 * requests sent before it. What the program prints to the console is not
 * modelled; what it writes to the log file is the sequence of `LogEntry`.
 */
module NoDepictor {
  import opened PyText
  import opened PyJson
  import opened Http
  import opened Descriptors
  import opened InterruptHandling
  import opened DepictorClient
  import opened WikidataClient
  import opened CommonsClient
  import opened PetScanClient
  import opened Reporting

  /** The `type` column of a log entry. */
  datatype Level = INFO | WARN | ERROR

  function LevelName(level: Level): string {
    match level
    case INFO => "INFO"
    case WARN => "WARN"
    case ERROR => "ERROR"
  }

  /**
   * One `logToFile` call: its type and its message, the message of a
   * failure being the text before `: ` followed by the exception raised.
   */
  datatype LogEntry = LogEntry(level: Level, message: string, cause: Option<Error>)

  /** What the run talks to: the services, the ledger credentials, and percent-encoding. */
  datatype Services = Services(server: Server, depictor: Depictor, codec: Codec)

  const Separator: string := "----------------------------------------------------------------------------"

  // ------------------------------------------------------- one category

  /** How a category pass goes before its file loop: it stops early, or has files to work on. */
  datatype Prep =
    | Stop(sent: seq<Request>, log: seq<LogEntry>)
    | Work(sent: seq<Request>, undone: seq<FileDescriptor>)

  /**
   * The first half of a category pass: the image check (no image or a
   * failed check skips the category), the search for files lacking the
   * claim (first page only), and the ledger's done-check of those files.
   */
  function PrepareCategory(s: Services, history: seq<Request>, category: CategoryDescriptor): (p: Prep)
    ensures p.Work? ==> p.undone != []
  {
    var link := Catlink(s.codec, category.title, false);
    var imageReq := HasImageClaimRequest(category.qId);
    match HasImageClaim(category.qId, s.server(history, imageReq))
    case Err(e) =>
      Stop([imageReq], [LogEntry(ERROR, "Failed to check Wikidata item " + category.qId + " (" + link + ") for P18", Some(e))])
    case Ok(hasImage) =>
      if !hasImage then
        Stop([imageReq], [LogEntry(INFO, "Skipped " + link + " (" + category.qId + ") because it has no image.", None)])
      else
        var search := Crawl(s.server, history + [imageReq], InitialParams(category.title, category.qId), false, 1);
        var sent := [imageReq] + search.1;
        match search.0
        case Err(e) => Stop(sent, [LogEntry(ERROR, "Failed to fetch files for " + link, Some(e))])
        case Ok(files) =>
          var dedupReq := UndoneFilesRequest(s.depictor, files);
          match UndoneFiles(files, s.server(history + sent, dedupReq))
          case Err(e) => Stop(sent + [dedupReq], [LogEntry(ERROR, "Failed to fetch files for " + link, Some(e))])
          case Ok(undone) =>
            if undone == [] then Stop(sent + [dedupReq], [LogEntry(WARN, "No files to process in " + link + ".", None)])
            else Work(sent + [dedupReq], undone)
  }

  /** The mark of one file: nothing in a dry run; a failed mark is logged and the loop goes on. */
  function MarkStep(s: Services, history: seq<Request>, category: CategoryDescriptor, file: FileDescriptor, dryRun: bool)
    : (seq<Request>, seq<LogEntry>)
  {
    if dryRun then ([], [])
    else
      var req := MarkFileRequest(s.depictor, s.codec, file.mId, category);
      match MarkFileResult(file.mId, category, s.server(history, req))
      case Ok(_) => ([req], [])
      case Err(e) =>
        ([req], [LogEntry(ERROR, "Failed to mark " + Pagelink(s.codec, file.title, false) + " (" + file.mId
                             + ") as not depicting " + category.qId, Some(e))])
  }

  /** The marks of the files the loop reached, in order. */
  function Marks(s: Services, history: seq<Request>, category: CategoryDescriptor, files: seq<FileDescriptor>, dryRun: bool)
    : (seq<Request>, seq<LogEntry>)
  {
    if files == [] then ([], [])
    else
      var before := Marks(s, history, category, files[..|files| - 1], dryRun);
      var step := MarkStep(s, history + before.0, category, files[|files| - 1], dryRun);
      (before.0 + step.0, before.1 + step.1)
  }

  /**
   * After the file loop: a warning when it stopped before the last file;
   * otherwise the category's completion (not sent in a dry run) and its log.
   */
  function FinishCategory(s: Services, history: seq<Request>, category: CategoryDescriptor, total: nat, reached: nat, dryRun: bool)
    : (seq<Request>, seq<LogEntry>)
  {
    var link := Catlink(s.codec, category.title, false);
    if reached < total then
      ([], [LogEntry(WARN, "Interrupted processing " + link + " after " + NatToDecimal(reached) + "/" + NatToDecimal(total) + " files.", None)])
    else
      var success := LogEntry(INFO, "Successfully processed category " + link + " (" + category.qId + ") with "
                                    + NatToDecimal(total) + " files.", None);
      if dryRun then ([], [success])
      else
        var req := MarkCategoryRequest(s.depictor, category.qId);
        match MarkCategoryResult(category.qId, s.server(history, req))
        case Ok(_) => ([req], [success])
        case Err(e) => ([req], [LogEntry(ERROR, "Failed to mark category " + link + " as done", Some(e))])
  }

  function Min(a: nat, b: nat): nat {
    if a < b then a else b
  }

  /**
   * How far an interruptible loop got: through every item, or up to the
   * item at `count`, before which it saw the flag raised.
   */
  datatype Reach = All | Until(count: nat)

  /** How many of `total` items a loop that got as far as `reach` went through. */
  function Reached(reach: Reach, total: nat): (k: nat)
    ensures k <= total
  {
    match reach
    case All => total
    case Until(count) => Min(count, total)
  }

  /** No loop of `reaches` was cut short. */
  predicate Whole(reaches: seq<Reach>) {
    forall r | r in reaches :: r.All?
  }

  /** At most the last loop of `reaches` was cut short. */
  predicate CutOnlyAtEnd(reaches: seq<Reach>) {
    reaches == [] || Whole(reaches[..|reaches| - 1])
  }

  /**
   * One pass of `doWorkForUndoneCategories`' loop body, when the file loop
   * gets as far as `reach` in the undone files.
   */
  function CategoryPass(s: Services, history: seq<Request>, category: CategoryDescriptor, dryRun: bool, reach: Reach)
    : (seq<Request>, seq<LogEntry>)
  {
    match PrepareCategory(s, history, category)
    case Stop(sent, log) => (sent, log)
    case Work(sent, undone) =>
      var k := Reached(reach, |undone|);
      var marks := Marks(s, history + sent, category, undone[..k], dryRun);
      var finish := FinishCategory(s, history + sent + marks.0, category, |undone|, k, dryRun);
      (sent + marks.0 + finish.0, marks.1 + finish.1)
  }

  /**
   * The flag readings of a category pass: those of its file loop, when it
   * got that far with `reach`.
   */
  function PassReadings(prep: Prep, reach: Reach): seq<bool> {
    match prep
    case Stop(_, _) => []
    case Work(_, undone) => Readings(Reached(reach, |undone|), |undone|)
  }

  /** What the trap's state keeps across a stretch of the run. */
  twostate predicate TrapKept(ih: InterruptHandler)
    reads ih
  {
    && ih.Valid() && ih.entered
    && ih.originalHandler == old(ih.originalHandler)
    && (old(ih.interrupted) ==> ih.interrupted)
    && (old(ih.released) ==> ih.released && ih.installed == old(ih.installed))
  }

  /**
   * The check `interruptible` makes before each item, at which a SIGINT
   * may have just arrived: the flag as read, and recorded.
   */
  method CheckFlag(ih: InterruptHandler) returns (raised: bool)
    requires ih.Valid() && ih.entered
    modifies ih
    ensures TrapKept(ih)
    ensures raised == ih.interrupted
    ensures ih.checks == old(ih.checks) + [raised]
  {
    ih.SignalMayArrive();
    raised := ih.Check();
  }

  /**
   * The check before item `k` of `n`, after `k` down readings since
   * `start`: a raised reading ends the loop's readings, a down one extends
   * them.
   */
  method CheckBeforeItem(ih: InterruptHandler, ghost start: seq<bool>, ghost k: nat, ghost n: nat) returns (raised: bool)
    requires ih.Valid() && ih.entered
    requires k < n && ih.checks == start + Downs(k)
    modifies ih
    ensures TrapKept(ih)
    ensures raised == ih.interrupted
    ensures raised ==> ih.checks == start + Readings(k, n)
    ensures !raised ==> ih.checks == start + Downs(k + 1)
  {
    raised := CheckFlag(ih);
    assert ih.checks == start + (Downs(k) + [raised]);
  }

  /** The steps of a category pass up to its file loop, each failure logged and ending the pass. */
  method PrepareFiles(s: Services, history: seq<Request>, category: CategoryDescriptor) returns (p: Prep)
    ensures p == PrepareCategory(s, history, category)
  {
    var link := Catlink(s.codec, category.title, false);
    var imageReq := HasImageClaimRequest(category.qId);
    var hasImage := HasImageClaim(category.qId, s.server(history, imageReq));
    var sent := [imageReq];
    if hasImage.Err? {
      return Stop(sent, [LogEntry(ERROR, "Failed to check Wikidata item " + category.qId + " (" + link + ") for P18", Some(hasImage.error))]);
    }
    if !hasImage.value {
      return Stop(sent, [LogEntry(INFO, "Skipped " + link + " (" + category.qId + ") because it has no image.", None)]);
    }
    var files, searchReqs := GetFilesNotDepictingSubject(s.server, history + sent, category.title, category.qId, false, 0);
    sent := sent + searchReqs;
    if files.Err? {
      return Stop(sent, [LogEntry(ERROR, "Failed to fetch files for " + link, Some(files.error))]);
    }
    var dedupReq := UndoneFilesRequest(s.depictor, files.value);
    var undone := UndoneFiles(files.value, s.server(history + sent, dedupReq));
    sent := sent + [dedupReq];
    if undone.Err? {
      return Stop(sent, [LogEntry(ERROR, "Failed to fetch files for " + link, Some(undone.error))]);
    }
    if undone.value == [] {
      return Stop(sent, [LogEntry(WARN, "No files to process in " + link + ".", None)]);
    }
    return Work(sent, undone.value);
  }

  /** The body of the file loop for one file: its mark, and the error logged when the mark fails. */
  method MarkOneFile(s: Services, history: seq<Request>, category: CategoryDescriptor, file: FileDescriptor, dryRun: bool)
    returns (sent: seq<Request>, log: seq<LogEntry>)
    ensures (sent, log) == MarkStep(s, history, category, file, dryRun)
  {
    sent, log := [], [];
    if !dryRun {
      var req := MarkFileRequest(s.depictor, s.codec, file.mId, category);
      var result := MarkFileResult(file.mId, category, s.server(history, req));
      sent := [req];
      if result.Err? {
        log := [LogEntry(ERROR, "Failed to mark " + Pagelink(s.codec, file.title, false) + " (" + file.mId
                                  + ") as not depicting " + category.qId, Some(result.error))];
      }
    }
  }

  /**
   * The pause between files: a SIGINT that surfaces during it as
   * `KeyboardInterrupt` is caught and the flag is raised by hand.
   */
  method Pause(ih: InterruptHandler)
    requires ih.Valid() && ih.entered
    modifies ih
    ensures TrapKept(ih)
    ensures ih.checks == old(ih.checks)
  {
    if * {
      ih.ForceInterrupt();
    }
  }

  /** One more file reached extends the marks by that file's step. */
  lemma MarksStep(
    s: Services, history: seq<Request>, category: CategoryDescriptor, undone: seq<FileDescriptor>, reached: nat, file: FileDescriptor,
    dryRun: bool, marked: seq<Request>, log: seq<LogEntry>, stepSent: seq<Request>, stepLog: seq<LogEntry>)
    requires reached < |undone| && file == undone[reached]
    requires (marked, log) == Marks(s, history, category, undone[..reached], dryRun)
    requires (stepSent, stepLog) == MarkStep(s, history + marked, category, file, dryRun)
    ensures (marked + stepSent, log + stepLog) == Marks(s, history, category, undone[..reached + 1], dryRun)
  {
    var files := undone[..reached + 1];
    assert files[..|files| - 1] == undone[..reached] && files[|files| - 1] == undone[reached];
  }

  /**
   * One turn of the file loop, `reached` files in: read the flag, and
   * unless it is up, mark the next file and give a SIGINT its chance.
   */
  method MarkNext(
    ih: InterruptHandler, s: Services, history: seq<Request>, category: CategoryDescriptor,
    undone: seq<FileDescriptor>, dryRun: bool, marked: seq<Request>, log: seq<LogEntry>, reached: nat, ghost start: seq<bool>)
    returns (raised: bool, marked': seq<Request>, log': seq<LogEntry>)
    requires ih.Valid() && ih.entered
    requires reached < |undone| && ih.checks == start + Downs(reached)
    requires (marked, log) == Marks(s, history, category, undone[..reached], dryRun)
    modifies ih
    ensures TrapKept(ih)
    ensures old(ih.interrupted) ==> raised
    ensures raised ==> ih.interrupted && ih.checks == start + Readings(reached, |undone|)
    ensures raised ==> marked' == marked && log' == log
    ensures !raised ==> ih.checks == start + Downs(reached + 1)
    ensures !raised ==> (marked', log') == Marks(s, history, category, undone[..reached + 1], dryRun)
  {
    marked', log' := marked, log;
    raised := CheckBeforeItem(ih, start, reached, |undone|);
    if raised {
      return;
    }
    var file := undone[reached];
    var stepSent, stepLog := MarkOneFile(s, history + marked, category, file, dryRun);
    Pause(ih);
    MarksStep(s, history, category, undone, reached, file, dryRun, marked, log, stepSent, stepLog);
    marked', log' := marked + stepSent, log + stepLog;
  }

  /**
   * `for i, (mId, fileName) in interruptible(enumerate(undoneFiles), ih)`:
   * mark the files in order until the flag is seen raised before one.
   */
  method MarkFiles(
    ih: InterruptHandler, s: Services, history: seq<Request>, category: CategoryDescriptor,
    undone: seq<FileDescriptor>, dryRun: bool)
    returns (marked: seq<Request>, log: seq<LogEntry>, reached: nat)
    requires ih.Valid() && ih.entered
    modifies ih
    ensures TrapKept(ih)
    ensures reached <= |undone|
    ensures (marked, log) == Marks(s, history, category, undone[..reached], dryRun)
    ensures reached < |undone| ==> ih.interrupted
    ensures old(ih.interrupted) ==> reached == 0
    ensures ih.checks == old(ih.checks) + Readings(reached, |undone|)
  {
    marked := [];
    log := [];
    reached := 0;
    while reached < |undone|
      invariant reached <= |undone|
      invariant (marked, log) == Marks(s, history, category, undone[..reached], dryRun)
      invariant TrapKept(ih)
      invariant old(ih.interrupted) ==> reached == 0
      invariant ih.checks == old(ih.checks) + Downs(reached)
    {
      var raised;
      raised, marked, log := MarkNext(ih, s, history, category, undone, dryRun, marked, log, reached, old(ih.checks));
      if raised {
        break;
      }
      reached := reached + 1;
    }
    if reached == |undone| {
      assert Readings(reached, |undone|) == Downs(reached) + [];
    }
  }

  /**
   * The body of the category loop. `reach` is how far the interruptible
   * file loop got: through every undone file, unless the flag was seen
   * raised before one of them.
   */
  method ProcessCategory(ih: InterruptHandler, s: Services, history: seq<Request>, category: CategoryDescriptor, dryRun: bool)
    returns (sent: seq<Request>, log: seq<LogEntry>, ghost reach: Reach)
    requires ih.Valid() && ih.entered
    modifies ih
    ensures TrapKept(ih)
    ensures (sent, log) == CategoryPass(s, history, category, dryRun, reach)
    ensures reach.Until? ==> ih.interrupted
    ensures reach.Until? ==>
      PrepareCategory(s, history, category).Work? && reach.count < |PrepareCategory(s, history, category).undone|
    ensures old(ih.interrupted) && PrepareCategory(s, history, category).Work? ==> reach == Until(0)
    ensures ih.checks == old(ih.checks) + PassReadings(PrepareCategory(s, history, category), reach)
  {
    reach := All;
    var prep := PrepareFiles(s, history, category);
    if prep.Stop? {
      sent, log := prep.sent, prep.log;
      return;
    }
    var marked, marks, k := MarkFiles(ih, s, history + prep.sent, category, prep.undone, dryRun);
    reach := if k < |prep.undone| then Until(k) else All;
    // `i + 1 < len(undoneFiles)`, with `i` the index of the last file reached
    var finish := FinishCategory(s, history + prep.sent + marked, category, |prep.undone|, k, dryRun);
    WorkPass(s, history, category, dryRun, prep.sent, prep.undone, k, marked, marks);
    sent := prep.sent + marked + finish.0;
    log := marks + finish.1;
  }

  /** A pass whose file loop went through `k` of its undone files, with the reach that records it. */
  lemma WorkPass(
    s: Services, history: seq<Request>, category: CategoryDescriptor, dryRun: bool,
    sent: seq<Request>, undone: seq<FileDescriptor>, k: nat, marked: seq<Request>, marks: seq<LogEntry>)
    requires PrepareCategory(s, history, category) == Work(sent, undone)
    requires k <= |undone|
    requires (marked, marks) == Marks(s, history + sent, category, undone[..k], dryRun)
    ensures var reach := if k < |undone| then Until(k) else All;
      var finish := FinishCategory(s, history + sent + marked, category, |undone|, k, dryRun);
      CategoryPass(s, history, category, dryRun, reach) == (sent + marked + finish.0, marks + finish.1)
  {
  }

  // ------------------------------------------------------- the category loop

  /**
   * `doWorkForUndoneCategories` over the categories its loop reached, the
   * file loop of the `j`-th one getting as far as `reached[j]`.
   */
  function WorkPasses(s: Services, history: seq<Request>, categories: seq<CategoryDescriptor>, dryRun: bool, reached: seq<Reach>)
    : (seq<Request>, seq<LogEntry>)
    requires |reached| == |categories|
  {
    if categories == [] then ([], [])
    else
      var n := |categories| - 1;
      var before := WorkPasses(s, history, categories[..n], dryRun, reached[..n]);
      var pass := CategoryPass(s, history + before.0, categories[n], dryRun, reached[n]);
      (before.0 + pass.0, before.1 + pass.1)
  }

  /**
   * The flag readings of `doWorkForUndoneCategories` over the categories
   * its loop reached: before each one a reading that saw the flag down,
   * then those of its pass.
   */
  function WorkReadings(s: Services, history: seq<Request>, categories: seq<CategoryDescriptor>, dryRun: bool, reached: seq<Reach>)
    : seq<bool>
    requires |reached| == |categories|
  {
    if categories == [] then []
    else
      var n := |categories| - 1;
      var before := WorkPasses(s, history, categories[..n], dryRun, reached[..n]);
      WorkReadings(s, history, categories[..n], dryRun, reached[..n]) + [false]
        + PassReadings(PrepareCategory(s, history + before.0, categories[n]), reached[n])
  }

  /** The readings of one more category: a down reading, then those of its pass. */
  lemma WorkReadingsStep(
    s: Services, history: seq<Request>, undone: seq<CategoryDescriptor>, processed: nat, dryRun: bool, reached: seq<Reach>, k: Reach,
    sent: seq<Request>, log: seq<LogEntry>, start: seq<bool>, checks: seq<bool>)
    requires processed < |undone| && |reached| == processed
    requires (sent, log) == WorkPasses(s, history, undone[..processed], dryRun, reached)
    requires checks == start + WorkReadings(s, history, undone[..processed], dryRun, reached) + [false]
                       + PassReadings(PrepareCategory(s, history + sent, undone[processed]), k)
    ensures checks == start + WorkReadings(s, history, undone[..processed + 1], dryRun, reached + [k])
  {
    var categories, all := undone[..processed + 1], reached + [k];
    assert categories[..|categories| - 1] == undone[..processed] && categories[|categories| - 1] == undone[processed];
    assert all[..|all| - 1] == reached && all[|all| - 1] == k;
    var readings := WorkReadings(s, history, undone[..processed], dryRun, reached);
    var pass := PassReadings(PrepareCategory(s, history + sent, undone[processed]), k);
    WorkReadingsLast(s, history, categories, dryRun, all, undone[..processed], reached, undone[processed], k, sent, log);
    Regroup(start, readings, [false], pass);
  }

  /** Readings appended after earlier ones, one stretch at a time. */
  lemma Regroup(start: seq<bool>, readings: seq<bool>, check: seq<bool>, more: seq<bool>)
    ensures start + readings + check + more == start + (readings + check + more)
  {
  }

  /** `WorkReadings` of a non-empty list: the readings before the last category, a down one, then its pass's. */
  lemma WorkReadingsLast(
    s: Services, history: seq<Request>, categories: seq<CategoryDescriptor>, dryRun: bool, reached: seq<Reach>,
    before: seq<CategoryDescriptor>, beforeReached: seq<Reach>, category: CategoryDescriptor, k: Reach,
    sent: seq<Request>, log: seq<LogEntry>)
    requires |reached| == |categories| && categories != []
    requires before == categories[..|categories| - 1] && beforeReached == reached[..|reached| - 1]
    requires category == categories[|categories| - 1] && k == reached[|reached| - 1]
    requires WorkPasses(s, history, before, dryRun, beforeReached) == (sent, log)
    ensures WorkReadings(s, history, categories, dryRun, reached)
            == WorkReadings(s, history, before, dryRun, beforeReached) + [false] + PassReadings(PrepareCategory(s, history + sent, category), k)
  {
  }

  /** The step of the category loop, as `WorkPasses` unfolds it. */
  lemma WorkPassesStep(
    s: Services, history: seq<Request>, undone: seq<CategoryDescriptor>, processed: nat, dryRun: bool, reached: seq<Reach>, k: Reach,
    sent: seq<Request>, log: seq<LogEntry>, passSent: seq<Request>, passLog: seq<LogEntry>)
    requires processed < |undone| && |reached| == processed
    requires (sent, log) == WorkPasses(s, history, undone[..processed], dryRun, reached)
    requires (passSent, passLog) == CategoryPass(s, history + sent, undone[processed], dryRun, k)
    ensures (sent + passSent, log + passLog) == WorkPasses(s, history, undone[..processed + 1], dryRun, reached + [k])
  {
    var categories, all := undone[..processed + 1], reached + [k];
    assert categories[..|categories| - 1] == undone[..processed] && categories[|categories| - 1] == undone[processed];
    assert all[..|all| - 1] == reached && all[|all| - 1] == k;
    WorkPassesLast(s, history, categories, dryRun, all, undone[..processed], reached, undone[processed], k, sent, log);
  }

  /** `WorkPasses` of a non-empty list: the passes before the last category, then its pass. */
  lemma WorkPassesLast(
    s: Services, history: seq<Request>, categories: seq<CategoryDescriptor>, dryRun: bool, reached: seq<Reach>,
    before: seq<CategoryDescriptor>, beforeReached: seq<Reach>, category: CategoryDescriptor, k: Reach,
    sent: seq<Request>, log: seq<LogEntry>)
    requires |reached| == |categories| && categories != []
    requires before == categories[..|categories| - 1] && beforeReached == reached[..|reached| - 1]
    requires category == categories[|categories| - 1] && k == reached[|reached| - 1]
    requires WorkPasses(s, history, before, dryRun, beforeReached) == (sent, log)
    ensures var pass := CategoryPass(s, history + sent, category, dryRun, k);
      WorkPasses(s, history, categories, dryRun, reached) == (sent + pass.0, log + pass.1)
  {
  }

  /** `doWorkForUndoneCategories`: the categories in order, until the flag is seen raised before one. */
  method DoWorkForUndoneCategories(ih: InterruptHandler, s: Services, history: seq<Request>, undone: seq<CategoryDescriptor>, dryRun: bool)
    returns (sent: seq<Request>, log: seq<LogEntry>, processed: nat, ghost reached: seq<Reach>)
    requires ih.Valid() && ih.entered
    modifies ih
    ensures TrapKept(ih)
    ensures processed <= |undone| && |reached| == processed
    ensures (sent, log) == WorkPasses(s, history, undone[..processed], dryRun, reached)
    ensures processed < |undone| ==> ih.interrupted
    ensures !Whole(reached) ==> ih.interrupted
    ensures CutOnlyAtEnd(reached)
    ensures old(ih.interrupted) ==> processed == 0
    ensures ih.checks == old(ih.checks) + WorkReadings(s, history, undone[..processed], dryRun, reached)
                         + if processed < |undone| then [true] else []
  {
    sent, log := [], [];
    processed, reached := 0, [];
    ghost var start := ih.checks;
    while processed < |undone|
      invariant processed <= |undone| && |reached| == processed
      invariant (sent, log) == WorkPasses(s, history, undone[..processed], dryRun, reached)
      invariant TrapKept(ih)
      invariant !Whole(reached) ==> ih.interrupted
      invariant CutOnlyAtEnd(reached)
      invariant old(ih.interrupted) ==> processed == 0
      invariant ih.checks == start + WorkReadings(s, history, undone[..processed], dryRun, reached)
    {
      var raised := CheckFlag(ih);
      if raised {
        break;
      }
      var passSent, passLog, k := ProcessCategory(ih, s, history + sent, undone[processed], dryRun);
      WorkPassesStep(s, history, undone, processed, dryRun, reached, k, sent, log, passSent, passLog);
      WorkReadingsStep(s, history, undone, processed, dryRun, reached, k, sent, log, start, ih.checks);
      CutAtEnd(reached, k);
      sent, log := sent + passSent, log + passLog;
      processed, reached := processed + 1, reached + [k];
    }
  }

  /** A loop appended after whole ones: it alone may have been cut short. */
  lemma CutAtEnd(reaches: seq<Reach>, last: Reach)
    requires Whole(reaches)
    ensures CutOnlyAtEnd(reaches + [last])
    ensures !Whole(reaches + [last]) ==> last.Until?
  {
    assert (reaches + [last])[..|reaches|] == reaches;
  }

  // ------------------------------------------------------------ root entries

  /** The list comprehension that drops a leading `Category:` from a root entry. */
  function WithoutCategoryPrefix(entry: string): (r: string)
    ensures StartsWith(entry, "Category:") ==> entry == "Category:" + r
    ensures !StartsWith(entry, "Category:") ==> r == entry
  {
    if StartsWith(entry, "Category:") then entry[9..] else entry
  }

  /** The root entries, each without its leading `Category:`, in order. */
  function RootEntries(categories: seq<string>): (r: seq<string>)
    ensures |r| == |categories|
    ensures forall i :: 0 <= i < |r| ==> r[i] == WithoutCategoryPrefix(categories[i])
  {
    seq(|categories|, i requires 0 <= i < |categories| => WithoutCategoryPrefix(categories[i]))
  }

  /**
   * Where a root entry goes: with a `|`, the part before the first one
   * names a category to expand to the depth after it; without, the entry
   * names the one category to resolve. A depth that is not an integer
   * makes `int()` raise.
   */
  datatype Route = Expand(name: string, depth: int) | Resolve(name: string) | BadDepth(name: string)

  function RouteEntry(codec: Codec, entry: string): (r: Route)
    ensures '|' in entry <==> !r.Resolve?
    ensures '|' !in entry ==> r == Resolve(codec.unquote(Strip(entry)))
  {
    if '|' in entry then
      var parts := SplitFirst(entry, '|');
      var name := codec.unquote(Strip(parts.0));
      match ParseInt(Strip(parts.1))
      case None => BadDepth(name)
      case Some(depth) => Expand(name, depth)
    else Resolve(codec.unquote(Strip(entry)))
  }

  /** How a root entry goes up to the category loop. */
  datatype RootPrep =
    | Crash(error: Error)
    | Skip(sent: seq<Request>, log: seq<LogEntry>)
    | Dispatch(sent: seq<Request>, log: seq<LogEntry>, undone: seq<CategoryDescriptor>)

  /** The ledger's done-check of the categories found, or the reason to move on to the next root entry. */
  function DedupCategories(s: Services, history: seq<Request>, sent: seq<Request>, log: seq<LogEntry>, categories: seq<CategoryDescriptor>)
    : (p: RootPrep)
    ensures p.Dispatch? ==> p.undone != []
    ensures !p.Crash?
  {
    if categories == [] then Skip(sent, log + [LogEntry(WARN, "No categories to process.", None)])
    else
      var req := UndoneCategoriesRequest(s.depictor, categories);
      match UndoneCategories(categories, s.server(history + sent, req))
      case Err(e) =>
        Skip(sent + [req], log + [LogEntry(ERROR, "Failed to check which categories of were done in Depictor", Some(e))])
      case Ok(undone) =>
        if undone == [] then Skip(sent + [req], log + [LogEntry(INFO, "All categories have already been done in Depictor.", None)])
        else Dispatch(sent + [req], log + [LogEntry(INFO, "Found " + NatToDecimal(|undone|) + " categories not done in Depictor.", None)], undone)
  }

  /** The body of `main`'s loop up to `doWorkForUndoneCategories`. */
  function PrepareRoot(s: Services, history: seq<Request>, entry: string): RootPrep {
    PrepareRoute(s, history, RouteEntry(s.codec, entry))
  }

  /** The lookup a parsed root entry calls for; a depth that is not an integer raises `ValueError`. */
  function PrepareRoute(s: Services, history: seq<Request>, route: Route): RootPrep {
    match route
    case BadDepth(_) => Crash(ValueError)
    case Expand(name, depth) => ExpandRoot(s, history, name, depth)
    case Resolve(name) => ResolveRoot(s, history, name)
  }

  /** A root entry with a depth: its subcategories down to that depth, then their done-check. */
  function ExpandRoot(s: Services, history: seq<Request>, name: string, depth: int): (p: RootPrep)
    ensures !p.Crash?
  {
    var link := Catlink(s.codec, name, false);
    var head := [LogEntry(INFO, Separator, None),
                 LogEntry(INFO, "Fetching subcategories for " + link + " with depth " + IntToDecimal(depth), None)];
    var req := SubcategoriesRequest(name, depth);
    match Subcategories(s.server(history, req))
    case Err(e) => Skip([req], head + [LogEntry(ERROR, "Failed to fetch subcategories for " + link, Some(e))])
    case Ok(categories) => DedupCategories(s, history, [req], head, categories)
  }

  /** A root entry without a depth: the one category's item, then its done-check. */
  function ResolveRoot(s: Services, history: seq<Request>, name: string): (p: RootPrep)
    ensures !p.Crash?
  {
    var link := Catlink(s.codec, name, false);
    var head := [LogEntry(INFO, Separator, None), LogEntry(INFO, "Getting QID for " + link, None)];
    var req := ItemForCategoryRequest(name);
    match ItemForCategory(name, s.server(history, req))
    case Err(e) => Skip([req], head + [LogEntry(ERROR, "Failed to get QID for " + link, Some(e))])
    case Ok(category) => DedupCategories(s, history, [req], head, [category])
  }

  /**
   * How far the interruptible loops of one root entry got: its category
   * loop, and the file loop of each category that loop reached (a
   * category without its own reach is gone through whole).
   */
  datatype Choice = Choice(loop: Reach, reached: seq<Reach>)

  /** The loops of a root entry went through everything. */
  predicate WholeChoice(choice: Choice) {
    choice.loop.All? && Whole(choice.reached)
  }

  /** The reach of the first `n` categories: those given, then whole ones. */
  function Padded(reached: seq<Reach>, n: nat): (r: seq<Reach>)
    ensures |r| == n
  {
    if n <= |reached| then reached[..n] else reached + seq(n - |reached|, _ => All)
  }

  /** One pass of `main`'s loop: a crash, or the requests sent and the log written. */
  function RootPass(s: Services, history: seq<Request>, entry: string, dryRun: bool, choice: Choice)
    : (Option<Error>, seq<Request>, seq<LogEntry>)
  {
    RootPassFrom(s, history, PrepareRoot(s, history, entry), dryRun, choice)
  }

  /** The rest of a pass of `main`'s loop, once it is known how the entry went up to the category loop. */
  function RootPassFrom(s: Services, history: seq<Request>, prep: RootPrep, dryRun: bool, choice: Choice)
    : (Option<Error>, seq<Request>, seq<LogEntry>)
  {
    match prep
    case Crash(e) => (Some(e), [], [])
    case Skip(sent, log) => (None, sent, log)
    case Dispatch(sent, log, undone) =>
      var n := Reached(choice.loop, |undone|);
      var work := WorkPasses(s, history + sent, undone[..n], dryRun, Padded(choice.reached, n));
      (None, sent + work.0, log + work.1)
  }

  /** `main`'s loop over the root entries it reached; a crash ends it. */
  function RootPasses(s: Services, history: seq<Request>, entries: seq<string>, dryRun: bool, choices: seq<Choice>)
    : (Option<Error>, seq<Request>, seq<LogEntry>)
    requires |choices| == |entries|
  {
    if entries == [] then (None, [], [])
    else
      var n := |entries| - 1;
      var before := RootPasses(s, history, entries[..n], dryRun, choices[..n]);
      if before.0.Some? then before
      else
        var pass := RootPass(s, history + before.1, entries[n], dryRun, choices[n]);
        (pass.0, before.1 + pass.1, before.2 + pass.2)
  }

  /**
   * The flag readings of the rest of a pass of `main`'s loop: those of its
   * category loop, when it got that far, the last one raised when that
   * loop stopped early.
   */
  function RootReadingsFrom(s: Services, history: seq<Request>, prep: RootPrep, dryRun: bool, choice: Choice): seq<bool> {
    match prep
    case Dispatch(sent, _, undone) =>
      var n := Reached(choice.loop, |undone|);
      WorkReadings(s, history + sent, undone[..n], dryRun, Padded(choice.reached, n)) + if n < |undone| then [true] else []
    case _ => []
  }

  /**
   * The flag readings of `main`'s loop over the root entries it reached:
   * before each one a reading that saw the flag down, then those of its
   * pass; none after a crash.
   */
  function RootReadings(s: Services, history: seq<Request>, entries: seq<string>, dryRun: bool, choices: seq<Choice>): seq<bool>
    requires |choices| == |entries|
  {
    if entries == [] then []
    else
      var n := |entries| - 1;
      var before := RootPasses(s, history, entries[..n], dryRun, choices[..n]);
      var readings := RootReadings(s, history, entries[..n], dryRun, choices[..n]);
      if before.0.Some? then readings
      else readings + [false] + RootReadingsFrom(s, history + before.1, PrepareRoot(s, history + before.1, entries[n]), dryRun, choices[n])
  }

  /** The body of `main`'s loop up to the category loop, step by step. */
  method PrepareRootEntry(s: Services, history: seq<Request>, entry: string) returns (p: RootPrep)
    ensures p == PrepareRoot(s, history, entry)
  {
    if '|' in entry {
      var parts := SplitFirst(entry, '|');
      var name := s.codec.unquote(Strip(parts.0));
      var depth := ParseInt(Strip(parts.1));
      RouteWithDepth(s.codec, entry, name, depth);
      if depth.None? {
        return Crash(ValueError);
      }
      p := FetchSubcategories(s, history, name, depth.value);
    } else {
      p := LookUpItem(s, history, s.codec.unquote(Strip(entry)));
    }
  }

  /** An entry with a `|` is routed by its depth: none that parses is a `BadDepth`. */
  lemma RouteWithDepth(codec: Codec, entry: string, name: string, depth: Option<int>)
    requires '|' in entry
    requires name == codec.unquote(Strip(SplitFirst(entry, '|').0))
    requires depth == ParseInt(Strip(SplitFirst(entry, '|').1))
    ensures RouteEntry(codec, entry) == if depth.None? then BadDepth(name) else Expand(name, depth.value)
  {
  }

  /** The `|` branch of the loop body: the subcategory lookup, then the done-check. */
  method FetchSubcategories(s: Services, history: seq<Request>, name: string, depth: int) returns (p: RootPrep)
    ensures p == ExpandRoot(s, history, name, depth)
  {
    var link := Catlink(s.codec, name, false);
    var log := [LogEntry(INFO, Separator, None),
                LogEntry(INFO, "Fetching subcategories for " + link + " with depth " + IntToDecimal(depth), None)];
    var req := SubcategoriesRequest(name, depth);
    var found := Subcategories(s.server(history, req));
    if found.Err? {
      return Skip([req], log + [LogEntry(ERROR, "Failed to fetch subcategories for " + link, Some(found.error))]);
    }
    p := CheckCategories(s, history, [req], log, found.value);
  }

  /** The other branch of the loop body: the item lookup, then the done-check. */
  method LookUpItem(s: Services, history: seq<Request>, name: string) returns (p: RootPrep)
    ensures p == ResolveRoot(s, history, name)
  {
    var link := Catlink(s.codec, name, false);
    var log := [LogEntry(INFO, Separator, None), LogEntry(INFO, "Getting QID for " + link, None)];
    var req := ItemForCategoryRequest(name);
    var item := ItemForCategory(name, s.server(history, req));
    if item.Err? {
      return Skip([req], log + [LogEntry(ERROR, "Failed to get QID for " + link, Some(item.error))]);
    }
    p := CheckCategories(s, history, [req], log, [item.value]);
  }

  /** The end of the loop body: the done-check of the categories found, each way out logged. */
  method CheckCategories(s: Services, history: seq<Request>, sent: seq<Request>, log: seq<LogEntry>, categories: seq<CategoryDescriptor>)
    returns (p: RootPrep)
    ensures p == DedupCategories(s, history, sent, log, categories)
  {
    if categories == [] {
      return Skip(sent, log + [LogEntry(WARN, "No categories to process.", None)]);
    }
    var req := UndoneCategoriesRequest(s.depictor, categories);
    var undone := UndoneCategories(categories, s.server(history + sent, req));
    if undone.Err? {
      return Skip(sent + [req], log + [LogEntry(ERROR, "Failed to check which categories of were done in Depictor", Some(undone.error))]);
    }
    if undone.value == [] {
      return Skip(sent + [req], log + [LogEntry(INFO, "All categories have already been done in Depictor.", None)]);
    }
    return Dispatch(sent + [req], log + [LogEntry(INFO, "Found " + NatToDecimal(|undone.value|) + " categories not done in Depictor.", None)], undone.value);
  }

  /** One pass of `main`'s loop. */
  method ProcessRoot(ih: InterruptHandler, s: Services, history: seq<Request>, entry: string, dryRun: bool)
    returns (crash: Option<Error>, sent: seq<Request>, log: seq<LogEntry>, ghost choice: Choice)
    requires ih.Valid() && ih.entered
    modifies ih
    ensures TrapKept(ih)
    ensures (crash, sent, log) == RootPass(s, history, entry, dryRun, choice)
    ensures !WholeChoice(choice) ==> ih.interrupted
    ensures CutOnlyAtEnd(choice.reached)
    ensures ih.checks == old(ih.checks) + RootReadingsFrom(s, history, PrepareRoot(s, history, entry), dryRun, choice)
  {
    var prep := PrepareRootEntry(s, history, entry);
    crash, sent, log, choice := DispatchCategories(ih, s, history, prep, dryRun);
  }

  /** The category loop of a root entry that got that far. */
  method DispatchCategories(ih: InterruptHandler, s: Services, history: seq<Request>, prep: RootPrep, dryRun: bool)
    returns (crash: Option<Error>, sent: seq<Request>, log: seq<LogEntry>, ghost choice: Choice)
    requires ih.Valid() && ih.entered
    modifies ih
    ensures TrapKept(ih)
    ensures (crash, sent, log) == RootPassFrom(s, history, prep, dryRun, choice)
    ensures !WholeChoice(choice) ==> ih.interrupted
    ensures CutOnlyAtEnd(choice.reached)
    ensures choice.loop.Until? ==> prep.Dispatch? && choice.loop.count < |prep.undone|
    ensures !prep.Dispatch? ==> choice == Choice(All, [])
    ensures ih.checks == old(ih.checks) + RootReadingsFrom(s, history, prep, dryRun, choice)
  {
    choice := Choice(All, []);
    match prep
    case Crash(e) =>
      crash, sent, log := Some(e), [], [];
    case Skip(skipSent, skipLog) =>
      crash, sent, log := None, skipSent, skipLog;
    case Dispatch(prepSent, prepLog, undone) =>
      var workSent, workLog, processed, reached := DoWorkForUndoneCategories(ih, s, history + prepSent, undone, dryRun);
      choice := Choice(if processed < |undone| then Until(processed) else All, reached);
      assert Padded(reached, processed) == reached;
      crash, sent, log := None, prepSent + workSent, prepLog + workLog;
  }

  // -------------------------------------------------------------------- main

  /** How a run ends: `sys.exit(1)` before any work, an exception escaping the loop, or normally. */
  datatype Outcome = Exited | Crashed(error: Error) | Finished

  function StartEntry(roots: nat): LogEntry {
    LogEntry(INFO, "Starting new run over " + NatToDecimal(roots) + " root categories.", None)
  }

  const FinishEntry: LogEntry := LogEntry(INFO, "Finished execution.", None)

  /** `RootPasses` over a non-empty list, after a prefix that did not crash: the prefix, then the last pass. */
  lemma RootPassesLast(
    s: Services, entries: seq<string>, dryRun: bool, choices: seq<Choice>,
    before: seq<string>, beforeChoices: seq<Choice>, entry: string, choice: Choice, sent: seq<Request>, log: seq<LogEntry>)
    requires |choices| == |entries| && entries != []
    requires before == entries[..|entries| - 1] && beforeChoices == choices[..|choices| - 1]
    requires entry == entries[|entries| - 1] && choice == choices[|choices| - 1]
    requires RootPasses(s, [], before, dryRun, beforeChoices) == (None, sent, log)
    ensures var pass := RootPass(s, sent, entry, dryRun, choice);
      RootPasses(s, [], entries, dryRun, choices) == (pass.0, sent + pass.1, log + pass.2)
  {
    var n := |entries| - 1;
    assert entries[..n] == before && choices[..n] == beforeChoices && entries[n] == entry && choices[n] == choice;
    assert [] + sent == sent;
  }

  /** The step of `main`'s loop over root entries, as `RootPasses` unfolds it. */
  lemma RootPassesStep(
    s: Services, roots: seq<string>, processed: nat, dryRun: bool, choices: seq<Choice>, choice: Choice,
    sent: seq<Request>, log: seq<LogEntry>, passCrash: Option<Error>, passSent: seq<Request>, passLog: seq<LogEntry>)
    requires processed < |roots| && |choices| == processed
    requires RootPasses(s, [], roots[..processed], dryRun, choices) == (None, sent, log)
    requires (passCrash, passSent, passLog) == RootPass(s, sent, roots[processed], dryRun, choice)
    ensures RootPasses(s, [], roots[..processed + 1], dryRun, choices + [choice]) == (passCrash, sent + passSent, log + passLog)
  {
    var entries, all := roots[..processed + 1], choices + [choice];
    assert entries[..|entries| - 1] == roots[..processed] && entries[|entries| - 1] == roots[processed];
    assert all[..|all| - 1] == choices && all[|all| - 1] == choice;
    RootPassesLast(s, entries, dryRun, all, roots[..processed], choices, roots[processed], choice, sent, log);
  }

  /** The readings of one more root entry: a down reading, then those of its pass. */
  lemma RootReadingsStep(
    s: Services, roots: seq<string>, processed: nat, dryRun: bool, choices: seq<Choice>, choice: Choice,
    sent: seq<Request>, log: seq<LogEntry>)
    requires processed < |roots| && |choices| == processed
    requires RootPasses(s, [], roots[..processed], dryRun, choices) == (None, sent, log)
    ensures RootReadings(s, [], roots[..processed], dryRun, choices) + [false]
              + RootReadingsFrom(s, sent, PrepareRoot(s, sent, roots[processed]), dryRun, choice)
            == RootReadings(s, [], roots[..processed + 1], dryRun, choices + [choice])
  {
    var entries, all := roots[..processed + 1], choices + [choice];
    assert entries[..|entries| - 1] == roots[..processed] && entries[|entries| - 1] == roots[processed];
    assert all[..|all| - 1] == choices && all[|all| - 1] == choice;
    RootReadingsLast(s, entries, dryRun, all, roots[..processed], choices, roots[processed], choice, sent, log);
  }

  /** `RootReadings` over a non-empty list, after a prefix that did not crash: its readings, a down one, then the last pass's. */
  lemma RootReadingsLast(
    s: Services, entries: seq<string>, dryRun: bool, choices: seq<Choice>,
    before: seq<string>, beforeChoices: seq<Choice>, entry: string, choice: Choice, sent: seq<Request>, log: seq<LogEntry>)
    requires |choices| == |entries| && entries != []
    requires before == entries[..|entries| - 1] && beforeChoices == choices[..|choices| - 1]
    requires entry == entries[|entries| - 1] && choice == choices[|choices| - 1]
    requires RootPasses(s, [], before, dryRun, beforeChoices) == (None, sent, log)
    ensures RootReadings(s, [], entries, dryRun, choices)
            == RootReadings(s, [], before, dryRun, beforeChoices) + [false] + RootReadingsFrom(s, sent, PrepareRoot(s, sent, entry), dryRun, choice)
  {
    assert [] + sent == sent;
  }

  /** No loop of any root entry was cut short. */
  predicate AllWhole(choices: seq<Choice>) {
    forall c | c in choices :: WholeChoice(c)
  }

  /**
   * Only the loops of the last root entry may have been cut short, and of
   * its categories only the file loop of the last.
   */
  predicate ChoicesCutOnlyAtEnd(choices: seq<Choice>) {
    choices == [] || (AllWhole(choices[..|choices| - 1]) && CutOnlyAtEnd(choices[|choices| - 1].reached))
  }

  /** The choices of `n` root entries whose loops all went through everything. */
  function WholeChoices(n: nat): (r: seq<Choice>)
    ensures |r| == n && AllWhole(r)
  {
    seq(n, _ => Choice(All, []))
  }

  /** A root entry appended after whole ones: only its loops may have been cut short. */
  lemma ChoicesAtEnd(choices: seq<Choice>, last: Choice)
    requires AllWhole(choices) && CutOnlyAtEnd(last.reached)
    ensures ChoicesCutOnlyAtEnd(choices + [last])
    ensures !AllWhole(choices + [last]) ==> !WholeChoice(last)
  {
    assert (choices + [last])[..|choices|] == choices;
  }

  /** Whole file loops give the same reach, category by category, as no reach given at all. */
  lemma PaddedWhole(reached: seq<Reach>, n: nat)
    requires Whole(reached)
    ensures Padded(reached, n) == Padded([], n)
  {
    var given, none := Padded(reached, n), Padded([], n);
    forall j | 0 <= j < n
      ensures given[j] == none[j]
    {
      if j < |reached| {
        assert reached[j] in reached;
      }
    }
  }

  /** A root entry whose loops went through everything passes as the full reference pass does. */
  lemma WholeChoicePass(s: Services, history: seq<Request>, prep: RootPrep, dryRun: bool, choice: Choice)
    requires WholeChoice(choice)
    ensures RootPassFrom(s, history, prep, dryRun, choice) == RootPassFrom(s, history, prep, dryRun, Choice(All, []))
  {
    if prep.Dispatch? {
      PaddedWhole(choice.reached, |prep.undone|);
    }
  }

  /** Root entries whose loops all went through everything pass as the full reference run does. */
  lemma {:induction false} WholeChoicesPasses(s: Services, history: seq<Request>, entries: seq<string>, dryRun: bool, choices: seq<Choice>)
    requires |choices| == |entries| && AllWhole(choices)
    ensures RootPasses(s, history, entries, dryRun, choices) == RootPasses(s, history, entries, dryRun, WholeChoices(|entries|))
    decreases |entries|
  {
    if entries != [] {
      var n := |entries| - 1;
      assert WholeChoices(|entries|)[..n] == WholeChoices(n);
      assert forall c | c in choices[..n] :: c in choices;
      assert choices[n] in choices;
      WholeChoicesPasses(s, history, entries[..n], dryRun, choices[..n]);
      var before := RootPasses(s, history, entries[..n], dryRun, choices[..n]);
      WholeChoicePass(s, history + before.1, PrepareRoot(s, history + before.1, entries[n]), dryRun, choices[n]);
    }
  }

  /**
   * `for rootCategory in interruptible(rootCategories, ih)`: the entries in
   * order until the flag is seen raised before one, or one crashes.
   */
  method RootLoop(ih: InterruptHandler, s: Services, roots: seq<string>, dryRun: bool)
    returns (crash: Option<Error>, sent: seq<Request>, log: seq<LogEntry>, processed: nat, ghost choices: seq<Choice>)
    requires ih.Valid() && ih.entered
    modifies ih
    ensures TrapKept(ih)
    ensures processed <= |roots| && |choices| == processed
    ensures RootPasses(s, [], roots[..processed], dryRun, choices) == (crash, sent, log)
    ensures crash.None? && processed < |roots| ==> ih.interrupted
    ensures !AllWhole(choices) ==> ih.interrupted
    ensures ChoicesCutOnlyAtEnd(choices)
    ensures ih.checks == old(ih.checks) + RootReadings(s, [], roots[..processed], dryRun, choices)
                         + if crash.None? && processed < |roots| then [true] else []
  {
    crash, sent, log, processed, choices := None, [], [], 0, [];
    ghost var start, readings := ih.checks, [];
    while processed < |roots|
      invariant processed <= |roots| && |choices| == processed
      invariant crash.None?
      invariant RootPasses(s, [], roots[..processed], dryRun, choices) == (None, sent, log)
      invariant TrapKept(ih)
      invariant !AllWhole(choices) ==> ih.interrupted
      invariant ChoicesCutOnlyAtEnd(choices)
      invariant readings == RootReadings(s, [], roots[..processed], dryRun, choices)
      invariant ih.checks == start + readings
    {
      var raised := CheckFlag(ih);
      if raised {
        break;
      }
      var rootCrash, rootSent, rootLog, choice := ProcessRoot(ih, s, sent, roots[processed], dryRun);
      ghost var pass := RootReadingsFrom(s, sent, PrepareRoot(s, sent, roots[processed]), dryRun, choice);
      Regroup(start, readings, [false], pass);
      RootPassesStep(s, roots, processed, dryRun, choices, choice, sent, log, rootCrash, rootSent, rootLog);
      RootReadingsStep(s, roots, processed, dryRun, choices, choice, sent, log);
      readings := readings + [false] + pass;
      ChoicesAtEnd(choices, choice);
      crash, sent, log := rootCrash, sent + rootSent, log + rootLog;
      processed, choices := processed + 1, choices + [choice];
      if crash.Some? {
        return;
      }
    }
  }

  /**
   * `with InterruptHandler() as ih:` around `main`'s loop, with `current`
   * the SIGINT handler the process has: the trap is set for the loop and
   * released however the loop ends. `interrupted` is the flag at the end
   * of the loop and `checks` every reading of it.
   */
  method TrappedRootLoop(s: Services, roots: seq<string>, dryRun: bool, current: SignalHandler)
    returns (crash: Option<Error>, sent: seq<Request>, log: seq<LogEntry>, restored: SignalHandler,
             processed: nat, ghost choices: seq<Choice>, ghost interrupted: bool, ghost checks: seq<bool>)
    ensures restored == current
    ensures processed <= |roots| && |choices| == processed
    ensures RootPasses(s, [], roots[..processed], dryRun, choices) == (crash, sent, log)
    ensures crash.None? && processed < |roots| ==> interrupted
    ensures ChoicesCutOnlyAtEnd(choices)
    ensures !interrupted ==> AllWhole(choices)
    ensures checks == RootReadings(s, [], roots[..processed], dryRun, choices)
                      + if crash.None? && processed < |roots| then [true] else []
  {
    var ih := new InterruptHandler(current);
    ih.Enter();
    crash, sent, log, processed, choices := RootLoop(ih, s, roots, dryRun);
    interrupted, checks := ih.interrupted, ih.checks;
    ih.Exit();
    restored := ih.installed;
  }

  /**
   * `main`, from the parsed arguments, with `current` the SIGINT handler
   * the process has: the requests sent, the log written, and the SIGINT
   * handler installed when it returns, which is `current` again on every
   * path. `processed`, `choices` and `interrupted` say how far the
   * interruptible loops got and whether the flag was raised, and `checks`
   * lists every reading of the flag.
   */
  method Run(s: Services, args: Arguments, current: SignalHandler)
    returns (outcome: Outcome, sent: seq<Request>, log: seq<LogEntry>, restored: SignalHandler,
             processed: nat, ghost choices: seq<Choice>, ghost interrupted: bool, ghost checks: seq<bool>)
    ensures restored == current
    ensures outcome.Exited? <==> GetCategories(args).None?
    ensures outcome.Exited? ==> sent == [] && log == []
    ensures !outcome.Exited? ==>
      var roots := RootEntries(GetCategories(args).value);
      && processed <= |roots| && |choices| == processed
      && var passes := RootPasses(s, [], roots[..processed], args.dryRun, choices);
      && sent == passes.1
      && (outcome.Crashed? <==> passes.0.Some?)
      && (outcome.Crashed? ==> outcome.error == passes.0.value && log == [StartEntry(|roots|)] + passes.2)
      && (outcome.Finished? ==> log == [StartEntry(|roots|)] + passes.2 + [FinishEntry])
      && (outcome.Finished? && processed < |roots| ==> interrupted)
      && ChoicesCutOnlyAtEnd(choices)
      && (!interrupted ==> AllWhole(choices) && passes == RootPasses(s, [], roots[..processed], args.dryRun, WholeChoices(processed)))
      && checks == RootReadings(s, [], roots[..processed], args.dryRun, choices)
                   + if outcome.Finished? && processed < |roots| then [true] else []
  {
    sent, log, processed, choices, interrupted, checks := [], [], 0, [], false, [];
    var categories := GetCategories(args);
    if categories.None? {
      return Exited, sent, log, current, processed, choices, interrupted, checks;
    }
    var roots := RootEntries(categories.value);
    var crash, rootLog;
    // `with ... InterruptHandler() as ih` releases the trap however the block is left
    crash, sent, rootLog, restored, processed, choices, interrupted, checks := TrappedRootLoop(s, roots, args.dryRun, current);
    if !interrupted {
      WholeChoicesPasses(s, [], roots[..processed], args.dryRun, choices);
    }
    log := [StartEntry(|roots|)] + rootLog;
    if crash.Some? {
      outcome := Crashed(crash.value);
      return;
    }
    log := log + [FinishEntry];
    outcome := Finished;
  }
}
