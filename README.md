# no-depictor, modelled in Dafny

no-depictor is a batch tool that records, in the Depictor ledger
(hay.toolforge.org), which Wikimedia Commons files do **not** depict the
subject of their category. For each root entry (a category name, or
`name|depth` for a whole category tree) it does the following:

1. It finds the categories and their Wikidata items. A tree is looked up
   through PetScan. A single category is looked up through a Wikidata
   SPARQL query.
2. It drops the categories the ledger already reports done.
3. For each remaining category that has an image (P18) on Wikidata, it
   searches Commons for bitmap files in the category that lack a P180
   statement for the item.
4. It drops the files the ledger already knows.
5. It marks each remaining file as "not depicted", in order, and then
   marks the category as done.

A SIGINT stops the run cooperatively between items. `--dry-run` sends
no marks at all. Every step is logged to a wiki-formatted log file.

The model covers all of the following:

- **The SIGINT trap.**
  - `InterruptHandling.InterruptHandler` is a class whose methods update
    the flags step by step.
  - `InterruptHandling.Interruptible` is the flag-checking generator on its
    own. The category, file and root loops inline the same check before each
    item.
  - The handler keeps a ghost log of every reading of the flag. Each loop's
    contract states the exact readings it made: one that saw the flag down
    before each item it went through, and, when it stopped early, one last
    reading that saw it raised. So a loop goes on while the flag reads down
    and stops at the first reading that sees it raised. The root loop also
    stops at a crash.
- **The four service clients.** Each is written as pure functions from a
  response to a result or a raised error:
  - `DepictorClient` for the ledger;
  - `WikidataClient`;
  - `CommonsClient`, which also has a method with the page loop;
  - `PetScanClient`.
- **The string helpers.** `Reporting` has the link helpers (`pagelink`,
  `catlink`), the log-entry formatter (a method with its loop) and
  `getCategories`.
- **The orchestrator.** `NoDepictor` has `main`'s root loop, the category
  loop of `doWorkForUndoneCategories` and the file loop inside it.

How the model is written:

- **Services and errors.**
  - The remote services are one oracle, `Http.Server`. It answers each
    request given every request sent before it, so any server-side state
    is allowed.
  - A raised Python exception is an `Err` of `PyJson.Result`. Its error
    value carries what the source's message interpolates.
  - Python's own semantics of `.get`, `[]`, `in`, truthiness, `str()`,
    `int()`, `strip`, `split` and `splitlines` are written out in
    `PyJson` and `PyText`.
- **Loops and interrupts.**
  - Every loop of the source is a `while` loop in a method, proved equal
    to a recursive specification function. The run-level properties are
    proved about those functions in `RunProperties`.
  - The asynchronous SIGINT is a nondeterministic `SignalMayArrive` call
    before each flag check.
  - The sleep between files is a point where `forceInterrupt` may run.
  - Ghost out-parameters (`reached`, `choices`) record how far each
    interruptible loop got.

Where the documentation of the system and the code differ, the model
follows the code:

- No client retries on a rate-limit answer; there is no retry at all.
- An unparseable body from the ledger, Wikidata or Commons raises
  `requests`' `ValueError` (modelled as `ValueError`). Only PetScan wraps
  it in a diagnostic that carries the status and the start of the body.
- A failure does not always just skip the work. A root entry whose depth
  is not an integer raises `ValueError` outside every `try` and ends the
  run (`NoDepictor.Run` returns `Crashed`). So does a non-string category
  or file title from PetScan or Commons. Its status line fails outside
  every `try`, a case the model does not capture (see "## Left out").
- The single-page limit belongs to the Commons search. PetScan is asked
  once, without any pagination.

## Model

| member | source | states |
|---|---|---|
| InterruptHandling.InterruptHandler.constructor | no_depictor/interrupt_handler.py:5-9 | a new handler is not yet entered and leaves the installed SIGINT handler as it found it |
| InterruptHandling.InterruptHandler.Enter | no_depictor/interrupt_handler.py:12-22 | entering clears `interrupted` and `released`, records the handler that was installed as the original, and installs the trap |
| InterruptHandling.InterruptHandler.Handle | no_depictor/interrupt_handler.py:17-19 | the trap first releases (the original handler is installed again), then raises the flag |
| InterruptHandling.InterruptHandler.Release | no_depictor/interrupt_handler.py:29-33 | release reinstalls the original handler exactly once; a second call changes neither the installed handler nor the count of restorations; the flag is untouched |
| InterruptHandling.InterruptHandler.ForceInterrupt | no_depictor/interrupt_handler.py:36-39 | the flag is raised exactly when it was already raised or the trap is not yet released; nothing else changes |
| InterruptHandling.InterruptHandler.Deliver | no_depictor/interrupt_handler.py:17-33 | a SIGINT reaches the trap only while it is installed; afterwards the trap is released, the flag was raised iff the trap was installed (or it was already raised), and it never goes back down |
| InterruptHandling.InterruptHandler.SignalMayArrive | no_depictor/interrupt_handler.py:12-39 | whether or not a signal arrives, the flag is monotone and a released trap stays released with the same handler installed |
| InterruptHandling.InterruptHandler.Exit | no_depictor/interrupt_handler.py:25-26 | on every exit path the original handler is installed again, once, and the flag is kept |
| InterruptHandling.InterruptHandler.Check | no_depictor/interrupt_handler.py:56 | a check returns the flag as it is and appends exactly that reading to the log; nothing else changes |
| InterruptHandling.YieldCount | no_depictor/interrupt_handler.py:55-58 | the number of items yielded: every earlier flag check saw the flag down, and if not every item was yielded, the next check saw it up |
| InterruptHandling.Interruptible | no_depictor/interrupt_handler.py:55-58 | the generator yields exactly the prefix of the source, in order, up to the first check that sees the flag raised (all of it if none does) |
| InterruptHandling.ReadingsYield | no_depictor/interrupt_handler.py:55-58 | a loop over `n` items whose readings are `k` down ones, then a raised one if `k < n`, stopped exactly where the generator stops: it yields `k` items |
| InterruptHandling.ReadingsRaisedIffEarly | no_depictor/interrupt_handler.py:55-58 | a loop's readings include a raised one iff it stopped before the last item |
| DepictorClient.KeepUndone | no_depictor/clients/_depictor.py:30-33 | the filter keeps a subsequence of the input, in order, and an item keeps all its occurrences iff its id is absent or falsy in the answer |
| DepictorClient.UndoneCategoriesRequest | no_depictor/clients/_depictor.py:15-27 | one POST to the ledger with the session cookie, `action = items-done`, and `qids` listing every category's id in input order |
| DepictorClient.UndoneFilesRequest | no_depictor/clients/_depictor.py:37-49 | one POST to the ledger with the session cookie, `action = files-exists`, and `mids` listing every file's id in input order |
| DepictorClient.UndoneFrom | no_depictor/clients/_depictor.py:28-55 | the dedup succeeds iff the body parses and is a dict (or there is nothing to look up), and then returns exactly the filtered items |
| DepictorClient.KeepUndoneDropsDone | no_depictor/clients/_depictor.py:32 | no item whose id the ledger reports truthy is ever returned, and every returned item came from the input |
| DepictorClient.KeepUndoneIdempotent | no_depictor/clients/_depictor.py:30-33 | filtering again against the same answer changes nothing |
| DepictorClient.KeepUndoneKeepsAllWhenNothingDone | no_depictor/clients/_depictor.py:30-33 | when the ledger reports none of the ids done, every item is kept, in order |
| DepictorClient.Added | no_depictor/clients/_depictor.py:80 | the success rule holds iff the status is 200 and the body's `ok` is the string `Added`; it raises only when the status is 200 and the body is not a JSON dict |
| DepictorClient.MarkFileRequest | no_depictor/clients/_depictor.py:59-78 | a GET to the ledger with the title quoted with no safe characters as the `category` query, the cookie, and exactly `mid`, `qid`, `user`, `status = not-depicted`, `action = add-file` |
| DepictorClient.MarkFileResult | no_depictor/clients/_depictor.py:80-84 | a file mark succeeds iff the success rule holds; a well-formed refusal raises an error naming the mid, the qid, the category title and the raw body |
| DepictorClient.MarkCategoryRequest | no_depictor/clients/_depictor.py:88-101 | a POST to the ledger with the cookie and exactly `action = item-done`, `qid`, `user` |
| DepictorClient.MarkCategoryResult | no_depictor/clients/_depictor.py:103-107 | completion succeeds iff the same success rule holds; a refusal raises an error naming the qid and the raw body |
| WikidataClient.HasImageClaimRequest | no_depictor/clients/_wikidata.py:11-22 | a GET to the Wikidata API for exactly the given id, with `props = claims` |
| WikidataClient.HasImageClaim | no_depictor/clients/_wikidata.py:24-27 | an unparseable body raises; along dicts the answer is whether `P18` is among the claims of `entities[qId]`, missing levels reading as empty; `true` needs an `entities` key |
| WikidataClient.ItemForCategoryRequest | no_depictor/clients/_wikidata.py:31-48 | a GET to the SPARQL endpoint whose only parameters are the format and the query naming the category |
| WikidataClient.ItemForCategory | no_depictor/clients/_wikidata.py:50-66 | one of four distinct errors for a missing `results`/`bindings`, empty bindings, a missing or empty item value, and a last URI segment not starting with `Q`; success iff the first binding's URI ends in a `Q` segment, giving that segment with the input title |
| WikidataClient.ResolvedQidShape | no_depictor/clients/_wikidata.py:62-66 | a resolved id starts with `Q`, contains no `/`, ends the item URI, and the title is the input name |
| CommonsClient.HitStep | no_depictor/clients/_commons.py:31-35 | a dict hit is skipped iff it lacks `pageid`; otherwise it yields `M` + str(pageid) with the hit's title or `""` (the title passed through str(), see Left out) |
| CommonsClient.KeepHits | no_depictor/clients/_commons.py:31-35 | a page yields no more files than hits, each with an id starting with `M` |
| CommonsClient.KeepHitsMatchesHitFiles | no_depictor/clients/_commons.py:31-35 | over dict hits, the loop yields exactly the hits with `pageid`, converted, in response order |
| CommonsClient.IterateHits | no_depictor/clients/_commons.py:30-31 | iterating a list goes over its elements; a dict or a string yields nothing or raises `TypeError` |
| CommonsClient.SearchResults | no_depictor/clients/_commons.py:30 | a non-dict response raises `AttributeError`; without `query` the result list is empty; a non-dict `query` raises `AttributeError`; otherwise the result is `query['search']`, or an empty list without `search` |
| CommonsClient.NextOffset | no_depictor/clients/_commons.py:37-40 | there is a next page only when the response has `continue`; then the offset is `continue['sroffset']`, or 0 without it, and a non-dict `continue` raises `AttributeError` |
| CommonsClient.PageWithoutQuery | no_depictor/clients/_commons.py:30-38 | a response with neither `query` nor `continue` is a last page that yields nothing |
| CommonsClient.YieldHits | no_depictor/clients/_commons.py:31-35 | the inner loop yields exactly the files the hit list specifies, or raises what the first bad hit raises |
| CommonsClient.FetchPage | no_depictor/clients/_commons.py:28-40 | one iteration reads the page's files and next offset as the page specification gives them |
| CommonsClient.CrawlPage | no_depictor/clients/_commons.py:24-47 | one pass of the `while True` loop sends the search with the current parameters; it either ends the loop with exactly the crawl's files and requests, or continues with one page fewer, the files gathered so far and the parameters moved to the next offset |
| CommonsClient.CrawlLoopEnds | no_depictor/clients/_commons.py:37-47 | a page that fails, has no `continue`, or is read outside whole-category mode is the last: the crawl returns the files gathered before it plus its own, or its error, and sends nothing more |
| CommonsClient.CrawlLoopGoesOn | no_depictor/clients/_commons.py:37-47 | in whole-category mode a page with `continue` adds its files and the crawl goes on from `sroffset` set to the reported offset |
| CommonsClient.CrawlStops | no_depictor/clients/_commons.py:37-47 | a page without `continue`, or any page when the whole category is not asked for, is the last request and its files are all that is yielded |
| CommonsClient.CrawlContinues | no_depictor/clients/_commons.py:37-47 | in whole-category mode a page with `continue` yields its files and is followed by the crawl from its offset |
| CommonsClient.GetFilesNotDepictingSubject | no_depictor/clients/_commons.py:12-47 | the page loop yields exactly the files, and sends exactly the requests, of the crawl from the initial search parameters |
| CommonsClient.SinglePageMode | no_depictor/clients/_commons.py:46-47 | by default exactly one request is made, with the initial parameters, and only the first page's files are yielded |
| CommonsClient.CrawlRequestsKeepSearch | no_depictor/clients/_commons.py:13-26 | every request is a GET to the Commons API without cookie and the first has the initial parameters; every parameter except `sroffset` (the search expression, namespace 6, limit 500) stays the same on every page |
| CommonsClient.KeepsSearchAfterOffset | no_depictor/clients/_commons.py:40 | setting `sroffset` keeps every other search parameter, so a request that keeps the moved search keeps the original one |
| CommonsClient.ContinuesFromReportedOffset | no_depictor/clients/_commons.py:40 | in whole-category mode, when a second request is sent, the first answer had a dict `continue`, and the second request is the first one with `sroffset` set to its `sroffset` (0 when absent) |
| CommonsClient.CrawlYieldsMediaIds | no_depictor/clients/_commons.py:35 | every file a crawl yields has an id starting with `M` (the exact `M` + str(pageid) of each hit is `HitStep`'s contract) |
| PetScanClient.SubcategoriesRequest | no_depictor/clients/_petscan.py:12-29 | a GET to PetScan whose `categories` is the name with `_` replaced by spaces, with the depth unchanged, `ns[14] = 1` and `wikidata_item = with` |
| PetScanClient.ItemStep | no_depictor/clients/_petscan.py:45-49 | a dict item is kept iff it has both `q` and `title`, as the descriptor of its `q` and `title` (passed through str(), see Left out) |
| PetScanClient.KeepItems | no_depictor/clients/_petscan.py:45-49 | the result is never longer than the item list, and a list of dicts never raises |
| PetScanClient.IterateItems | no_depictor/clients/_petscan.py:47 | iterating a list goes over its elements; a dict or a string yields nothing or raises `TypeError` |
| PetScanClient.Subcategories | no_depictor/clients/_petscan.py:30-36 | a body that is not JSON raises the diagnostic with the status code and the first 200 characters of the body |
| PetScanClient.KeepItemsMatchesFilter | no_depictor/clients/_petscan.py:45-49 | over dict items the comprehension keeps exactly the items with `q` and `title`, in order |
| PetScanClient.SubcategoriesOfWellFormed | no_depictor/clients/_petscan.py:40-49 | on a well-formed answer the result is exactly the filtered items at `['*'][0]['a']['*']`, no longer than that list |
| PetScanClient.MissingPathYieldsNothing | no_depictor/clients/_petscan.py:40-43 | a missing `a` or inner `*` yields no categories |
| Reporting.DisplayName | no_depictor/__main__.py:204-206 | the shown name contains no underscore |
| Reporting.CatlinkIsColonLink | no_depictor/__main__.py:198-209 | the wiki form of a category link is `[[:Category:<name with spaces>]]` |
| Reporting.CategoryDisplayName | no_depictor/__main__.py:198-206 | the shown name of a category page is `:Category:` followed by the name with underscores turned into spaces |
| Reporting.LinkFormsShowSameText | no_depictor/__main__.py:202-210 | the wiki form is `[[…]]` around the display text, with no underscore, and the console form shows the same text inside its link markup |
| Reporting.WikiLinkColonIffNamespaced | no_depictor/__main__.py:204-209 | for a name not itself starting with `:`, the wiki link starts with `[[:` iff the page is in the Category or File namespace |
| Reporting.LogPrefix | no_depictor/__main__.py:215 | the entry prefix is 15 characters longer than the time and type it frames |
| Reporting.LogToFile | no_depictor/__main__.py:213-222 | the loop builds exactly the entry that the formatting specification gives: the prefix, each line right-trimmed, continuation lines indented to the prefix width less two, one final newline; `IndexError` for a message with no lines |
| Reporting.ContinuationsStep | no_depictor/__main__.py:219-220 | one more pass of the continuation loop appends `\n*:`, the indent, and the right-trimmed line |
| Reporting.ContinuationsNewlines | no_depictor/__main__.py:219-220 | each continuation line adds exactly one line feed |
| Reporting.ContinuationLineNewlines | no_depictor/__main__.py:220 | a continuation of an unbroken line holds exactly one line feed, the one it starts with |
| Reporting.UnbrokenNewlines | no_depictor/__main__.py:218 | the prefix and the right-trimmed first line hold no line feed |
| Reporting.TerminatedNewlines | no_depictor/__main__.py:218-222 | the final newline adds one line feed to those of the continuations |
| Reporting.EntryNewlines | no_depictor/__main__.py:213-222 | an entry built from lines without line boundaries has exactly one line feed per line |
| Reporting.SplitLinesAreUnbroken | no_depictor/__main__.py:217 | no line of `splitlines` holds a line boundary |
| Reporting.EntryHasOneLinePerMessageLine | no_depictor/__main__.py:213-222 | for a non-empty message the entry is written, starts with the prefix, ends with a newline, and has exactly one line feed per line of the message |
| Reporting.CategoryLines | no_depictor/__main__.py:119 | the category file gives at most one entry per line, each stripped and non-empty |
| Reporting.CategoryLinesKeepsEveryEntry | no_depictor/__main__.py:119 | every line of the file that is not blank once stripped is kept as an entry, stripped |
| Reporting.CategoryLinesOfRest | no_depictor/__main__.py:119 | an entry kept from the later lines of the file is kept from the whole file |
| Reporting.GetCategories | no_depictor/__main__.py:113-125 | a non-empty `category` is the only entry; the program exits (no entries) iff neither option is set to a non-empty value, or only the file is named and it does not exist |
| PyText.SplitLinesHasNoBoundary | no_depictor/__main__.py:217 | the message lines contain no line boundary, and only an empty message has none |
| PyText.ParseIntOfDecimal | no_depictor/__main__.py:61 | `int()` reads back every decimal depth |
| PyText.ParseIntOfDigitRun | no_depictor/__main__.py:61 | `int()` reads a run of decimal digits as its value |
| PyText.ParseIntOfNegated | no_depictor/__main__.py:61 | `int()` reads `-` and a run of digits as the negated value |
| NoDepictor.WithoutCategoryPrefix | no_depictor/__main__.py:29-32 | an entry starting with `Category:` loses exactly that prefix; any other entry is unchanged |
| NoDepictor.RootEntries | no_depictor/__main__.py:29-32 | every root entry, in order, without its `Category:` prefix |
| NoDepictor.RouteEntry | no_depictor/__main__.py:57-73 | an entry is expanded (or fails on its depth) iff it contains `|`; without one it is resolved from its stripped, unquoted text |
| RunProperties.SplitFirstIsUnique | no_depictor/__main__.py:58 | splitting at the first `|` gives back a `|`-free name and all that follows it |
| RunProperties.RouteOfNameAndDepth | no_depictor/__main__.py:57-61 | `name|depth` with a `|`-free name is expanded from the stripped, unquoted name to exactly that depth |
| NoDepictor.PrepareCategory | no_depictor/__main__.py:142-165 | a category reaches its file loop only with at least one undone file |
| RunProperties.WorkFilesWereNotDone | no_depictor/__main__.py:142-165 | a category reaches its file loop only after the image check, one search page and the done-check of its files; its files are those of the page, in order, that the ledger did not report done |
| RunProperties.NoImageNoSearch | no_depictor/__main__.py:143-151 | a category without an image, or whose check fails, costs the one Wikidata request and gets no search, no mark and no completion |
| NoDepictor.PrepareFiles | no_depictor/__main__.py:142-165 | the steps before the file loop end as the category-pass specification says |
| NoDepictor.CheckFlag | no_depictor/interrupt_handler.py:55-57 | the check `interruptible` makes before an item, with a SIGINT that may have just landed: it returns the flag as it then is and logs exactly that reading; the trap is kept |
| NoDepictor.CheckBeforeItem | no_depictor/interrupt_handler.py:55-58 | before item `k` of `n`, a raised reading completes the loop's readings as `k` down ones and the raised one; a down one extends the down readings by one |
| NoDepictor.MarkFiles | no_depictor/__main__.py:167-180 | the file loop marks the prefix of the undone files it reached, in order; it stops early only when the flag is raised, and reaches nothing if the flag was already up; its readings are one down reading per file reached, then one raised reading iff it stopped early |
| NoDepictor.MarkNext | no_depictor/__main__.py:168-180 | one turn of the file loop: a raised reading sends nothing and ends the loop's readings; a down one is followed by exactly the next file's mark, and the pause keeps the trap |
| NoDepictor.MarkOneFile | no_depictor/__main__.py:169-175 | one file of the loop sends its mark (none in a dry run) and logs an error naming the file, its mid and the qid exactly when the mark fails |
| NoDepictor.Pause | no_depictor/__main__.py:177-180 | the pause between files, with its `KeyboardInterrupt` raising the flag by hand, keeps the trap entered with the same original handler, never lowers the flag, and keeps a released trap released; it reads the flag nowhere, so the readings log is unchanged |
| NoDepictor.MarksStep | no_depictor/__main__.py:168-180 | one more file reached extends the loop's requests and log by exactly that file's mark and error |
| RunProperties.MarksSendOneRequestPerFile | no_depictor/__main__.py:168-175 | the file loop sends one file mark per file reached, in order, whatever the answers; none in a dry run |
| RunProperties.FilesMarkedInOrder | no_depictor/__main__.py:167-175 | the file marks of a category pass are exactly those of the undone files the loop reached, each once, in list order; none in a dry run or when the pass stopped before the file loop |
| RunProperties.WorkMarksFiles | no_depictor/__main__.py:167-190 | in a pass that got to its file loop, the file marks are those of the loop: one per file reached, in order, none in a dry run |
| RunProperties.MarksFileMarks | no_depictor/__main__.py:168-175 | the file loop's file marks are one per file reached, in order, none in a dry run |
| RunProperties.FinishSendsNoFileMark | no_depictor/__main__.py:182-195 | the end of a category pass sends no file mark |
| RunProperties.CompletionOnlyAfterEveryFile | no_depictor/__main__.py:182-190 | a category is completed at most once, and exactly when its file loop reached every undone file and it is not a dry run |
| RunProperties.CompletionIffNoRaisedReading | no_depictor/__main__.py:167-190 | a category is completed exactly when its pass got to the file loop, none of the loop's readings saw the flag raised, and it is not a dry run |
| RunProperties.MarksSendNoCompletion | no_depictor/__main__.py:168-175 | the file loop never completes the category |
| RunProperties.FinishCompletes | no_depictor/__main__.py:182-190 | the end of a pass sends the completion exactly once when the loop reached every file and it is not a dry run, and otherwise none |
| NoDepictor.ProcessCategory | no_depictor/__main__.py:139-195 | one category pass sends and logs exactly what the category-pass specification says for how far its file loop got; the loop stops short only when the flag is raised, and at once (before any file) when it was already raised; the pass reads the flag only in its file loop, with exactly that loop's readings |
| NoDepictor.WorkPass | no_depictor/__main__.py:167-190 | a pass that got to its file loop and went through `k` of its undone files is the file marks of those `k` files followed by the completion step for `k` of the total |
| NoDepictor.WorkPassesStep | no_depictor/__main__.py:139-195 | one more category reached extends the category loop's requests and log by exactly that category's pass |
| NoDepictor.WorkReadingsStep | no_depictor/__main__.py:139-195 | one more category reached extends the category loop's readings by a down reading and exactly that pass's readings |
| NoDepictor.WorkReadingsLast | no_depictor/__main__.py:139-195 | the readings of a category loop unfold by its last category |
| NoDepictor.DoWorkForUndoneCategories | no_depictor/__main__.py:139-195 | the category loop runs the passes of the prefix of the undone categories it reached, in order; it stops early, and a file loop stops short, only when the flag is raised; only the last category processed can have a file loop cut short; nothing is processed when the flag was already raised; its readings are, for each category reached, a down reading followed by that pass's readings, then one raised reading iff it stopped early |
| NoDepictor.CutAtEnd | no_depictor/__main__.py:139-195 | after categories whose file loops all went through, one more category keeps any cut-short loop at the end, and the only loop then cut short is that one |
| RunProperties.DryCategoryPassIsHarmless | no_depictor/__main__.py:171-190 | a dry-run category pass sends neither a file mark nor a completion, though the search and the dedup still run |
| RunProperties.DryWorkIsHarmless | no_depictor/__main__.py:139-195 | a dry-run category loop sends neither a file mark nor a completion |
| RunProperties.PrepareIsHarmless | no_depictor/__main__.py:143-165 | before its file loop a category pass only reads: image check, search, done-check |
| NoDepictor.DedupCategories | no_depictor/__main__.py:85-106 | the done-check of the categories found moves on to the category loop only with undone categories, and never crashes |
| NoDepictor.ExpandRoot | no_depictor/__main__.py:62-71 | a failing subcategory lookup moves on to the next root entry instead of crashing |
| NoDepictor.ResolveRoot | no_depictor/__main__.py:75-83 | a failing item lookup moves on to the next root entry instead of crashing |
| NoDepictor.FetchSubcategories | no_depictor/__main__.py:62-71 | the `|` branch sends the PetScan lookup, logs and moves on when it fails, and otherwise goes on to the done-check, as the expansion specification says |
| NoDepictor.LookUpItem | no_depictor/__main__.py:73-83 | the other branch sends the item lookup, logs and moves on when it fails, and otherwise checks the one category found, as the resolution specification says |
| NoDepictor.CheckCategories | no_depictor/__main__.py:85-106 | the done-check warns and moves on for no categories, logs and moves on when the ledger fails or reports all done, and otherwise goes on with the undone ones |
| RunProperties.DedupIsHarmless | no_depictor/__main__.py:93-106 | the categories' done-check only reads |
| RunProperties.ExpandIsHarmless | no_depictor/__main__.py:57-106 | a root entry with a depth only reads before its category loop |
| RunProperties.ItemLookupIsHarmless | no_depictor/clients/_wikidata.py:39-48 | the SPARQL lookup carries no ledger action |
| RunProperties.ResolveIsHarmless | no_depictor/__main__.py:72-106 | a root entry without a depth only reads before its category loop |
| RunProperties.ResolvedIsHarmless | no_depictor/__main__.py:79-106 | once the item lookup found the category, the entry's done-check only reads, so everything the entry sent before its category loop only reads |
| RunProperties.PrepareRootIsHarmless | no_depictor/__main__.py:57-106 | no root entry sends a mutation before its category loop |
| NoDepictor.PrepareRootEntry | no_depictor/__main__.py:57-106 | the body of the root loop up to the category loop ends as the root-entry specification says |
| NoDepictor.DispatchCategories | no_depictor/__main__.py:105-107 | the category loop of a root entry runs as specified; it or one of its file loops stops short only when the flag is raised, only at the last category processed, and only for an entry that got to its category loop; its readings are exactly those of that category loop |
| NoDepictor.ProcessRoot | no_depictor/__main__.py:56-107 | one root entry crashes, sends and logs exactly what the root-pass specification says; any loop cut short means the flag was raised, and only the last category's file loop can be cut short; its readings are exactly those of the entry's category loop, and none for an entry that never got to it |
| RunProperties.OnlyBadDepthCrashes | no_depictor/__main__.py:57-103 | in the model, a root entry ends the run iff its depth is not an integer, and then with `ValueError` and before any request or log; every other failure moves on (the source also ends the run on a non-string category or file title, which the model does not capture; see `PetScanClient.ItemStep` and `CommonsClient.HitStep` under Left out) |
| NoDepictor.RootPassesStep | no_depictor/__main__.py:56-107 | the root loop's specification unfolds by one entry |
| NoDepictor.RootPassesLast | no_depictor/__main__.py:56-107 | after entries that did not crash, one more entry adds exactly its own pass to the requests and the log |
| NoDepictor.RootReadingsStep | no_depictor/__main__.py:56-107 | one more entry reached extends the root loop's readings by a down reading and exactly that entry's readings |
| NoDepictor.RootReadingsLast | no_depictor/__main__.py:56-107 | after entries that did not crash, the root loop's readings unfold by its last entry |
| NoDepictor.RootLoop | no_depictor/__main__.py:55-107 | the root loop runs the passes of the prefix of the entries it reached, in order; it stops at the first crash, and otherwise early only when the flag is raised; only the last entry processed can have a loop cut short, and only when the flag was raised; its readings are, for each entry reached, a down reading followed by that entry's readings, then one raised reading iff it stopped early without a crash |
| NoDepictor.ChoicesAtEnd | no_depictor/__main__.py:55-107 | after root entries whose loops all went through, one more entry keeps any cut-short loop in the last entry, and the only loops then cut short are its own |
| NoDepictor.PaddedWhole | no_depictor/__main__.py:105-107 | file loops that all went through give, category by category, the same reach as the full pass of every category |
| NoDepictor.WholeChoicePass | no_depictor/__main__.py:56-107 | a root entry none of whose loops was cut short passes exactly as the full reference pass of that entry |
| NoDepictor.WholeChoicesPasses | no_depictor/__main__.py:55-107 | root entries none of whose loops was cut short pass exactly as the full reference run over those entries |
| RunProperties.CrashEndsRun | no_depictor/__main__.py:55-61 | once an entry has crashed, later entries add no request and no log |
| RunProperties.RootPassesAfterCrash | no_depictor/__main__.py:56-61 | an entry after a crash adds nothing |
| RunProperties.DryRootsAreHarmless | no_depictor/__main__.py:55-107 | a dry run of the root loop sends neither a file mark nor a completion |
| RunProperties.DryRunNeverMutates | no_depictor/__main__.py:171-190 | with `dry_run`, no request of the whole run is a ledger mutation |
| NoDepictor.TrappedRootLoop | no_depictor/__main__.py:55-107 | the `with InterruptHandler()` block: the root loop runs as its specification says, the handler installed before is back afterwards on every path, and the flag and the readings are those the loop left |
| NoDepictor.Run | no_depictor/__main__.py:47-110 | the original SIGINT handler is back at the end; without categories the run stops before any request; otherwise it logs the start, the root passes, and "Finished execution." unless an entry crashed; it stops before the last entry only on a crash or a raised flag; only the last entry's loops can be cut short, and without a raised flag the passes are exactly the full reference run of every entry processed; `checks` is exactly the readings of the root loop and the loops inside it |

## Left out

- HTTP itself: sessions, headers, timeouts and transport errors. Each call is an answer from the `Http.Server` oracle.
- The `rich` console, status line and markup. `console.print`, `status.update`, `console.rule` and `escape` only display text.
- `config.py`: argument parsing, the JSON configuration file and the interactive prompts. `NoDepictor.Run` takes the settings it reads as `Reporting.Arguments`.
- The text of error messages, and `str(e)` in the log. Errors are kept as structured values (`PyJson.Error`) and log entries as `NoDepictor.LogEntry` records.
- Log-file opening, writing, flushing and closing, and the clock. `Reporting.LogToFile` takes the timestamp as a parameter and returns the text it would append. `NoDepictor.Run` collects the entries.
- Reading the category file. Its lines are an input, and universal-newline decoding is not modelled.
- `quote` and `unquote`, percent-encoding as section 2.1 of RFC 3986 describes. They are the given functions of `Http.Codec`.
- The OS's signal delivery. A SIGINT arrives only at the nondeterministic points `SignalMayArrive`. A second SIGINT after the trap is released goes to the original handler and raises `KeyboardInterrupt`; that path is not modelled.
- The `sleep(0.5)` between files. Only its effect is modelled: it is a point where `forceInterrupt` may run.
- The `KeyboardInterrupt` handler around configuration in `main`.
- JSON floats. `PyJson.Json` has no float case, so a float `pageid` or `q` cannot occur.
- PyJson.PyStr: renders a list or a dict as a fixed placeholder instead of Python's `repr`.
- PyText.ParseInt: accepts only ASCII digits, whereas Python's `int()` also accepts other Unicode decimal digits.
- CommonsClient.GetFilesNotDepictingSubject: in whole-category mode it follows at most `extraPages` continuations (a fuel bound), so a server that never stops sending `continue` is not modelled. The orchestrator always uses the default single-page mode, where the bound does not matter.
- NoDepictor.Run: does not model the log-file open failure at start-up (the program exits before any request).
- PetScanClient.ItemStep: a descriptor's fields are strings, so the item's `q` and `title` are passed through str(), whereas the source keeps the raw JSON values. In the source a non-string title makes `catlink` raise `TypeError` at `'Category:' + name`, in the status line before the image check. That call is outside every `try`, so the error ends the run. The model does not capture this crash.
- CommonsClient.HitStep: the hit's title is passed through str() for the same reason, whereas the source keeps the raw `result.get('title', '')`. In the source a non-string file title makes `pagelink` raise `AttributeError` at `.replace`, in the status line before the file is marked. That call is outside every `try`, so the error ends the run. The model does not capture this crash.
