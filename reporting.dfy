/**
 * The pure string helpers of the command-line program: wiki links to
 * Commons pages (`pagelink`, `catlink`), the layout of one log-file entry
 * (`logToFile`), and reading root categories from the arguments
 * (`getCategories`).
 */
module Reporting {
  import opened PyText
  import opened PyJson
  import opened Http

  // ------------------------------------------------------------------ links

  const CommonsWikiUrl: string := "https://commons.wikimedia.org/wiki/"

  /** Whether a page name (underscores read as spaces) is in the Category or File namespace. */
  predicate Namespaced(display: string) {
    StartsWith(display, "Category:") || StartsWith(display, "File:")
  }

  /** The text a link shows: underscores as spaces, a leading `:` on category and file pages. */
  function DisplayName(pageName: string): (r: string)
    ensures '_' !in r
  {
    var display := ReplaceChar(pageName, '_', ' ');
    if Namespaced(display) then ":" + display else display
  }

  /**
   * `pagelink`: `[[display]]` for the log file, or a console hyperlink to
   * the page (spaces as underscores, percent-encoded with `:` and `/` kept)
   * showing the same text.
   */
  function Pagelink(codec: Codec, pageName: string, consoleFormat: bool): string {
    var display := DisplayName(pageName);
    if !consoleFormat then "[[" + display + "]]"
    else "[[[link=" + CommonsWikiUrl + codec.quote(ReplaceChar(pageName, ' ', '_'), ":/") + "]" + display + "[/link]]]"
  }

  /** `catlink`: the link of the category page of that name. */
  function Catlink(codec: Codec, categoryName: string, consoleFormat: bool): string {
    Pagelink(codec, "Category:" + categoryName, consoleFormat)
  }

  /**
   * In the log file a category always appears as a colon link to its
   * category page, whose name shows underscores as spaces.
   */
  lemma CatlinkIsColonLink(codec: Codec, categoryName: string)
    ensures Catlink(codec, categoryName, false) == "[[:Category:" + ReplaceChar(categoryName, '_', ' ') + "]]"
  {
    var shown := ReplaceChar(categoryName, '_', ' ');
    CategoryDisplayName(categoryName);
    assert "[[" + (":Category:" + shown) + "]]" == "[[:Category:" + shown + "]]";
  }

  /** A category page shows as `:Category:` and its name with underscores as spaces. */
  lemma CategoryDisplayName(categoryName: string)
    ensures DisplayName("Category:" + categoryName) == ":Category:" + ReplaceChar(categoryName, '_', ' ')
  {
    var display := "Category:" + ReplaceChar(categoryName, '_', ' ');
    ReplaceCharKeepsPrefix("Category:", categoryName, '_', ' ');
    assert display[..9] == "Category:";
  }

  /** Replacing a character the prefix does not hold leaves the prefix as it is. */
  lemma ReplaceCharKeepsPrefix(p: string, s: string, a: char, b: char)
    requires a !in p
    ensures ReplaceChar(p + s, a, b) == p + ReplaceChar(s, a, b)
  {
    assert forall i | 0 <= i < |p + s| :: ReplaceChar(p + s, a, b)[i] == (p + ReplaceChar(s, a, b))[i];
  }

  /**
   * Both forms of a link show the same text: the wiki form wraps it in
   * `[[ ]]`, the console form puts it inside a hyperlink to the page.
   */
  lemma LinkFormsShowSameText(codec: Codec, pageName: string)
    ensures var wiki := Pagelink(codec, pageName, false);
      && |wiki| >= 4 && wiki[..2] == "[[" && wiki[|wiki| - 2..] == "]]" && '_' !in wiki
      && Pagelink(codec, pageName, true)
         == "[[[link=" + CommonsWikiUrl + codec.quote(ReplaceChar(pageName, ' ', '_'), ":/") + "]"
            + wiki[2..|wiki| - 2] + "[/link]]]"
  {
    var display := DisplayName(pageName);
    var wiki := "[[" + display + "]]";
    assert wiki[2..|wiki| - 2] == display;
  }

  /** For a name not itself starting with `:`, the wiki form marks exactly the category and file pages with a leading `:`. */
  lemma WikiLinkColonIffNamespaced(codec: Codec, pageName: string)
    requires pageName == [] || pageName[0] != ':'
    ensures var wiki := Pagelink(codec, pageName, false);
      |wiki| > 2 && (wiki[2] == ':' <==> Namespaced(ReplaceChar(pageName, '_', ' ')))
  {
    var display := ReplaceChar(pageName, '_', ' ');
    if !Namespaced(display) && display != [] {
      assert display[0] != ':';
    }
  }

  // ------------------------------------------------------------ log entries

  /** The head of every entry: `* <!-- <time> | <type> --> `. */
  function LogPrefix(now: string, level: string): (prefix: string)
    ensures |prefix| == 15 + |now| + |level|
  {
    "* <!-- " + now + " | " + level + " --> "
  }

  function Spaces(n: nat): (r: string)
    ensures |r| == n && forall i :: 0 <= i < n ==> r[i] == ' '
  {
    if n == 0 then [] else Spaces(n - 1) + " "
  }

  /** One continuation line: a new line, `*:`, padding to the prefix's width, the right-trimmed text. */
  function ContinuationLine(indent: nat, line: string): string {
    "\n*:" + Spaces(indent) + RStrip(line)
  }

  /** The continuation lines of an entry, in order. */
  function Continuations(indent: nat, lines: seq<string>): string {
    if lines == [] then []
    else Continuations(indent, lines[..|lines| - 1]) + ContinuationLine(indent, lines[|lines| - 1])
  }

  /**
   * What `logToFile` writes: the prefix and the first line, the later
   * lines aligned under the first, one final newline; a message without
   * lines makes `lines[0]` raise `IndexError`.
   */
  function LogEntryText(now: string, level: string, message: string): Result<string> {
    var lines := SplitLines(message);
    if lines == [] then Err(IndexError)
    else
      var prefix := LogPrefix(now, level);
      Ok(prefix + RStrip(lines[0]) + Continuations(|prefix| - 2, lines[1..]) + "\n")
  }

  /** One more line of the message adds its continuation line. */
  lemma ContinuationsStep(head: string, indent: nat, rest: seq<string>, j: nat)
    requires j < |rest|
    ensures head + Continuations(indent, rest[..j + 1])
      == head + Continuations(indent, rest[..j]) + "\n*:" + Spaces(indent) + RStrip(rest[j])
  {
    var done := rest[..j + 1];
    assert done[..|done| - 1] == rest[..j] && done[|done| - 1] == rest[j];
  }

  /** `logToFile`, with the clock reading as a parameter: the text appended to the log file. */
  method LogToFile(now: string, level: string, message: string) returns (written: Result<string>)
    ensures written == LogEntryText(now, level, message)
  {
    var prefix := LogPrefix(now, level);
    var lines := SplitLines(message);
    if lines == [] {
      return Err(IndexError);
    }
    var head := prefix + RStrip(lines[0]);
    var rest := lines[1..];
    var indent := |prefix| - 2;
    var formatted := head;
    var j := 0;
    assert rest[..0] == [];
    while j < |rest|
      invariant j <= |rest|
      invariant formatted == head + Continuations(indent, rest[..j])
    {
      ContinuationsStep(head, indent, rest, j);
      formatted := formatted + "\n*:" + Spaces(indent) + RStrip(rest[j]);
      j := j + 1;
    }
    assert rest[..j] == rest;
    written := Ok(formatted + "\n");
  }

  /** The number of line feeds in a string. */
  function Newlines(s: string): nat {
    if s == [] then 0 else Newlines(s[..|s| - 1]) + (if s[|s| - 1] == '\n' then 1 else 0)
  }

  lemma {:induction false} NewlinesAppend(a: string, b: string)
    ensures Newlines(a + b) == Newlines(a) + Newlines(b)
    decreases |b|
  {
    if b != [] {
      assert (a + b)[..|a + b| - 1] == a + b[..|b| - 1];
      assert (a + b)[|a + b| - 1] == b[|b| - 1];
      NewlinesAppend(a, b[..|b| - 1]);
    } else {
      assert a + b == a;
    }
  }

  lemma {:induction false} NoNewlines(s: string)
    requires '\n' !in s
    ensures Newlines(s) == 0
    decreases |s|
  {
    if s != [] {
      NoNewlines(s[..|s| - 1]);
    }
  }

  /** A line of a split message: it holds no line boundary. */
  predicate Unbroken(line: string) {
    forall j :: 0 <= j < |line| ==> !IsLineBoundary(line[j])
  }

  /** Every line of a split message is unbroken. */
  predicate AllUnbroken(lines: seq<string>) {
    forall k :: 0 <= k < |lines| ==> Unbroken(lines[k])
  }

  /** The right-trimmed line holds no line feed, nor does the text before it. */
  lemma UnbrokenNewlines(before: string, line: string)
    requires '\n' !in before && Unbroken(line)
    ensures Newlines(before + RStrip(line)) == 0
  {
    var trimmed := RStrip(line);
    assert '\n' !in before + trimmed by {
      assert forall j | 0 <= j < |trimmed| :: trimmed[j] == line[j];
    }
    NoNewlines(before + trimmed);
  }

  /** One continuation line holds exactly one line feed, at its start. */
  lemma ContinuationLineNewlines(indent: nat, line: string)
    requires Unbroken(line)
    ensures Newlines(ContinuationLine(indent, line)) == 1
  {
    var body := Spaces(indent) + RStrip(line);
    assert '\n' !in Spaces(indent);
    UnbrokenNewlines(Spaces(indent), line);
    assert Newlines("\n*:") == 1 by {
      assert "\n*:"[..2] == "\n*" && "\n*"[..1] == "\n" && "\n"[..0] == [];
    }
    NewlinesAppend("\n*:", body);
    assert ContinuationLine(indent, line) == "\n*:" + body;
  }

  /** Each continuation line starts with exactly one line feed. */
  lemma {:induction false} ContinuationsNewlines(indent: nat, lines: seq<string>)
    requires AllUnbroken(lines)
    ensures Newlines(Continuations(indent, lines)) == |lines|
    decreases |lines|
  {
    if lines != [] {
      var init := lines[..|lines| - 1];
      var last := lines[|lines| - 1];
      assert AllUnbroken(init) by {
        assert forall k | 0 <= k < |init| :: init[k] == lines[k];
      }
      ContinuationsNewlines(indent, init);
      ContinuationLineNewlines(indent, last);
      NewlinesAppend(Continuations(indent, init), ContinuationLine(indent, last));
    }
  }

  lemma LineFeedNewlines()
    ensures Newlines("\n") == 1
  {
    assert "\n"[..0] == [];
  }

  /** An entry built from unbroken lines has one line feed per line. */
  lemma EntryNewlines(prefix: string, lines: seq<string>)
    requires '\n' !in prefix && lines != [] && |prefix| >= 2
    requires AllUnbroken(lines)
    ensures Newlines(prefix + RStrip(lines[0]) + Continuations(|prefix| - 2, lines[1..]) + "\n") == |lines|
  {
    var rest := lines[1..];
    UnbrokenParts(lines);
    UnbrokenNewlines(prefix, lines[0]);
    ContinuationsNewlines(|prefix| - 2, rest);
    TerminatedNewlines(prefix + RStrip(lines[0]), Continuations(|prefix| - 2, rest));
  }

  lemma UnbrokenParts(lines: seq<string>)
    requires AllUnbroken(lines) && lines != []
    ensures Unbroken(lines[0]) && AllUnbroken(lines[1..])
  {
    var rest := lines[1..];
    assert forall k | 0 <= k < |rest| :: rest[k] == lines[k + 1];
  }

  /** A first line without line feeds, its continuations, then the final line feed. */
  lemma TerminatedNewlines(head: string, tail: string)
    requires Newlines(head) == 0
    ensures Newlines(head + tail + "\n") == Newlines(tail) + 1
  {
    NewlinesAppend(head, tail);
    NewlinesAppend(head + tail, "\n");
    LineFeedNewlines();
  }

  /** The lines of a message are unbroken. */
  lemma SplitLinesAreUnbroken(message: string)
    ensures AllUnbroken(SplitLines(message))
  {
    SplitLinesHasNoBoundary(message);
  }

  /**
   * A written entry holds one line of the file per line of the message:
   * as many line feeds as the message has lines, the last one at the end,
   * provided the time and the type hold no line feed.
   */
  lemma EntryHasOneLinePerMessageLine(now: string, level: string, message: string)
    requires '\n' !in now && '\n' !in level
    requires message != []
    ensures LogEntryText(now, level, message).Ok?
    ensures var text := LogEntryText(now, level, message).value;
      && Newlines(text) == |SplitLines(message)|
      && text[|text| - 1] == '\n'
      && StartsWith(text, LogPrefix(now, level))
  {
    var prefix := LogPrefix(now, level);
    var lines := SplitLines(message);
    SplitLinesAreUnbroken(message);
    assert lines != [] by {
      SplitLinesHasNoBoundary(message);
    }
    var text := prefix + RStrip(lines[0]) + Continuations(|prefix| - 2, lines[1..]) + "\n";
    assert LogEntryText(now, level, message) == Ok(text);
    assert '\n' !in prefix;
    EntryNewlines(prefix, lines);
    assert text[..|prefix|] == prefix;
  }

  // ------------------------------------------------------- root categories

  /** The lines of the category file, stripped, blank ones dropped, in order. */
  function CategoryLines(lines: seq<string>): (r: seq<string>)
    ensures |r| <= |lines|
    ensures forall k :: 0 <= k < |r| ==> r[k] != [] && Strip(r[k]) == r[k]
  {
    if lines == [] then []
    else
      var line := Strip(lines[0]);
      if line != [] then [line] + CategoryLines(lines[1..]) else CategoryLines(lines[1..])
  }

  /** An entry kept from the later lines is kept from the whole file. */
  lemma CategoryLinesOfRest(lines: seq<string>, entry: string)
    requires lines != [] && entry in CategoryLines(lines[1..])
    ensures entry in CategoryLines(lines)
  {
    var line := Strip(lines[0]);
    var rest := CategoryLines(lines[1..]);
    if line != [] {
      assert CategoryLines(lines) == [line] + rest;
    }
  }

  /** A non-blank first line is the first entry. */
  lemma CategoryLinesOfHead(lines: seq<string>)
    requires lines != [] && Strip(lines[0]) != []
    ensures CategoryLines(lines) == [Strip(lines[0])] + CategoryLines(lines[1..])
  {
  }

  /** Every non-blank line of the file is kept, stripped: `entry` is line `k` stripped. */
  lemma {:induction false} CategoryLinesKeepsEveryEntry(lines: seq<string>, k: nat, entry: string)
    requires k < |lines| && entry == Strip(lines[k]) && entry != []
    ensures entry in CategoryLines(lines)
  {
    if k == 0 {
      CategoryLinesOfHead(lines);
    } else {
      CategoryLinesKeepsEveryEntry(lines[1..], k - 1, entry);
      CategoryLinesOfRest(lines, entry);
    }
  }

  /**
   * The arguments `getCategories` reads: the `category` option, the
   * `categoryfile` option, and the lines of that file (`None` when it does
   * not exist).
   */
  datatype Arguments = Arguments(
    category: Option<string>,
    categoryFile: Option<string>,
    fileLines: Option<seq<string>>,
    dryRun: bool)

  /**
   * `getCategories`: the one category given, else the file's entries, else
   * `None` when the program exits with status 1 (a missing file, or
   * neither option given).
   */
  function GetCategories(args: Arguments): (r: Option<seq<string>>)
    ensures args.category.Some? && args.category.value != [] ==> r == Some([args.category.value])
    ensures r.None? <==>
      (args.category.None? || args.category.value == [])
      && (args.categoryFile.None? || args.categoryFile.value == [] || args.fileLines.None?)
  {
    if args.category.Some? && args.category.value != [] then Some([args.category.value])
    else if args.categoryFile.Some? && args.categoryFile.value != [] then
      match args.fileLines
      case None => None
      case Some(lines) => Some(CategoryLines(lines))
    else None
  }
}
