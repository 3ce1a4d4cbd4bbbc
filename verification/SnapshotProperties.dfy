/** When the two header readers agree, and what the reviewer agent then sees of a changed file. */
module SnapshotProperties {
  import opened Prelude
  import opened Text
  import opened Diff
  import opened Snapshot
  import DiffProperties
  import DiffWrite

  // ----- the readers ------------------------------------------------------

  /** A header target both readers take the same way: not quoted; no bare prefix and no
      prefix before the absent file; nothing behind a numeric prefix. */
  predicate Plainly(target: string) {
    && !Quoted(target)
    && (HasSlash(target) && Head(target) in LISTED_PREFIXES ==> Rest(target) != "" && Rest(target) != ABSENT)
    && (HasSlash(target) && Head(target) in {"1", "2", "3"} ==> Rest(target) == "")
  }

  lemma AbsentHasNoPrefix()
    ensures HasSlash(ABSENT) && Head(ABSENT) == ""
  {
    assert ABSENT[0] == '/';
  }

  lemma HeadIsShorter(path: string)
    ensures HasSlash(path) ==> |Rest(path)| < |path| && Head(path) + "/" + Rest(path) == path
    ensures !HasSlash(path) ==> Rest(path) == "" && Head(path) == path
  {
    SlashAt(path);
  }

  lemma {:induction false} SlashAt(path: string)
    ensures HasSlash(path) ==> path[IndexOf(path, '/')] == '/'
  {
    if path != "" && path[0] != '/' {
      SlashAt(path[1..]);
    }
  }

  lemma QuotedHead(target: string)
    requires Quoted(target)
    ensures Head(target) == "" || Head(target)[0] == '"'
  {
  }

  lemma ListedDoNotQuote(prefix: string)
    requires prefix in PATH_PREFIXES
    ensures prefix != "" && prefix[0] != '"'
  {
  }

  /** The two prefix lists differ in the three numeric prefixes. */
  lemma ListsDiffer(prefix: string)
    ensures prefix in PATH_PREFIXES <==> prefix in LISTED_PREFIXES || prefix in {"1", "2", "3"}
    ensures !(prefix in LISTED_PREFIXES && prefix in {"1", "2", "3"})
  {
  }

  lemma DropNeverGrows(path: string)
    ensures |DropPrefix(path)| <= |path|
  {
    HeadIsShorter(path);
  }

  lemma QuotedDisagree(line: string)
    requires Quoted(Target(line))
    ensures RemovalPath(line) != HeaderPath(line)
  {
    var t := Target(line);
    QuotedHead(t);
    ListsDiffer(Head(t));
    if Head(t) in PATH_PREFIXES {
      ListedDoNotQuote(Head(t));
    }
    assert DropListed(t) == t;
    AbsentHasNoPrefix();
    assert t[0] == '"' && ABSENT[0] == '/';
    assert RemovalPath(line) == Some(t);
    DropNeverGrows(Unquote(t));
    assert |Unquote(t)| < |t|;
  }

  /** The two readers name the same file for a header exactly when its target is plain. */
  lemma HeadersAgree(line: string)
    ensures RemovalPath(line) == HeaderPath(line) <==> Plainly(Target(line))
  {
    var t := Target(line);
    if Quoted(t) {
      QuotedDisagree(line);
    } else {
      AbsentHasNoPrefix();
      HeadIsShorter(t);
      ListsDiffer(Head(t));
      if t == ABSENT {
        assert Head(t) !in PATH_PREFIXES;
      }
    }
  }

  // ----- whose lines are removed ------------------------------------------

  ghost predicate AllAgree(lines: seq<string>) {
    forall i | 0 <= i < |lines| && IsHeader(lines[i]) :: Plainly(Target(lines[i]))
  }

  function LastPath(s: seq<Section>): Option<string> {
    if s == [] then None else s[|s| - 1].path
  }

  /** The file line `j` belongs to, as the reader of added lines sees it. */
  function FileAt(lines: seq<string>, j: nat): Option<string>
    requires j <= |lines|
  {
    LastPath(Sections(lines[..j]))
  }

  lemma {:induction false} CurrentIsLastPath(lines: seq<string>)
    requires AllAgree(lines)
    ensures Current(lines) == LastPath(Sections(lines))
  {
    if lines != [] {
      var n := |lines| - 1;
      CurrentIsLastPath(lines[..n]);
      HeadersAgree(lines[n]);
    }
  }

  ghost predicate TakesOut(lines: seq<string>, j: int, path: string, text: string) {
    && 0 <= j < |lines|
    && "-" <= lines[j] && !("---" <= lines[j]) && FileAt(lines, j) == Some(path) && Strip(lines[j][1..]) == text
  }

  lemma RemovalIsNoHeader(line: string)
    requires IsRemoval(line)
    ensures !IsHeader(line)
  {
    assert line[0] == '-' && "+++ "[0] == '+';
  }

  lemma TakenOutEarlier(lines: seq<string>, j: int, path: string, text: string)
    requires 0 <= j < |lines| - 1
    ensures TakesOut(lines, j, path, text) <==> TakesOut(lines[..|lines| - 1], j, path, text)
  {
    assert lines[..|lines| - 1][..j] == lines[..j];
  }

  lemma TakenOutLast(lines: seq<string>, path: string, text: string)
    requires AllAgree(lines) && lines != []
    ensures var n := |lines| - 1;
      text in Removals(lines, path) <==> text in Removals(lines[..n], path) || TakesOut(lines, n, path, text)
  {
    var n := |lines| - 1;
    CurrentIsLastPath(lines[..n]);
    if IsRemoval(lines[n]) {
      RemovalIsNoHeader(lines[n]);
    }
  }

  /** Where the readers agree, a text counts as removed from a file exactly when some `-` line
      of that file's own sections carries it. */
  lemma {:induction false} RemovalsExactly(lines: seq<string>, path: string, text: string)
    requires AllAgree(lines)
    ensures text in Removals(lines, path) <==> exists j :: TakesOut(lines, j, path, text)
  {
    if lines != [] {
      var n := |lines| - 1;
      RemovalsExactly(lines[..n], path, text);
      TakenOutLast(lines, path, text);
      forall j | 0 <= j < n ensures TakesOut(lines, j, path, text) <==> TakesOut(lines[..n], j, path, text) {
        TakenOutEarlier(lines, j, path, text);
      }
    }
  }

  /** Under a header the readers take differently, the file loses nothing it should. */
  lemma MisreadRemoval(header: string, line: string)
    requires IsHeader(header) && IsRemoval(line) && HeaderPath(header).Some?
    ensures Strip(line[1..]) in Removals([header, line], HeaderPath(header).value) <==> Plainly(Target(header))
  {
    HeadersAgree(header);
    assert [header, line] == [header] + [line] && [header] == [] + [header];
    RemovalsAppend([header], line, HeaderPath(header).value);
    RemovalsAppend([], header, HeaderPath(header).value);
    assert !IsHeader(line) by { assert line[0] == '-'; }
    assert !IsRemoval(header);
  }

  // ----- what survives ----------------------------------------------------

  /** What survives keeps its order. */
  lemma {:induction false} SurvivorsInOrder(lines: seq<string>, gone: set<string>)
    ensures DiffProperties.Subsequence(Survivors(lines, gone), lines)
  {
    if lines != [] {
      var n, s := |lines| - 1, Survivors(lines, gone);
      SurvivorsInOrder(lines[..n], gone);
      if Strip(lines[n]) !in gone {
        assert s[..|s| - 1] == Survivors(lines[..n], gone);
      } else {
        assert s == Survivors(lines[..n], gone);
      }
    }
  }

  /** Every line nothing removes survives as often as it stood there, and no other does. */
  lemma {:induction false} SurvivorsCount(lines: seq<string>, gone: set<string>, line: string)
    ensures multiset(Survivors(lines, gone))[line] == if Strip(line) in gone then 0 else multiset(lines)[line]
  {
    if lines != [] {
      var n := |lines| - 1;
      SurvivorsCount(lines[..n], gone, line);
      assert lines == lines[..n] + [lines[n]];
      assert multiset(lines) == multiset(lines[..n]) + multiset{lines[n]};
      CountAppended(Survivors(lines[..n], gone), lines[n], line);
    }
  }

  lemma CountAppended(lines: seq<string>, last: string, line: string)
    ensures multiset(lines + [last])[line] == multiset(lines)[line] + if last == line then 1 else 0
    ensures multiset(lines + [])[line] == multiset(lines)[line]
  {
    assert lines + [] == lines;
  }

  /** A touched file of the repository after the change: what survives, then the marker and
      the added lines if there are any. */
  lemma {:induction false} ChangedFile(files: map<string, string>, diff: string, out: map<string, string>,
                                       removed: map<string, set<string>>, path: string, line: string)
    requires Parsed(diff).Ok? && AllAgree(SplitLines(diff))
    requires Collected(removed, SplitLines(diff)) && PatchedBy(out, files, Change(Parsed(diff).value.at, removed))
    requires path in files && path in Change(Parsed(diff).value.at, removed).Touched()
    ensures path in out
    ensures var before := SplitLines(files[path]);
      var kept := Survivors(before, SetAt(removed, path));
      && out[path] == Join(kept + AddedPart(path, TextAt(Parsed(diff).value.at, path))) + "\n"
      && DiffProperties.Subsequence(kept, before)
      && multiset(kept)[line]
         == if exists j :: TakesOut(SplitLines(diff), j, path, Strip(line)) then 0 else multiset(before)[line]
  {
    RemovalsExactly(SplitLines(diff), path, Strip(line));
    SurvivorsInOrder(SplitLines(files[path]), SetAt(removed, path));
    SurvivorsCount(SplitLines(files[path]), SetAt(removed, path), line);
  }

  /** A file with no section that adds and no `-` line of its own is left as it was; a file the
      repository does not have is its added lines. */
  lemma OtherFiles(files: map<string, string>, diff: string, out: map<string, string>,
                   removed: map<string, set<string>>, path: string)
    requires Parsed(diff).Ok? && AllAgree(SplitLines(diff))
    requires Collected(removed, SplitLines(diff)) && PatchedBy(out, files, Change(Parsed(diff).value.at, removed))
    ensures path in files && path !in Parsed(diff).value.at
            && (forall j, text :: !TakesOut(SplitLines(diff), j, path, text))
            ==> path in out && out[path] == files[path]
    ensures path !in files && path in Parsed(diff).value.at ==> path in out && out[path] == Parsed(diff).value.at[path]
  {
    if path in removed {
      var text :| text in Removals(SplitLines(diff), path);
      RemovalsExactly(SplitLines(diff), path, text);
    }
  }

  // ----- the file, line by line -------------------------------------------

  lemma HeaderPathIsOneLine(line: string)
    requires OneLine(line)
    ensures HeaderPath(line).Some? ==> OneLine(HeaderPath(line).value)
  {
    var rest := if |line| < 4 then "" else line[4..];
    assert OneLine(rest);
    StripKeepsOneLine(rest[..IndexOf(rest, '\t')]);
    assert OneLine(Target(line));
    assert OneLine(Unquote(Target(line)));
  }

  ghost predicate PathsOneLine(s: seq<Section>) {
    forall i | 0 <= i < |s| && s[i].path.Some? :: OneLine(s[i].path.value)
  }

  lemma {:induction false} SectionPathsAreOneLine(lines: seq<string>)
    requires AllOneLine(lines)
    ensures PathsOneLine(Sections(lines))
  {
    if lines != [] {
      var n := |lines| - 1;
      assert AllOneLine(lines[..n]);
      SectionPathsAreOneLine(lines[..n]);
      assert OneLine(lines[n]);
      HeaderPathIsOneLine(lines[n]);
    }
  }

  lemma MarkerIsOneLine(path: string)
    requires OneLine(path)
    ensures OneLine(AddsMarker(path))
  {
    var head := "# ---- lines this diff ADDS to ";
    assert OneLine(head) && OneLine(" ----");
    OneLineConcat(head, path);
    OneLineConcat(head + path, " ----");
  }

  lemma OneLineConcat(a: string, b: string)
    requires OneLine(a) && OneLine(b)
    ensures OneLine(a + b)
  {
  }

  /** The added part is the marker and the added lines, but for a last one that is empty;
      nothing at all when there is no more than that. */
  lemma {:induction false} AddedPartExactly(path: string, lines: seq<string>)
    requires AllOneLine(lines)
    ensures var shown := if lines != [] && lines[|lines| - 1] == "" then lines[..|lines| - 1] else lines;
      AddedPart(path, Join(lines))
      == if lines == [] || lines == [""] then [] else ["# ---- lines this diff ADDS to " + path + " ----"] + shown
  {
    SplitJoin(lines);
    assert |lines| > 1 ==> |Join(lines)| > 0;
  }

  lemma {:induction false} SurvivorsAreLines(lines: seq<string>, gone: set<string>)
    requires AllOneLine(lines)
    ensures AllOneLine(Survivors(lines, gone))
  {
    if lines != [] {
      SurvivorsAreLines(lines[..|lines| - 1], gone);
      assert OneLine(lines[|lines| - 1]);
    }
  }

  /** What the reviewer agent reads, line by line: exactly the surviving lines, the marker and the
      added lines, whenever there is a line left to show. */
  lemma RewrittenReadsBack(diff: string, path: string, text: string, gone: set<string>)
    requires Parsed(diff).Ok?
    requires LinesAfter(path, text, TextAt(Parsed(diff).value.at, path), gone) != []
    ensures var added := TextAt(Parsed(diff).value.at, path);
      SplitLines(Rewritten(path, text, added, gone)) == LinesAfter(path, text, added, gone)
  {
    var added := TextAt(Parsed(diff).value.at, path);
    var s := Sections(SplitLines(diff));
    SplitLinesAreLines(diff);
    SplitLinesAreLines(text);
    SplitLinesAreLines(added);
    SurvivorsAreLines(SplitLines(text), gone);
    SectionPathsAreOneLine(SplitLines(diff));
    if path in FilesOf(s).at {
      DiffWrite.TextOfLastSection(s, path);
      MarkerIsOneLine(path);
    }
    var lines := LinesAfter(path, text, added, gone);
    assert AllOneLine(lines);
    JoinThenNewline(lines);
    SplitUnlines(lines);
  }
}
