/** What the second reader takes a written diff to remove: for every body line by line, and
    exactly when that is what the diff deletes. */
module SnapshotPrinting {
  import opened Prelude
  import opened Text
  import opened Diff
  import opened DiffPrinting
  import opened DiffProperties
  import opened DiffRoundTrip
  import opened Snapshot
  import opened SnapshotProperties
  import KeyInChange

  /** The stripped text of every line read as removed. */
  function RemovedTexts(raw: seq<string>): set<string> {
    if raw == [] then {}
    else
      var last := raw[|raw| - 1];
      RemovedTexts(raw[..|raw| - 1]) + if IsRemoval(last) then {Strip(last[1..])} else {}
  }

  lemma RemovedAppend(raw: seq<string>, line: string)
    ensures RemovedTexts(raw + [line]) == RemovedTexts(raw) + if IsRemoval(line) then {Strip(line[1..])} else {}
  {
    assert (raw + [line])[..|raw|] == raw;
  }

  // ----- one file after another -------------------------------------------

  lemma {:induction false} RemovalsOfRun(lines: seq<string>, body: seq<string>, path: string)
    requires !HoldsHeader(body)
    ensures Current(lines + body) == Current(lines)
    ensures Removals(lines + body, path)
            == Removals(lines, path) + if Current(lines) == Some(path) then RemovedTexts(body) else {}
  {
    if body == [] {
      assert lines + body == lines;
    } else {
      var before, line := body[..|body| - 1], body[|body| - 1];
      assert before + [line] == body && (lines + before) + [line] == lines + body;
      HoldsHeaderConcat(before, [line]);
      assert IsHeader([line][0]) <==> IsHeader(line);
      RemovalsOfRun(lines, before, path);
      RemovalsAppend(lines + before, line, path);
      RemovedAppend(before, line);
    }
  }

  predicate Untouching(line: string) {
    !IsHeader(line) && !IsRemoval(line)
  }

  lemma {:induction false} UntouchingTail(lines: seq<string>, tail: seq<string>, path: string)
    requires forall i | 0 <= i < |tail| :: Untouching(tail[i])
    ensures Removals(lines + tail, path) == Removals(lines, path)
  {
    if tail == [] {
      assert lines + tail == lines;
    } else {
      var before, line := tail[..|tail| - 1], tail[|tail| - 1];
      assert (lines + before) + [line] == lines + tail;
      UntouchingTail(lines, before, path);
      RemovalsAppend(lines + before, line, path);
    }
  }

  lemma MetaIsUntouching(line: string)
    requires IsMeta(line)
    ensures Untouching(line)
  {
    assert line[0] != '+';
    assert "-" <= line ==> line[0] == '-';
    assert "--- " <= line ==> "---" <= line;
  }

  lemma PreambleIsUntouching(f: FileDiff)
    requires f.WellNamed()
    ensures forall i | 0 <= i < |f.Preamble()| :: Untouching(f.Preamble()[i])
  {
    var oldLine := "--- " + f.oldName;
    assert oldLine[..4] == "--- ";
    MetaIsUntouching(oldLine);
    forall i | 0 <= i < |f.extended| ensures Untouching(PrintGit(f.extended)[i]) {
      GitLineIsMeta(f.extended[i]);
      MetaIsUntouching(f.extended[i].Print());
    }
  }

  /** Names both header readers take the same way. */
  ghost predicate PlainlyNamed(files: seq<FileDiff>) {
    forall i | 0 <= i < |files| :: files[i].WellNamed() && Plainly(files[i].NewName())
  }

  lemma RemovalNamesThePath(f: FileDiff)
    requires f.WellNamed() && Plainly(f.NewName())
    ensures IsHeader(f.Header()) && RemovalPath(f.Header()) == Some(f.path)
  {
    NewNameShape(f);
    HeaderNamesThePath(f);
    TargetIsTheName(f.NewName(), f.stamp);
    HeadersAgree(f.Header());
  }

  /** A quoted name is unquoted by the first reader only. */
  lemma QuotedNameIsTakenTwoWays()
    ensures HeaderPath("+++ \"b/x\"") == Some("x") && RemovalPath("+++ \"b/x\"") == Some("\"b/x\"")
  {
    var name := "\"b/x\"";
    TargetIsTheName(name, "");
    assert "+++ " + name + "" == "+++ \"b/x\"";
    assert Unquote(name) == "b/x";
    assert "b" in PATH_PREFIXES;
    PrefixIsDropped("b", "x");
    assert "b" + "/" + "x" == "b/x";
    QuotedHead(name);
    ListsDiffer(Head(name));
    if Head(name) in PATH_PREFIXES {
      ListedDoNotQuote(Head(name));
    }
  }

  /** A numeric prefix is dropped by the first reader only. */
  lemma NumericPrefixIsTakenTwoWays()
    ensures HeaderPath("+++ 1/x") == Some("x") && RemovalPath("+++ 1/x") == Some("1/x")
  {
    var name := "1/x";
    TargetIsTheName(name, "");
    assert "+++ " + name + "" == "+++ 1/x";
    assert "1" in PATH_PREFIXES;
    PrefixIsDropped("1", "x");
    assert "1" + "/" + "x" == name;
    IndexOfAfter("1", '/', "/x");
    assert "1" + "/x" == name;
    ListsDiffer("1");
    assert ABSENT[0] == '/';
  }

  /** What the bodies written under a path remove from it, piece by piece. */
  function RemovedFrom(files: seq<FileDiff>, path: string): set<string> {
    if files == [] then {}
    else
      var last := files[|files| - 1];
      RemovedFrom(files[..|files| - 1], path) + if last.path == path then RemovedTexts(BodyPieces(last.body)) else {}
  }

  lemma RemovalsUnderHeader(lines: seq<string>, header: string, body: seq<string>, named: string, path: string)
    requires IsHeader(header) && RemovalPath(header) == Some(named) && !HoldsHeader(body)
    ensures Removals(lines + ([header] + body), path)
            == Removals(lines, path) + if named == path then RemovedTexts(body) else {}
  {
    RemovalsAppend(lines, header, path);
    RemovalsOfRun(lines + [header], body, path);
    assert lines + ([header] + body) == lines + [header] + body;
  }

  lemma RemovalsOfMore(before: seq<string>, f: FileDiff, path: string)
    requires f.WellNamed() && Plainly(f.NewName()) && !HoldsHeader(BodyPieces(f.body))
    ensures Removals((before + f.Preamble()) + OwnLines(f), path)
            == Removals(before, path) + if f.path == path then RemovedTexts(BodyPieces(f.body)) else {}
  {
    PreambleIsUntouching(f);
    UntouchingTail(before, f.Preamble(), path);
    RemovalNamesThePath(f);
    RemovalsUnderHeader(before + f.Preamble(), f.Header(), BodyPieces(f.body), f.path, path);
  }

  /** For every diff with plain names and no stray headers, whatever else its bodies hold: the
      second reader removes from a path exactly what the bodies under it remove. */
  lemma {:induction false} RemovalsOfPrinted(files: seq<FileDiff>, path: string)
    requires PlainlyNamed(files) && KeyInChange.NoStrayHeaders(files)
    ensures Removals(DiffPieces(files), path) == RemovedFrom(files, path)
  {
    if files != [] {
      var before, f := files[..|files| - 1], files[|files| - 1];
      assert files == before + [f];
      RemovalsOfPrinted(before, path);
      DiffPiecesAppend(before, f);
      RemovalsOfMore(DiffPieces(before), f, path);
    }
  }

  // ----- deleted lines ----------------------------------------------------

  /** What one written line removes, as the reader cuts it into pieces. */
  function RemovedBy(line: BodyLine): set<string> {
    RemovedTexts(Pieces(line.Print()))
  }

  lemma {:induction false} RemovedConcat(a: seq<string>, b: seq<string>)
    ensures RemovedTexts(a + b) == RemovedTexts(a) + RemovedTexts(b)
  {
    if b == [] {
      assert a + b == a;
    } else {
      RemovedConcat(a, b[..|b| - 1]);
      RemovedAppend(a + b[..|b| - 1], b[|b| - 1]);
      LastApart(a, b);
    }
  }

  /** The first piece of a deleted line, unless it opens with `--`, and whatever its leftovers, or
      those of any other line, look like. */
  lemma RemovedByPieces(line: BodyLine)
    ensures RemovedBy(line)
            == (if line.Del? && !("--" <= FirstPiece(line)) then {Strip(FirstPiece(line))} else {})
               + RemovedTexts(Leftovers(line))
  {
    var p := line.Marker() + FirstPiece(line);
    PrintedPieces(line);
    FirstPieceRemoval(line);
    RemovedConcat([p], Leftovers(line));
    RemovedAppend([], p);
    assert [] + [p] == [p];
  }

  lemma FirstPieceRemoval(line: BodyLine)
    ensures var p := line.Marker() + FirstPiece(line);
      && (IsRemoval(p) <==> line.Del? && !("--" <= FirstPiece(line)))
      && (line.Del? ==> p[1..] == FirstPiece(line))
  {
    var p := line.Marker() + FirstPiece(line);
    MarkersAreLines(line);
    assert p[0] == line.Marker()[0];
    assert "-" <= p <==> p[0] == '-';
    if line.Del? {
      assert p[1..] == FirstPiece(line);
      assert "---" <= p <==> "--" <= FirstPiece(line);
    }
  }

  /** `line` stands under `path` in the diff. */
  predicate Under(files: seq<FileDiff>, path: string, line: BodyLine) {
    exists f | f in files :: f.path == path && line in f.body
  }

  lemma {:induction false} RemovedOfBody(lines: seq<BodyLine>, text: string)
    ensures text in RemovedTexts(BodyPieces(lines)) <==> exists line | line in lines :: text in RemovedBy(line)
  {
    if lines == [] {
      assert BodyPieces(lines) == [];
    } else {
      var before, line := lines[..|lines| - 1], lines[|lines| - 1];
      RemovedOfBody(before, text);
      RemovedOfBodyLast(before, line);
      assert lines == before + [line];
      assert forall x :: x in lines <==> x in before || x == line;
    }
  }

  lemma RemovedOfBodyLast(lines: seq<BodyLine>, line: BodyLine)
    ensures RemovedTexts(BodyPieces(lines + [line])) == RemovedTexts(BodyPieces(lines)) + RemovedBy(line)
  {
    BodyPiecesAppend(lines, line);
    PrintedPieces(line);
    assert BodyPieces(lines + [line]) == BodyPieces(lines) + Pieces(line.Print());
    RemovedConcat(BodyPieces(lines), Pieces(line.Print()));
  }

  /** A text is removed from a path exactly when some line written under it removes it. */
  lemma {:induction false} RemovedFromLines(files: seq<FileDiff>, path: string, text: string)
    ensures text in RemovedFrom(files, path)
            <==> exists line :: Under(files, path, line) && text in RemovedBy(line)
  {
    if files != [] {
      var before, f := files[..|files| - 1], files[|files| - 1];
      RemovedFromLines(before, path, text);
      RemovedOfBody(f.body, text);
      assert files == before + [f];
      UnderAppend(before, f, path);
      if text in RemovedFrom(files, path) {
        if text in RemovedFrom(before, path) {
          var line :| Under(before, path, line) && text in RemovedBy(line);
          assert Under(files, path, line);
        } else {
          var line :| line in f.body && text in RemovedBy(line);
          assert Under(files, path, line);
        }
      }
    }
  }

  lemma UnderAppend(files: seq<FileDiff>, f: FileDiff, path: string)
    ensures forall line ::
              Under(files + [f], path, line) <==> Under(files, path, line) || (f.path == path && line in f.body)
  {
    assert forall x :: x in files + [f] <==> x in files || x == f;
  }

  /** The stripped texts the diff deletes under a path. */
  ghost predicate IsDeleted(files: seq<FileDiff>, path: string, text: string) {
    exists line :: Under(files, path, line) && line.Del? && Strip(line.text) == text
  }

  /** No line is read to remove a text the diff does not delete: no leftover of a break looks like
      a `-` line, and no deleted line is cut short, but for texts deleted elsewhere. */
  ghost predicate NothingForeign(files: seq<FileDiff>, path: string) {
    forall line, text | Under(files, path, line) && text in RemovedBy(line) :: IsDeleted(files, path, text)
  }

  /** Every deleted text is read as removed on some line: it is not deleted by lines that open
      with `--`, or are cut by a break, alone. */
  ghost predicate NothingHidden(files: seq<FileDiff>, path: string) {
    forall line | Under(files, path, line) && line.Del? ::
      exists other :: Under(files, path, other) && Strip(line.text) in RemovedBy(other)
  }

  ghost predicate RemovesWhatIsDeleted(files: seq<FileDiff>, path: string) {
    forall text :: text in Removals(SplitLines(Unlines(PrintFiles(files))), path) <==> IsDeleted(files, path, text)
  }

  /** For every diff with plain names and no stray headers, whatever its bodies hold: what the
      second reader removes from a path is what is deleted there, if and only if line by line
      nothing foreign is read and nothing deleted is hidden. */
  lemma RemovalsAreDeletions(files: seq<FileDiff>, path: string)
    requires PlainlyNamed(files) && KeyInChange.NoStrayHeaders(files)
    ensures RemovesWhatIsDeleted(files, path) <==> NothingForeign(files, path) && NothingHidden(files, path)
  {
    SplitPieces(PrintFiles(files));
    RemovalsOfPrinted(files, path);
    forall text
      ensures text in Removals(SplitLines(Unlines(PrintFiles(files))), path)
              <==> exists line :: Under(files, path, line) && text in RemovedBy(line)
    {
      RemovedFromLines(files, path, text);
    }
    if RemovesWhatIsDeleted(files, path) {
      forall line | Under(files, path, line) && line.Del?
        ensures exists other :: Under(files, path, other) && Strip(line.text) in RemovedBy(other)
      {
        assert IsDeleted(files, path, Strip(line.text));
      }
    }
  }

  // ----- lines that are read as they are written --------------------------

  /** The pieces of a deleted line remove at most its own text, those of any other line nothing. */
  predicate RemovesItself(line: BodyLine) {
    RemovedBy(line) <= if line.Del? then {Strip(line.text)} else {}
  }

  /** Where every line removes at most itself, what is removed is what is deleted exactly when
      no text is deleted only by lines that remove nothing. */
  lemma RemovalsOfOrdinaryLines(files: seq<FileDiff>, path: string)
    requires PlainlyNamed(files) && KeyInChange.NoStrayHeaders(files)
    requires forall line | Under(files, path, line) :: RemovesItself(line)
    ensures RemovesWhatIsDeleted(files, path)
            <==> forall line | Under(files, path, line) && line.Del? && RemovedBy(line) == {} ::
                   exists other :: Under(files, path, other) && other.Del? && RemovedBy(other) != {}
                                   && Strip(other.text) == Strip(line.text)
  {
    RemovalsAreDeletions(files, path);
    forall line, text | Under(files, path, line) && text in RemovedBy(line) ensures IsDeleted(files, path, text) {
      assert RemovesItself(line);
    }
    if NothingHidden(files, path) {
      forall line | Under(files, path, line) && line.Del? && RemovedBy(line) == {}
        ensures exists other :: Under(files, path, other) && other.Del? && RemovedBy(other) != {}
                                && Strip(other.text) == Strip(line.text)
      {
        var other :| Under(files, path, other) && Strip(line.text) in RemovedBy(other);
        assert RemovesItself(other);
      }
    } else {
      var line :| Under(files, path, line) && line.Del?
                  && forall other | Under(files, path, other) :: Strip(line.text) !in RemovedBy(other);
      assert RemovesItself(line);
      assert RemovedBy(line) == {};
      forall other | Under(files, path, other) && other.Del? && RemovedBy(other) != {}
        ensures Strip(other.text) != Strip(line.text)
      {
        assert RemovesItself(other);
        assert Strip(other.text) in RemovedBy(other);
      }
    }
  }

  /** A whole line removes itself, and nothing exactly when it is no deletion or opens with `--`. */
  lemma WholeLineRemovesItself(line: BodyLine)
    requires OneLine(line.Text())
    ensures RemovesItself(line)
    ensures RemovedBy(line) == {} <==> !line.Del? || "--" <= line.text
  {
    PiecesOfOneLine(line.Text());
    RemovedByPieces(line);
  }

  lemma PiecesOfReturned(text: string)
    requires OneLine(text)
    ensures Pieces(text + "\r") == [text]
  {
    var s := "\r" + "\n";
    CutPast(text, s, "");
    assert text + "\r" + "\n" == text + s && "" + text == text;
    assert "\r\n" <= s && s[2..] == "";
  }

  lemma {:induction false} StripLeftAppend(text: string, c: char)
    requires IsSpace(c)
    ensures StripLeft(text + [c]) == if StripLeft(text) == "" then "" else StripLeft(text) + [c]
  {
    if text == "" {
      assert text + [c] == [c] && [c][1..] == "";
    } else {
      assert (text + [c])[0] == text[0] && (text + [c])[1..] == text[1..] + [c];
      if IsSpace(text[0]) {
        StripLeftAppend(text[1..], c);
      }
    }
  }

  lemma StripAppend(text: string, c: char)
    requires IsSpace(c)
    ensures Strip(text + [c]) == Strip(text)
  {
    StripLeftAppend(text, c);
    var l := StripLeft(text);
    if l != "" {
      assert (l + [c])[..|l|] == l;
    }
  }

  /** So does a line of a file with CRLF endings. */
  lemma ReturnedLineRemovesItself(line: BodyLine, text: string)
    requires line.Text() == text + "\r" && OneLine(text)
    ensures RemovesItself(line)
    ensures RemovedBy(line) == {} <==> !line.Del? || "--" <= text
  {
    PiecesOfReturned(text);
    RemovedByPieces(line);
    StripAppend(text, '\r');
  }

  // ----- what is lost -----------------------------------------------------

  /** A deleted line with a line separator in it is cut short: its first part is removed, and
      what was deleted is not. */
  lemma SeparatorCutsTheDeletion(before: string, rest: string)
    requires OneLine(before) && OneLine(rest) && !("--" <= before) && !IsRemoval(rest)
    ensures RemovedBy(Del(before + ['\U{2028}'] + rest)) == {Strip(before)}
  {
    var line := Del(before + ['\U{2028}'] + rest);
    PiecesAtBreak(before, '\U{2028}', rest);
    PiecesOfOneLine(rest);
    RemovedByPieces(line);
    RemovedAppend([], rest);
    assert [] + [rest] == [rest];
  }

  lemma XYIsCut()
    ensures RemovedBy(Del("x" + ['\U{2028}'] + "y")) == {"x"}
    ensures Strip("x" + ['\U{2028}'] + "y") != "x"
  {
    assert "y"[0] == 'y';
    SeparatorCutsTheDeletion("x", "y");
    assert !IsSpace('x') && !IsSpace('y');
    StripOfTight("x");
    StripOfTight("x" + ['\U{2028}'] + "y");
  }

  lemma OneDeletionHasNoHeader(text: string)
    requires OneLine(text)
    ensures !HoldsHeader(BodyPieces([Del(text)]))
  {
    var line := Del(text);
    OnePieces(line.Print());
    MarkersAreLines(line);
    assert PrintBody([line][..0]) == [];
    assert PrintBody([line]) == [line.Print()];
    assert OneLine(line.Print());
    PiecesOfOneLine(line.Print());
    assert line.Print()[0] == '-';
  }

  /** A comment line of a language that writes them with `--`, deleted and nothing else: to the
      second reader the diff deletes nothing, so the line stays in the view. */
  lemma DashedLineStays(f: FileDiff, text: string)
    requires f.WellNamed() && Plainly(f.NewName()) && f.body == [Del(text)]
    requires OneLine(text) && "--" <= text
    ensures Removals(SplitLines(Unlines(PrintFiles([f]))), f.path) == {}
    ensures IsDeleted([f], f.path, Strip(text))
  {
    OneDeletionHasNoHeader(text);
    SplitPieces(PrintFiles([f]));
    RemovalsOfPrinted([f], f.path);
    WholeLineRemovesItself(Del(text));
    RemovedOfBodyLast([], Del(text));
    assert [] + [Del(text)] == f.body && BodyPieces([]) == [];
    assert [f][..0] == [];
    assert f in [f] && Del(text) in f.body;
    assert Under([f], f.path, Del(text));
  }

  function SqlChange(): FileDiff {
    FileDiff([], "a/q.sql", Some("b"), "q.sql", "", [Del("-- drop it")])
  }

  lemma SqlChangeIsNamed()
    ensures SqlChange().WellNamed() && Plainly(SqlChange().NewName())
  {
    assert "b" in PATH_PREFIXES;
    assert OneLine("q.sql");
    PlainOfPrefix("q.sql");
  }

  lemma SqlCommentStays()
    ensures Removals(SplitLines(Unlines(PrintFiles([SqlChange()]))), "q.sql") == {}
  {
    SqlChangeIsNamed();
    assert OneLine("-- drop it");
    DashedLineStays(SqlChange(), "-- drop it");
  }

  lemma PlainOfPrefix(path: string)
    requires path != "" && path != ABSENT && OneLine(path) && !IsSpace(path[|path| - 1])
    ensures Plainly("b/" + path)
  {
    var name := "b/" + path;
    IndexOfAfter("b", '/', "/" + path);
    assert name == "b" + ("/" + path);
    assert Head(name) == "b" && Rest(name) == path;
    assert name[0] == 'b';
  }

  // ----- what is left of a file -------------------------------------------

  /** The lines of a touched file that stay are those no line written under it removes. */
  lemma PrintedChange(files: map<string, string>, diff: seq<FileDiff>, removed: map<string, set<string>>, path: string,
                      line: string)
    requires PlainlyNamed(diff) && KeyInChange.NoStrayHeaders(diff)
    requires Collected(removed, SplitLines(Unlines(PrintFiles(diff))))
    requires path in files
    ensures var kept := Survivors(SplitLines(files[path]), SetAt(removed, path));
      multiset(kept)[line]
      == if exists l :: Under(diff, path, l) && Strip(line) in RemovedBy(l) then 0
         else multiset(SplitLines(files[path]))[line]
  {
    SplitPieces(PrintFiles(diff));
    RemovalsOfPrinted(diff, path);
    RemovedFromLines(diff, path, Strip(line));
    SurvivorsCount(SplitLines(files[path]), SetAt(removed, path), line);
  }
}
