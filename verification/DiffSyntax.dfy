/** What the reader takes for diff syntax, spelled out: which lines are in the change, which file
    a header names, and that git's own diffs are read file by file. */
module DiffSyntax {
  import opened Prelude
  import opened Text
  import opened Diff
  import opened DiffProperties
  import opened DiffPrinting
  import opened DiffRoundTrip

  // ----- which lines are in the change ------------------------------------

  /** How the lines open that are diff syntax and never content. */
  const OPENINGS: seq<string> := [
    "\\", "@@", "--- ", "diff ", "index ", "new file mode", "deleted file mode", "old mode", "new mode",
    "similarity index", "dissimilarity index", "rename from", "rename to", "copy from", "copy to", "Binary files"]

  predicate OpensWithSyntax(line: string) {
    exists i | 0 <= i < |OPENINGS| :: OPENINGS[i] <= line
  }

  lemma MetaOpensWithSyntax(line: string)
    ensures IsMeta(line) ==> OpensWithSyntax(line)
  {
    assert OPENINGS[0] == "\\" && OPENINGS[1] == "@@" && OPENINGS[2] == "--- " && OPENINGS[3] == "diff ";
    assert OPENINGS[4] == "index " && OPENINGS[5] == "new file mode" && OPENINGS[6] == "deleted file mode";
    assert OPENINGS[7] == "old mode" && OPENINGS[8] == "new mode" && OPENINGS[9] == "similarity index";
    assert OPENINGS[10] == "dissimilarity index" && OPENINGS[11] == "rename from" && OPENINGS[12] == "rename to";
    assert OPENINGS[13] == "copy from" && OPENINGS[14] == "copy to" && OPENINGS[15] == "Binary files";
  }

  lemma SyntaxIsMeta(line: string, i: nat)
    requires i < |OPENINGS| && OPENINGS[i] <= line
    ensures IsMeta(line)
  {
  }

  lemma SyntaxExactly(line: string)
    ensures IsMeta(line) <==> OpensWithSyntax(line)
  {
    MetaOpensWithSyntax(line);
    if i: nat :| i < |OPENINGS| && OPENINGS[i] <= line {
      SyntaxIsMeta(line, i);
    }
  }

  predicate OnlySpace(line: string) {
    forall i | 0 <= i < |line| :: SpaceCode(line[i] as int)
  }

  /** Text where a marker should be: not white space, not diff syntax, no `+`, `-` or space first. */
  predicate NoMarker(line: string) {
    !OnlySpace(line) && !OpensWithSyntax(line) && line[0] != '+' && line[0] != '-' && line[0] != ' '
  }

  /** A space first, and more than space behind it. */
  predicate Indented(line: string) {
    !OnlySpace(line) && line[0] == ' '
  }

  /** Above `j`, and since the last line that opens with `@@`, stands one without a marker. */
  ghost predicate MarkersStopped(raw: seq<string>, j: nat)
    requires j <= |raw|
  {
    exists k :: 0 <= k < j && NoMarker(raw[k]) && forall m | k < m < j :: !("@@" <= raw[m])
  }

  lemma OnlySpaceIsBlank(line: string)
    ensures Blank(line) <==> OnlySpace(line)
  {
    forall i | 0 <= i < |line| ensures IsSpace(line[i]) <==> SpaceCode(line[i] as int) {
      SpacesAre(line[i]);
    }
  }

  lemma BareExactly(line: string)
    ensures Bare(line) <==> NoMarker(line)
  {
    OnlySpaceIsBlank(line);
    SyntaxExactly(line);
  }

  lemma IndentedIsUnmarked(line: string, inRun: bool)
    ensures Unmarked(line, inRun) <==> NoMarker(line) || (Indented(line) && inRun)
  {
    OnlySpaceIsBlank(line);
    SyntaxExactly(line);
    if Indented(line) {
      SyntaxOpensPlainly(line);
    }
  }

  lemma SyntaxOpensPlainly(line: string)
    requires line != "" && line[0] == ' '
    ensures !OpensWithSyntax(line)
  {
  }

  /** For every line of every section: it is in the change exactly when it is marked with a `+`
      that opens no `+++`, or has no marker, or is indented where markers have stopped. */
  lemma InChangeExactly(raw: seq<string>, j: nat)
    requires j < |raw|
    ensures InChange(raw, j)
            <==> ("+" <= raw[j] && !("+++" <= raw[j]))
                 || NoMarker(raw[j]) || (Indented(raw[j]) && MarkersStopped(raw, j))
  {
    IndentedIsUnmarked(raw[j], AfterBare(raw, j));
    forall k | 0 <= k < j ensures Bare(raw[k]) <==> NoMarker(raw[k]) {
      BareExactly(raw[k]);
    }
    if MarkersStopped(raw, j) {
      var k :| 0 <= k < j && NoMarker(raw[k]) && forall m | k < m < j :: !("@@" <= raw[m]);
      assert Bare(raw[k]) && forall m | k < m < j :: !IsHunk(raw[m]);
    }
    if AfterBare(raw, j) {
      var k :| 0 <= k < j && Bare(raw[k]) && forall m | k < m < j :: !IsHunk(raw[m]);
      assert NoMarker(raw[k]) && forall m | k < m < j :: !("@@" <= raw[m]);
    }
  }

  /** So no line that opens with one of the sixteen is, whatever comes after or stood before. */
  lemma SyntaxIsNeverInTheChange(raw: seq<string>, j: nat, i: nat)
    requires j < |raw| && i < |OPENINGS| && OPENINGS[i] <= raw[j]
    ensures !InChange(raw, j)
  {
    assert OpensWithSyntax(raw[j]);
    SyntaxExactly(raw[j]);
    LineKinds(raw[j], true);
    assert raw[j][0] == OPENINGS[i][0] != '+';
  }

  // ----- which file a header names ----------------------------------------

  /** The prefixes git writes before a name. */
  predicate GitPrefix(p: string) {
    || p == "a" || p == "b" || p == "i" || p == "w" || p == "c" || p == "o" || p == "1" || p == "2" || p == "3"
    || p == "old" || p == "new"
  }

  lemma PrefixesExactly(p: string)
    ensures p in PATH_PREFIXES <==> GitPrefix(p)
  {
  }

  /** A name as it stands in a header: no white space at its ends and no tab in it. */
  predicate Tight(name: string) {
    name != "" && !IsSpace(name[0]) && !IsSpace(name[|name| - 1]) && '\t' !in name
  }

  predicate Stamp(s: string) {
    s == "" || s[0] == '\t'
  }

  /** A listed prefix and its slash are dropped, and what follows is the file. */
  lemma PrefixedName(p: string, path: string, stamp: string)
    requires GitPrefix(p) && path != "" && !IsSpace(path[|path| - 1]) && '\t' !in path && Stamp(stamp)
    ensures HeaderPath("+++ " + (p + "/" + path) + stamp) == Some(path)
  {
    var name := p + "/" + path;
    PrefixesExactly(p);
    PrefixesArePlain(p);
    PlainIsOrdinary(p);
    PrefixIsDropped(p, path);
    assert name[0] == p[0] && name[|name| - 1] == path[|path| - 1] && Plain(p[0]);
    TargetIsTheName(name, stamp);
    assert ABSENT[0] == '/';
  }

  /** Any other name is the file, slashes and all. */
  lemma UnprefixedName(name: string, stamp: string)
    requires Tight(name) && Stamp(stamp) && !(name[0] == '"' && |name| >= 2 && name[|name| - 1] == '"')
    requires name != "/dev/null"
    requires forall p, path | GitPrefix(p) && path != "" :: name != p + "/" + path
    ensures HeaderPath("+++ " + name + stamp) == Some(name)
  {
    TargetIsTheName(name, stamp);
    HeadThenRest(name);
    PrefixesExactly(Head(name));
  }

  lemma HeadThenRest(name: string)
    ensures Rest(name) != "" ==> name == Head(name) + "/" + Rest(name)
  {
    IndexOfStands(name, '/');
  }

  lemma {:induction false} IndexOfStands(s: string, c: char)
    ensures IndexOf(s, c) < |s| ==> s[IndexOf(s, c)] == c
    ensures forall i | 0 <= i < IndexOf(s, c) :: s[i] != c
  {
    if s != "" && s[0] != c {
      IndexOfStands(s[1..], c);
      assert forall i | 1 <= i < |s| :: s[i] == s[1..][i - 1];
    }
  }

  /** Quotes around a name are not part of it. */
  lemma QuotedName(name: string, stamp: string)
    requires Tight(name) && Stamp(stamp) && !(name[0] == '"' && |name| >= 2 && name[|name| - 1] == '"')
    ensures HeaderPath("+++ " + ("\"" + name + "\"") + stamp) == HeaderPath("+++ " + name + stamp)
  {
    var quoted := "\"" + name + "\"";
    assert quoted[0] == '"' && quoted[|quoted| - 1] == '"' && quoted[1..|quoted| - 1] == name;
    assert '\t' !in quoted && !IsSpace('"');
    TargetIsTheName(quoted, stamp);
    TargetIsTheName(name, stamp);
    assert Quoted(quoted) && Unquote(quoted) == name;
    assert !Quoted(name) && Unquote(name) == name;
  }

  /** White space around a name is not part of it either. */
  lemma SpacedName(before: string, name: string, after: string, stamp: string)
    requires Tight(name) && Stamp(stamp) && '\t' !in before && '\t' !in after
    requires forall i | 0 <= i < |before| :: SpaceCode(before[i] as int)
    requires forall i | 0 <= i < |after| :: SpaceCode(after[i] as int)
    ensures HeaderPath("+++ " + (before + name + after) + stamp) == HeaderPath("+++ " + name + stamp)
  {
    var spaced := before + name + after;
    var line := "+++ " + spaced + stamp;
    assert line[4..] == spaced + stamp;
    IndexOfAfter(spaced, '\t', stamp);
    assert line[4..][..|spaced|] == spaced;
    SpacesAre(name[0]);
    SpacesAre(name[|name| - 1]);
    StripsExactly(before, name, after);
    TargetIsTheName(name, stamp);
  }

  /** A line that opens with `+++` and a space cuts the diff, whatever it names, and no other does. */
  lemma HeadersCutExactly(lines: seq<string>, line: string)
    ensures |Sections(lines + [line])|
            == |Sections(lines)| + if |line| >= 4 && line[..4] == "+++ " then 1 else 0
  {
    SectionsGrow(lines, line);
    assert "+++ " <= line <==> |line| >= 4 && line[..4] == "+++ ";
  }

  /** A header with no name, quoted or not, names no file. */
  lemma EmptyName(stamp: string)
    requires Stamp(stamp)
    ensures HeaderPath("+++ " + stamp) == None && HeaderPath("+++ " + "\"\"" + stamp) == None
  {
    var line := "+++ " + stamp;
    assert line[4..] == stamp;
    IndexOfAfter("", '\t', stamp);
    assert "" + stamp == stamp && stamp[..0] == "";
    TargetIsTheName("\"\"", stamp);
    assert Quoted("\"\"") && Unquote("\"\"") == "";
  }

  /** The absent file is no file, and its header is understood all the same. */
  lemma AbsentName(stamp: string)
    requires Stamp(stamp)
    ensures HeaderPath("+++ " + "/dev/null" + stamp) == None && Recognised("+++ " + "/dev/null" + stamp)
  {
    AbsentIsTight();
    TargetIsTheName("/dev/null", stamp);
    assert ABSENT == "/dev/null";
    var line := "+++ " + "/dev/null" + stamp;
    assert line[4..][..9] == "/dev/null";
    ContainsExactly(line, "/dev/null");
  }

  lemma AbsentIsTight()
    ensures Tight("/dev/null") && !Quoted("/dev/null")
  {
    assert "/dev/null"[0] == '/' && "/dev/null"[8] == 'l';
  }

  /** A header is understood exactly when it names a file or holds the absent file's name. */
  lemma UnderstoodExactly(line: string)
    ensures Recognised(line) <==> HeaderPath(line).Some? || exists i | 0 <= i <= |line| :: "/dev/null" <= line[i..]
  {
    ContainsExactly(line, "/dev/null");
  }

  // ----- a diff that only deletes -----------------------------------------

  lemma {:induction false} NamelessFiles(s: seq<Section>)
    requires Nameless(s)
    ensures FilesOf(s) == EmptyDict()
  {
    if s != [] {
      NamelessFiles(s[..|s| - 1]);
    }
  }

  ghost predicate Nameless(s: seq<Section>) {
    forall i | 0 <= i < |s| :: s[i].path == None
  }

  lemma NamelessExtended(s: seq<Section>, line: string)
    requires Nameless(s) && (IsHeader(line) ==> HeaderPath(line) == None)
    ensures Nameless(Extended(s, line))
  {
  }

  lemma {:induction false} AbsentSections(lines: seq<string>)
    requires forall i | 0 <= i < |lines| && IsHeader(lines[i]) :: HeaderPath(lines[i]) == None
    ensures Nameless(Sections(lines))
  {
    if lines != [] {
      var n := |lines| - 1;
      AbsentSections(lines[..n]);
      NamelessExtended(Sections(lines[..n]), lines[n]);
    }
  }

  /** A diff whose every header is that of the absent file proposes no file, and is not refused. */
  lemma OnlyDeletionsAreRead(diff: string)
    requires var lines := SplitLines(diff);
      && (exists i | 0 <= i < |lines| :: lines[i] == "+++ /dev/null")
      && (forall i | 0 <= i < |lines| && "+++ " <= lines[i] :: lines[i] == "+++ /dev/null")
    ensures Parsed(diff) == Ok(Dict([], map[]))
  {
    var lines := SplitLines(diff);
    AbsentName("");
    assert "+++ " + "/dev/null" + "" == "+++ /dev/null";
    AbsentSections(lines);
    NamelessFiles(Sections(lines));
    var i :| 0 <= i < |lines| && lines[i] == "+++ /dev/null";
    assert ReadableHeader(lines[i]);
    UnderstoodIffHeader(lines);
  }

  // ----- two files, as git writes them ------------------------------------

  function NewFile(name: string, line: string): FileDiff {
    FileDiff([DiffLine("--git a/" + name + " b/" + name), NewFileMode(" 100644"), IndexLine("0000000..1111111")],
             "/dev/null", Some("b"), name, "", [Range("-0,0 +1 @@"), Add(line)])
  }

  lemma NewFileIsNamed(name: string, line: string)
    requires name != "" && OneLine(name) && !IsSpace(name[|name| - 1]) && '\t' !in name
    ensures NewFile(name, line).WellNamed()
  {
    PrefixesExactly("b");
    GitNamesAreOneLine(name);
    GitWordsAreOneLine();
  }

  lemma GitNamesAreOneLine(name: string)
    requires OneLine(name)
    ensures OneLine("--git a/" + name + " b/" + name)
  {
    OneLineConcat("--git a/", name);
    OneLineConcat("--git a/" + name, " b/");
    OneLineConcat("--git a/" + name + " b/", name);
    assert OneLine("--git a/") && OneLine(" b/");
  }

  lemma GitWordsAreOneLine()
    ensures OneLine(" 100644") && OneLine("0000000..1111111") && OneLine("/dev/null")
  {
  }

  lemma NewFileReadsTrue(name: string, line: string)
    requires OneLine(line) && !("++" <= line)
    ensures AllReadTrue(NewFile(name, line).body)
  {
    assert OneLine("-0,0 +1 @@");
    PiecesOfOneLine("-0,0 +1 @@");
    PiecesOfOneLine(line);
  }

  lemma TwoFilesReadBack(x: string, one: string, y: string, two: string)
    requires x != "" && OneLine(x) && !IsSpace(x[|x| - 1]) && '\t' !in x
    requires y != "" && OneLine(y) && !IsSpace(y[|y| - 1]) && '\t' !in y && x != y
    requires OneLine(one) && !("++" <= one) && OneLine(two) && !("++" <= two)
    ensures Parsed(Unlines(["diff --git a/" + x + " b/" + x, "new file mode 100644", "index 0000000..1111111",
                            "--- /dev/null", "+++ b/" + x, "@@ -0,0 +1 @@", "+" + one,
                            "diff --git a/" + y + " b/" + y, "new file mode 100644", "index 0000000..1111111",
                            "--- /dev/null", "+++ b/" + y, "@@ -0,0 +1 @@", "+" + two]))
            == Ok(Dict([x, y], map[x := one, y := two]))
  {
    NewFileIsNamed(x, one);
    NewFileIsNamed(y, two);
    NewFileReadsTrue(x, one);
    NewFileReadsTrue(y, two);
    var files := [NewFile(x, one), NewFile(y, two)];
    PrintedFiles(files);
    TwoPrinted(x, one, y, two);
    TwoProposed(x, one, y, two);
  }

  lemma NewFilePrinted(name: string, line: string)
    ensures NewFile(name, line).Preamble() + ([NewFile(name, line).Header()] + PrintBody(NewFile(name, line).body))
            == ["diff --git a/" + name + " b/" + name, "new file mode 100644", "index 0000000..1111111",
                "--- /dev/null", "+++ b/" + name, "@@ -0,0 +1 @@", "+" + line]
  {
    NewFilePreamble(name, line);
    NewFileBody(name, line);
    assert NewFile(name, line).Header() == "+++ b/" + name;
  }

  lemma NewFilePreamble(name: string, line: string)
    ensures NewFile(name, line).Preamble()
            == ["diff --git a/" + name + " b/" + name, "new file mode 100644", "index 0000000..1111111",
                "--- /dev/null"]
  {
    var f := NewFile(name, line);
    DiffLinePrinted(name);
    ModePrinted();
    IndexPrinted();
    assert "--- " + f.oldName == "--- /dev/null";
  }

  lemma DiffLinePrinted(name: string)
    ensures DiffLine("--git a/" + name + " b/" + name).Print() == "diff --git a/" + name + " b/" + name
  {
    assert "diff " + ("--git a/" + name + " b/" + name) == "diff --git a/" + name + " b/" + name;
  }

  lemma ModePrinted()
    ensures NewFileMode(" 100644").Print() == "new file mode 100644"
  {
    assert "new file mode" + " 100644" == "new file mode 100644";
  }

  lemma IndexPrinted()
    ensures IndexLine("0000000..1111111").Print() == "index 0000000..1111111"
  {
    assert "index " + "0000000..1111111" == "index 0000000..1111111";
  }

  lemma NewFileBody(name: string, line: string)
    ensures PrintBody(NewFile(name, line).body) == ["@@ -0,0 +1 @@", "+" + line]
  {
    var body := NewFile(name, line).body;
    assert body[..1][..0] == [] && body[..1] == [Range("-0,0 +1 @@")];
    assert "@@ " + "-0,0 +1 @@" == "@@ -0,0 +1 @@";
    assert PrintBody(body[..1]) == ["@@ -0,0 +1 @@"];
    assert PrintBody(body) == PrintBody(body[..1]) + ["+" + line];
  }

  lemma TwoPrinted(x: string, one: string, y: string, two: string)
    ensures PrintFiles([NewFile(x, one), NewFile(y, two)])
            == ["diff --git a/" + x + " b/" + x, "new file mode 100644", "index 0000000..1111111",
                "--- /dev/null", "+++ b/" + x, "@@ -0,0 +1 @@", "+" + one,
                "diff --git a/" + y + " b/" + y, "new file mode 100644", "index 0000000..1111111",
                "--- /dev/null", "+++ b/" + y, "@@ -0,0 +1 @@", "+" + two]
  {
    var f, g := NewFile(x, one), NewFile(y, two);
    var files := [f, g];
    assert files[..1] == [f] && [f][..0] == [];
    NewFilePrinted(x, one);
    NewFilePrinted(y, two);
    assert PrintFiles([f]) == f.Preamble() + ([f.Header()] + PrintBody(f.body)) by {
      assert [] + f.Preamble() == f.Preamble();
    }
    assert PrintFiles(files) == PrintFiles([f]) + (g.Preamble() + ([g.Header()] + PrintBody(g.body)));
  }

  lemma TwoProposed(x: string, one: string, y: string, two: string)
    requires x != y
    ensures Proposed([NewFile(x, one), NewFile(y, two)]) == Dict([x, y], map[x := one, y := two])
  {
    var f, g := NewFile(x, one), NewFile(y, two);
    var files := [f, g];
    assert files[..1] == [f] && [f][..0] == [];
    NewFileAdds(x, one);
    NewFileAdds(y, two);
    assert Proposed([f]) == Dict([x], map[x := one]);
  }

  lemma NewFileAdds(name: string, line: string)
    ensures Adds(NewFile(name, line).body) == [line]
  {
    var body := NewFile(name, line).body;
    assert body[..0] == [] && body[..1] == [Range("-0,0 +1 @@")];
    assert Adds(body[..1]) == [];
  }
}
