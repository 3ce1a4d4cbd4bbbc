/** Whole diffs, printed and read back: exactly when the reader proposes what was written. */
module DiffRoundTrip {
  import opened Prelude
  import opened Text
  import opened Diff
  import opened DiffProperties
  import opened DiffPrinting

  // ----- files ------------------------------------------------------------

  /** A header line of git's own, above the names of a file. */
  datatype GitLine =
    | DiffLine(rest: string) | IndexLine(rest: string)
    | NewFileMode(rest: string) | DeletedFileMode(rest: string) | OldMode(rest: string) | NewMode(rest: string)
    | Similarity(rest: string) | Dissimilarity(rest: string)
    | RenameFrom(rest: string) | RenameTo(rest: string) | CopyFrom(rest: string) | CopyTo(rest: string)
    | BinaryFiles(rest: string)
  {
    function Words(): string {
      match this
      case DiffLine(_) => "diff "
      case IndexLine(_) => "index "
      case NewFileMode(_) => "new file mode"
      case DeletedFileMode(_) => "deleted file mode"
      case OldMode(_) => "old mode"
      case NewMode(_) => "new mode"
      case Similarity(_) => "similarity index"
      case Dissimilarity(_) => "dissimilarity index"
      case RenameFrom(_) => "rename from"
      case RenameTo(_) => "rename to"
      case CopyFrom(_) => "copy from"
      case CopyTo(_) => "copy to"
      case BinaryFiles(_) => "Binary files"
    }

    function Print(): string {
      Words() + rest
    }
  }

  function PrintGit(lines: seq<GitLine>): seq<string> {
    seq(|lines|, i requires 0 <= i < |lines| => lines[i].Print())
  }

  /** Whatever follows them, the reader takes none of these lines for part of a change. */
  lemma GitLineIsMeta(line: GitLine)
    ensures IsMeta(line.Print())
  {
    var printed := line.Print();
    assert line.Words() <= printed;
    match line
    case DiffLine(_) => assert "diff " <= printed;
    case IndexLine(_) => assert "index " <= printed;
    case NewFileMode(_) => assert "new file mode" <= printed;
    case DeletedFileMode(_) => assert "deleted file mode" <= printed;
    case OldMode(_) => assert "old mode" <= printed;
    case NewMode(_) => assert "new mode" <= printed;
    case Similarity(_) => assert "similarity index" <= printed;
    case Dissimilarity(_) => assert "dissimilarity index" <= printed;
    case RenameFrom(_) => assert "rename from" <= printed;
    case RenameTo(_) => assert "rename to" <= printed;
    case CopyFrom(_) => assert "copy from" <= printed;
    case CopyTo(_) => assert "copy to" <= printed;
    case BinaryFiles(_) => assert "Binary files" <= printed;
  }

  lemma GitLineIsOneLine(line: GitLine)
    requires OneLine(line.rest)
    ensures OneLine(line.Print())
  {
    GitWordsAreWordy(line);
    WordyIsOneLine(line.Words());
    OneLineConcat(line.Words(), line.rest);
  }

  predicate Wordy(s: string) {
    forall i | 0 <= i < |s| :: s[i] == ' ' || 'A' <= s[i] <= 'z'
  }

  lemma WordyIsOneLine(s: string)
    requires Wordy(s)
    ensures OneLine(s)
  {
    forall i | 0 <= i < |s| ensures !IsLineBreak(s[i]) {
      assert s[i] == ' ' || 'A' <= s[i] <= 'z';
    }
  }

  lemma GitWordsAreWordy(line: GitLine)
    ensures Wordy(line.Words())
  {
  }

  /** One file's part of a unified diff. `extended` holds git's own header lines, `prefix`
      the `a`/`b` of the new name if there is one, `stamp` what may follow it after a tab. */
  datatype FileDiff = FileDiff(extended: seq<GitLine>, oldName: string, prefix: Option<string>, path: string,
                               stamp: string, body: seq<BodyLine>)
  {
    function NewName(): string {
      if prefix.Some? then prefix.value + "/" + path else path
    }

    function Header(): string {
      "+++ " + NewName() + stamp
    }

    function Preamble(): seq<string> {
      PrintGit(extended) + ["--- " + oldName]
    }

    /** What the lines above the body need: they hold no line break, as git quotes such names,
        and the new name is one a header can carry. The body is free. */
    ghost predicate WellNamed() {
      && (forall i | 0 <= i < |extended| :: OneLine(extended[i].rest))
      && OneLine(oldName) && OneLine(path) && OneLine(stamp)
      && path != "" && !IsSpace(path[|path| - 1]) && '\t' !in path
      && (stamp == "" || stamp[0] == '\t')
      && (match prefix
          case Some(p) => p in PATH_PREFIXES
          case None => !IsSpace(path[0]) && !Quoted(path) && path != ABSENT && DropPrefix(path) == path)
    }
  }

  ghost predicate AllNamed(files: seq<FileDiff>) {
    forall i | 0 <= i < |files| :: files[i].WellNamed()
  }

  function PrintFiles(files: seq<FileDiff>): seq<string> {
    if files == [] then []
    else
      var last := files[|files| - 1];
      (PrintFiles(files[..|files| - 1]) + last.Preamble()) + ([last.Header()] + PrintBody(last.body))
  }

  // ----- names ------------------------------------------------------------

  /** Letters and digits, the only characters git's prefixes are made of. */
  predicate Plain(c: char) {
    'a' <= c <= 'z' || '1' <= c <= '3'
  }

  lemma PrefixesArePlain(prefix: string)
    requires prefix in PATH_PREFIXES
    ensures prefix != "" && forall i | 0 <= i < |prefix| :: Plain(prefix[i])
  {
  }

  lemma PlainIsOrdinary(s: string)
    requires forall i | 0 <= i < |s| :: Plain(s[i])
    ensures '/' !in s && '\t' !in s && OneLine(s) && (forall i | 0 <= i < |s| :: !IsSpace(s[i]))
    ensures s != "" ==> s[0] != '"'
  {
    forall i | 0 <= i < |s| ensures !IsSpace(s[i]) && s[i] != '/' && s[i] != '\t' && s[i] != '"' {
      assert Plain(s[i]);
    }
  }

  lemma PrefixIsDropped(prefix: string, path: string)
    requires prefix in PATH_PREFIXES && path != ""
    ensures DropPrefix(prefix + "/" + path) == path
  {
    var name := prefix + "/" + path;
    PrefixesArePlain(prefix);
    PlainIsOrdinary(prefix);
    IndexOfAfter(prefix, '/', "/" + path);
    assert name == prefix + ("/" + path);
    assert name[..|prefix|] == prefix && name[|prefix| + 1..] == path;
  }

  lemma StripOfTight(s: string)
    requires s != "" && !IsSpace(s[0]) && !IsSpace(s[|s| - 1])
    ensures Strip(s) == s
  {
  }

  /** What the reader needs to know of the name it reads. */
  lemma NewNameShape(f: FileDiff)
    requires f.WellNamed()
    ensures var name := f.NewName();
      && name != "" && !IsSpace(name[0]) && !IsSpace(name[|name| - 1]) && '\t' !in name
      && OneLine(name) && !Quoted(name) && name != ABSENT && DropPrefix(name) == f.path
  {
    if f.prefix.Some? {
      var p, name := f.prefix.value, f.NewName();
      PrefixesArePlain(p);
      PlainIsOrdinary(p);
      PrefixIsDropped(p, f.path);
      assert name[0] == p[0] && name[|name| - 1] == f.path[|f.path| - 1];
      assert Plain(p[0]);
      assert ABSENT[0] == '/';
      assert OneLine("/");
    }
  }

  /** A tight name is what a header line targets, whatever follows it after a tab. */
  lemma TargetIsTheName(name: string, stamp: string)
    requires name != "" && !IsSpace(name[0]) && !IsSpace(name[|name| - 1]) && '\t' !in name
    requires stamp == "" || stamp[0] == '\t'
    ensures Target("+++ " + name + stamp) == name
  {
    var line := "+++ " + name + stamp;
    var rest := line[4..];
    assert rest == name + stamp;
    IndexOfAfter(name, '\t', stamp);
    assert rest[..|name|] == name;
    StripOfTight(name);
  }

  /** The name of a well-formed file is what its header names. */
  lemma HeaderNamesThePath(f: FileDiff)
    requires f.WellNamed()
    ensures IsHeader(f.Header()) && HeaderPath(f.Header()) == Some(f.path)
  {
    NewNameShape(f);
    TargetIsTheName(f.NewName(), f.stamp);
  }

  lemma PreambleIsInert(f: FileDiff)
    requires f.WellNamed()
    ensures forall i | 0 <= i < |f.Preamble()| :: Inert(f.Preamble()[i])
    ensures AllOneLine(f.Preamble())
  {
    var oldLine := "--- " + f.oldName;
    assert oldLine[..4] == "--- ";
    MetaIsInert(oldLine);
    assert OneLine(oldLine) by {
      assert forall i | 4 <= i < |oldLine| :: oldLine[i] == f.oldName[i - 4];
    }
    forall i | 0 <= i < |f.extended|
      ensures Inert(PrintGit(f.extended)[i]) && OneLine(PrintGit(f.extended)[i])
    {
      GitLineIsMeta(f.extended[i]);
      MetaIsInert(f.extended[i].Print());
      GitLineIsOneLine(f.extended[i]);
    }
  }

  lemma OneLineConcat(a: string, b: string)
    ensures OneLine(a + b) <==> OneLine(a) && OneLine(b)
  {
    assert forall i | 0 <= i < |a| :: (a + b)[i] == a[i];
    assert forall i | 0 <= i < |b| :: (a + b)[|a| + i] == b[i];
  }

  lemma HeaderIsOneLine(f: FileDiff)
    requires f.WellNamed()
    ensures OneLine(f.Header())
  {
    NewNameShape(f);
    OneLineConcat("+++ ", f.NewName());
    OneLineConcat("+++ " + f.NewName(), f.stamp);
  }

  // ----- sections as proposals --------------------------------------------

  /** What one section proposes: the path its header names, and the lines it adds. */
  datatype Proposal = Proposal(path: Option<string>, lines: seq<string>)

  ghost function Readout(s: seq<Section>): seq<Proposal> {
    seq(|s|, i requires 0 <= i < |s| => Proposal(s[i].path, Kept(s[i].raw)))
  }

  lemma ReadoutConcat(a: seq<Section>, b: seq<Section>)
    ensures Readout(a + b) == Readout(a) + Readout(b)
  {
  }

  lemma InertReadout(s: seq<Section>, line: string)
    requires Inert(line)
    ensures Readout(Grown(s, line)) == Readout(s)
  {
    if s != [] {
      var raw := s[|s| - 1].raw;
      KeptStep(raw, line);
      assert !Unmarked(line, AfterBare(raw, |raw|));
      assert Kept(raw + [line]) == Kept(raw);
    }
  }

  lemma {:induction false} InertTailReadout(lines: seq<string>, tail: seq<string>)
    requires forall i | 0 <= i < |tail| :: Inert(tail[i])
    ensures Readout(Sections(lines + tail)) == Readout(Sections(lines))
  {
    if tail == [] {
      assert lines + tail == lines;
    } else {
      var n := |tail| - 1;
      InertTailReadout(lines, tail[..n]);
      assert (lines + tail[..n]) + [tail[n]] == lines + tail;
      SectionsOfAppended(lines + tail[..n], tail[n]);
      InertReadout(Sections(lines + tail[..n]), tail[n]);
    }
  }

  ghost predicate HoldsHeader(lines: seq<string>) {
    exists i | 0 <= i < |lines| :: IsHeader(lines[i])
  }

  lemma HoldsHeaderConcat(a: seq<string>, b: seq<string>)
    ensures HoldsHeader(a + b) <==> HoldsHeader(a) || HoldsHeader(b)
  {
    assert forall i | 0 <= i < |a| :: (a + b)[i] == a[i];
    assert forall i | 0 <= i < |b| :: (a + b)[|a| + i] == b[i];
    if HoldsHeader(a + b) {
      var i :| 0 <= i < |a + b| && IsHeader((a + b)[i]);
      if i >= |a| {
        assert IsHeader(b[i - |a|]);
      }
    }
  }

  lemma {:induction false} OneSection(header: string, body: seq<string>)
    requires IsHeader(header) && !HoldsHeader(body)
    ensures Sections([header] + body) == [Opened(header).(raw := body)]
  {
    if body == [] {
      assert [header] + body == [] + [header];
      SectionsOfAppended([], header);
    } else {
      var n := |body| - 1;
      assert !HoldsHeader(body[..n]) by {
        assert forall i | 0 <= i < n :: body[..n][i] == body[i];
      }
      OneSection(header, body[..n]);
      assert ([header] + body[..n]) + [body[n]] == [header] + body && body[..n] + [body[n]] == body;
      SectionsOfAppended([header] + body[..n], body[n]);
    }
  }

  lemma SectionsGrow(lines: seq<string>, line: string)
    ensures |Sections(lines + [line])| == |Sections(lines)| + if IsHeader(line) then 1 else 0
  {
    SectionsOfAppended(lines, line);
  }

  lemma HeaderAtEnd(body: seq<string>)
    requires body != []
    ensures HoldsHeader(body) <==> HoldsHeader(body[..|body| - 1]) || IsHeader(body[|body| - 1])
  {
    HoldsHeaderConcat(body[..|body| - 1], [body[|body| - 1]]);
    assert body[..|body| - 1] + [body[|body| - 1]] == body;
    assert HoldsHeader([body[|body| - 1]]) <==> IsHeader([body[|body| - 1]][0]);
  }

  lemma {:induction false} HeadersOpenSections(header: string, body: seq<string>)
    requires IsHeader(header)
    ensures |Sections([header] + body)| >= if HoldsHeader(body) then 2 else 1
  {
    if body == [] {
      SectionsGrow([], header);
      assert [header] + body == [] + [header];
    } else {
      HeadersOpenSections(header, body[..|body| - 1]);
      HeaderAtEnd(body);
      SectionsGrow([header] + body[..|body| - 1], body[|body| - 1]);
      LastApart([header], body);
    }
  }

  // ----- one file ---------------------------------------------------------

  function Intended(f: FileDiff): Proposal {
    Proposal(Some(f.path), Adds(f.body))
  }

  predicate LeavesNoHeader(line: BodyLine) {
    forall i | 0 <= i < |Leftovers(line)| :: !IsHeader(Leftovers(line)[i])
  }

  /** The line comes back as it was meant, and starts no file of its own. */
  predicate ReadsTrue(line: BodyLine) {
    KeepsMeaning(line) && LeavesNoHeader(line)
  }

  ghost predicate AllReadTrue(lines: seq<BodyLine>) {
    forall i | 0 <= i < |lines| :: ReadsTrue(lines[i])
  }

  ghost predicate NoHeadersLeft(lines: seq<BodyLine>) {
    forall i | 0 <= i < |lines| :: LeavesNoHeader(lines[i])
  }

  lemma NoHeadersAppend(lines: seq<BodyLine>, line: BodyLine)
    ensures NoHeadersLeft(lines + [line]) <==> NoHeadersLeft(lines) && LeavesNoHeader(line)
  {
    var more := lines + [line];
    assert more[|lines|] == line;
    assert forall i | 0 <= i < |lines| :: more[i] == lines[i];
  }

  lemma HeaderOfLine(line: BodyLine)
    requires KeepsMeaning(line)
    ensures HoldsHeader([line.Marker() + FirstPiece(line)] + Leftovers(line)) <==> !LeavesNoHeader(line)
  {
    FirstPieceKind(line);
    var p := line.Marker() + FirstPiece(line);
    if line.Add? {
      AddOfOneLine(line);
      assert IsAdded(p);
      assert "+++ " <= p ==> "+++" <= p;
    }
    HoldsHeaderConcat([p], Leftovers(line));
    assert !IsHeader([p][0]);
  }

  lemma {:induction false} HeadersOfBody(lines: seq<BodyLine>)
    requires AllKeepMeaning(lines)
    ensures HoldsHeader(BodyPieces(lines)) <==> !NoHeadersLeft(lines)
  {
    if lines != [] {
      var before, line := lines[..|lines| - 1], lines[|lines| - 1];
      assert lines == before + [line];
      AllKeepAppend(before, line);
      HeadersOfBody(before);
      NoHeadersAppend(before, line);
      BodyPiecesAppend(before, line);
      HeaderOfLine(line);
      var p := line.Marker() + FirstPiece(line);
      assert BodyPieces(lines) == BodyPieces(before) + ([p] + Leftovers(line));
      HoldsHeaderConcat(BodyPieces(before), [p] + Leftovers(line));
    }
  }

  lemma ReadTrueIsBoth(lines: seq<BodyLine>)
    ensures AllReadTrue(lines) <==> AllKeepMeaning(lines) && NoHeadersLeft(lines)
  {
  }

  function OwnLines(f: FileDiff): seq<string> {
    [f.Header()] + BodyPieces(f.body)
  }

  lemma OneSectionReadout(f: FileDiff)
    requires f.WellNamed() && !HoldsHeader(BodyPieces(f.body))
    ensures Readout(Sections(OwnLines(f))) == [Proposal(Some(f.path), Kept(BodyPieces(f.body)))]
  {
    HeaderNamesThePath(f);
    OneSection(f.Header(), BodyPieces(f.body));
  }

  /** A file is read as one section with its path and its added lines exactly when every line of
      its body reads true. */
  lemma FileReadsBack(f: FileDiff)
    requires f.WellNamed()
    ensures Readout(Sections(OwnLines(f))) == [Intended(f)] <==> AllReadTrue(f.body)
    ensures |Sections(OwnLines(f))| >= 1
  {
    var raw := BodyPieces(f.body);
    HeaderNamesThePath(f);
    HeadersOpenSections(f.Header(), raw);
    ReadTrueIsBoth(f.body);
    SplitPieces(PrintBody(f.body));
    KeptOfPrintedBody(f.body);
    if AllKeepMeaning(f.body) {
      HeadersOfBody(f.body);
    }
    if !HoldsHeader(raw) {
      OneSectionReadout(f);
    }
  }

  // ----- the whole diff ---------------------------------------------------

  ghost function AllIntended(files: seq<FileDiff>): seq<Proposal> {
    seq(|files|, i requires 0 <= i < |files| => Intended(files[i]))
  }

  function DiffPieces(files: seq<FileDiff>): seq<string> {
    AllPieces(PrintFiles(files))
  }

  lemma DiffPiecesAppend(files: seq<FileDiff>, f: FileDiff)
    requires f.WellNamed()
    ensures DiffPieces(files + [f]) == (DiffPieces(files) + f.Preamble()) + OwnLines(f)
  {
    assert (files + [f])[..|files|] == files;
    PreambleIsInert(f);
    HeaderIsOneLine(f);
    AllPiecesConcat(PrintFiles(files) + f.Preamble(), [f.Header()] + PrintBody(f.body));
    AllPiecesConcat(PrintFiles(files), f.Preamble());
    AllPiecesConcat([f.Header()], PrintBody(f.body));
    AllPiecesOfLines(f.Preamble());
    OnePieces(f.Header());
    PiecesOfOneLine(f.Header());
  }

  /** Each file is read by itself. */
  lemma ReadoutOfMore(files: seq<FileDiff>, f: FileDiff)
    requires f.WellNamed()
    ensures Readout(Sections(DiffPieces(files + [f])))
            == Readout(Sections(DiffPieces(files))) + Readout(Sections(OwnLines(f)))
  {
    var before := DiffPieces(files);
    DiffPiecesAppend(files, f);
    PreambleIsInert(f);
    HeaderNamesThePath(f);
    InertTailReadout(before, f.Preamble());
    SectionsConcat(before + f.Preamble(), OwnLines(f));
    ReadoutConcat(Sections(before + f.Preamble()), Sections(OwnLines(f)));
  }

  ghost predicate FilesReadTrue(files: seq<FileDiff>) {
    forall i | 0 <= i < |files| :: AllReadTrue(files[i].body)
  }

  lemma ReadTrueAppend(files: seq<FileDiff>, f: FileDiff)
    ensures FilesReadTrue(files + [f]) <==> FilesReadTrue(files) && AllReadTrue(f.body)
  {
    var more := files + [f];
    assert more[|files|] == f;
    assert forall i | 0 <= i < |files| :: more[i] == files[i];
  }

  lemma IntendedAppend(files: seq<FileDiff>, f: FileDiff)
    ensures AllIntended(files + [f]) == AllIntended(files) + [Intended(f)]
  {
  }

  /** Two readings one after the other are two intentions one after the other only part by
      part, as neither part is too short. */
  lemma PartByPart(x: seq<Proposal>, y: seq<Proposal>, a: seq<Proposal>, b: Proposal)
    requires |x| >= |a| && |y| >= 1
    ensures x + y == a + [b] <==> x == a && y == [b]
  {
    if x + y == a + [b] {
      assert |x| == |a| && |y| == 1;
      assert x == (x + y)[..|x|] && a == (a + [b])[..|a|];
      assert y[0] == (x + y)[|x|] && b == (a + [b])[|a|];
    }
  }

  lemma {:induction false} ReadsBackExactly(files: seq<FileDiff>)
    requires AllNamed(files)
    ensures |Readout(Sections(DiffPieces(files)))| >= |files|
    ensures Readout(Sections(DiffPieces(files))) == AllIntended(files) <==> FilesReadTrue(files)
  {
    if files != [] {
      var before, f := files[..|files| - 1], files[|files| - 1];
      assert files == before + [f];
      ReadsBackExactly(before);
      ReadoutOfMore(before, f);
      FileReadsBack(f);
      ReadTrueAppend(before, f);
      IntendedAppend(before, f);
      PartByPart(Readout(Sections(DiffPieces(before))), Readout(Sections(OwnLines(f))), AllIntended(before),
                 Intended(f));
    }
  }

  /** For every diff with well-formed names, whatever its bodies hold: it is read as its files,
      each with its path and exactly its added lines in order, exactly when every body line
      reads true. */
  lemma {:induction false} RoundTrip(files: seq<FileDiff>)
    requires AllNamed(files)
    ensures Readout(Sections(SplitLines(Unlines(PrintFiles(files))))) == AllIntended(files) <==> FilesReadTrue(files)
  {
    SplitPieces(PrintFiles(files));
    ReadsBackExactly(files);
  }

  // ----- the dictionary ---------------------------------------------------

  /** The dictionary a diff proposes: each path with its added lines. */
  function Proposed(files: seq<FileDiff>): Dict<string, string> {
    if files == [] then EmptyDict()
    else
      var last := files[|files| - 1];
      Proposed(files[..|files| - 1]).Put(last.path, Join(Adds(last.body)))
  }

  lemma {:induction false} FilesFromReadout(s: seq<Section>, files: seq<FileDiff>)
    requires Readout(s) == AllIntended(files)
    ensures FilesOf(s) == Proposed(files)
  {
    assert |Readout(s)| == |AllIntended(files)|;
    if s != [] {
      var n := |s| - 1;
      assert Readout(s)[n] == AllIntended(files)[n];
      assert Readout(s[..n]) == Readout(s)[..n] == AllIntended(files)[..n] == AllIntended(files[..n]);
      FilesFromReadout(s[..n], files[..n]);
    }
  }

  lemma PrintedIsUnderstood(files: seq<FileDiff>)
    requires AllNamed(files) && files != []
    ensures Understood(Sections(DiffPieces(files)))
  {
    var before, f := files[..|files| - 1], files[|files| - 1];
    assert files == before + [f];
    DiffPiecesAppend(before, f);
    HeaderNamesThePath(f);
    var lines := DiffPieces(files);
    assert lines[|DiffPieces(before) + f.Preamble()|] == f.Header();
    assert ReadableHeader(f.Header());
    UnderstoodIffHeader(lines);
  }

  /** So `added_files` answers each path with its added lines, a repeated path keeping the
      last. */
  lemma {:induction false} PrintedFiles(files: seq<FileDiff>)
    requires AllNamed(files) && FilesReadTrue(files)
    ensures Parsed(Unlines(PrintFiles(files))) == Ok(Proposed(files))
  {
    SplitPieces(PrintFiles(files));
    ReadsBackExactly(files);
    FilesFromReadout(Sections(DiffPieces(files)), files);
    if files != [] {
      PrintedIsUnderstood(files);
    }
  }

  /** A dictionary of exactly these files, in order, each with its added lines. */
  ghost predicate HoldsAdds(d: Dict<string, string>, files: seq<FileDiff>) {
    && |d.keys| == |files|
    && (forall i | 0 <= i < |files| ::
          d.keys[i] == files[i].path && d.keys[i] in d.at && d.at[d.keys[i]] == Join(Adds(files[i].body)))
    && forall path | path in d.at :: path in d.keys
  }

  lemma HoldsOneMore(d: Dict<string, string>, files: seq<FileDiff>, f: FileDiff)
    requires HoldsAdds(d, files)
    requires forall i | 0 <= i < |files| :: files[i].path != f.path
    ensures HoldsAdds(d.Put(f.path, Join(Adds(f.body))), files + [f])
  {
    assert f.path !in d.keys;
    assert f.path !in d.at;
    var more := d.Put(f.path, Join(Adds(f.body)));
    assert more.keys == d.keys + [f.path];
    forall path | path in more.at ensures path in more.keys {
      if path == f.path {
        assert more.keys[|d.keys|] == path;
      } else {
        assert path in d.keys;
      }
    }
  }

  lemma {:induction false} ProposedOfDistinct(files: seq<FileDiff>)
    requires forall i, j | 0 <= i < j < |files| :: files[i].path != files[j].path
    ensures HoldsAdds(Proposed(files), files)
  {
    if files != [] {
      var n := |files| - 1;
      ProposedOfDistinct(files[..n]);
      HoldsOneMore(Proposed(files[..n]), files[..n], files[n]);
      assert files[..n] + [files[n]] == files;
    }
  }

  /** Over distinct paths: every path, in order, with exactly its added lines. */
  lemma {:induction false} PrintedDistinct(files: seq<FileDiff>)
    requires AllNamed(files) && FilesReadTrue(files)
    requires forall i, j | 0 <= i < j < |files| :: files[i].path != files[j].path
    ensures var r := Parsed(Unlines(PrintFiles(files)));
      r.Ok? && HoldsAdds(r.value, files)
  {
    PrintedFiles(files);
    ProposedOfDistinct(files);
  }
}
