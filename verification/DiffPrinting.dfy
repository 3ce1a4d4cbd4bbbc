/** Writing a diff down and reading it back: which bodies come back as they were meant, in
    every case, and that the names, the order and the added lines of the files do. */
module DiffPrinting {
  import opened Prelude
  import opened Text
  import opened Diff
  import opened DiffProperties

  // ----- bodies -----------------------------------------------------------

  /** One line of a file's part of a diff, whatever characters its text holds. */
  datatype BodyLine = Range(text: string) | Add(text: string) | Del(text: string) | Ctx(text: string) | NoNewline {
    function Marker(): string {
      match this
      case Range(_) => "@@ "
      case Add(_) => "+"
      case Del(_) => "-"
      case Ctx(_) => " "
      case NoNewline => "\\"
    }

    function Text(): string {
      if NoNewline? then " No newline at end of file" else text
    }

    function Print(): string {
      Marker() + Text()
    }
  }

  function PrintBody(lines: seq<BodyLine>): seq<string> {
    if lines == [] then [] else PrintBody(lines[..|lines| - 1]) + [lines[|lines| - 1].Print()]
  }

  function Adds(lines: seq<BodyLine>): seq<string> {
    if lines == [] then []
    else
      var last := lines[|lines| - 1];
      Adds(lines[..|lines| - 1]) + if last.Add? then [last.text] else []
  }

  // ----- what a printed line is read as -----------------------------------

  /** A line is read as its first piece, marker and all, and whatever a break in it leaves over. */
  function FirstPiece(line: BodyLine): string {
    MarkedPieces(line.Marker(), line.Text());
    Pieces(line.Text())[0]
  }

  function Leftovers(line: BodyLine): seq<string> {
    MarkedPieces(line.Marker(), line.Text());
    Pieces(line.Text())[1..]
  }

  /** A leftover that adds nothing: not marked as added, and not without any marker. */
  predicate Harmless(piece: string) {
    !IsAdded(piece) && !Bare(piece)
  }

  /** An added line is kept as it is when it is one line to the reader and does not open with
      `++`; any other line is left out when no leftover of it looks like a change. */
  predicate KeepsMeaning(line: BodyLine) {
    if line.Add? then OneLine(line.text) && !("++" <= line.text)
    else forall i | 0 <= i < |Leftovers(line)| :: Harmless(Leftovers(line)[i])
  }

  lemma MarkersAreLines(line: BodyLine)
    ensures line.Marker() != "" && OneLine(line.Marker())
    ensures line.Marker()[0] == match line
                                case Range(_) => '@'
                                case Add(_) => '+'
                                case Del(_) => '-'
                                case Ctx(_) => ' '
                                case NoNewline => '\\'
  {
  }

  lemma PrintedPieces(line: BodyLine)
    ensures Pieces(line.Print()) == [line.Marker() + FirstPiece(line)] + Leftovers(line)
  {
    MarkersAreLines(line);
    MarkedPieces(line.Marker(), line.Text());
  }

  lemma FirstPieceKind(line: BodyLine)
    ensures var p := line.Marker() + FirstPiece(line);
      && !Bare(p)
      && (IsAdded(p) <==> line.Add? && !("++" <= FirstPiece(line)))
      && (IsAdded(p) ==> p[1..] == FirstPiece(line))
      && (!line.Add? ==> !IsHeader(p))
  {
    var first := FirstPiece(line);
    var p := line.Marker() + first;
    MarkersAreLines(line);
    assert p[0] == line.Marker()[0];
    match line
    case Add(_) =>
      assert p[1..] == first;
      assert "+++" <= p <==> "++" <= first;
    case Del(_) =>
    case Range(_) =>
      assert p[1] == '@';
    case Ctx(_) =>
    case NoNewline =>
  }

  lemma AddOfOneLine(line: BodyLine)
    requires line.Add? && OneLine(line.text)
    ensures FirstPiece(line) == line.text && Leftovers(line) == []
  {
    PiecesOfOneLine(line.text);
  }

  // ----- what a printed body keeps ----------------------------------------

  function BodyPieces(lines: seq<BodyLine>): seq<string> {
    AllPieces(PrintBody(lines))
  }

  lemma BodyPiecesAppend(lines: seq<BodyLine>, line: BodyLine)
    ensures BodyPieces(lines + [line]) == BodyPieces(lines) + [line.Marker() + FirstPiece(line)] + Leftovers(line)
  {
    assert (lines + [line])[..|lines|] == lines;
    AllPiecesConcat(PrintBody(lines), [line.Print()]);
    OnePieces(line.Print());
    PrintedPieces(line);
  }

  ghost predicate SomeBare(raw: seq<string>) {
    exists i | 0 <= i < |raw| :: Bare(raw[i])
  }

  ghost predicate SomeAdded(raw: seq<string>) {
    exists i | 0 <= i < |raw| :: IsAdded(raw[i])
  }

  lemma SomeBareConcat(a: seq<string>, b: seq<string>)
    ensures SomeBare(a + b) <==> SomeBare(a) || SomeBare(b)
  {
    assert forall i | 0 <= i < |a| :: (a + b)[i] == a[i];
    assert forall i | 0 <= i < |b| :: (a + b)[|a| + i] == b[i];
    if SomeBare(a + b) {
      var i :| 0 <= i < |a + b| && Bare((a + b)[i]);
      if i >= |a| {
        assert Bare(b[i - |a|]);
      }
    }
  }

  lemma {:induction false} MarkedIffSomeAdded(raw: seq<string>)
    ensures MarkedOnly(raw) != [] <==> SomeAdded(raw)
  {
    if raw != [] {
      var before, last := raw[..|raw| - 1], raw[|raw| - 1];
      MarkedIffSomeAdded(before);
      if SomeAdded(before) {
        var i :| 0 <= i < |before| && IsAdded(before[i]);
        assert IsAdded(raw[i]);
      }
      if IsAdded(last) {
        assert IsAdded(raw[|raw| - 1]);
      }
    }
  }

  /** What one printed line adds to the marked lines, and whether it brings a bare one. */
  lemma MarkedOfLine(raw: seq<string>, line: BodyLine)
    ensures var more := raw + [line.Marker() + FirstPiece(line)] + Leftovers(line);
      && MarkedOnly(more) == MarkedOnly(raw)
                             + (if line.Add? && !("++" <= FirstPiece(line)) then [FirstPiece(line)] else [])
                             + MarkedOnly(Leftovers(line))
      && (SomeBare(more) <==> SomeBare(raw) || SomeBare(Leftovers(line)))
  {
    var p := line.Marker() + FirstPiece(line);
    FirstPieceKind(line);
    MarkedAppend(raw, p);
    MarkedConcat(raw + [p], Leftovers(line));
    SomeBareConcat(raw, [p]);
    SomeBareConcat(raw + [p], Leftovers(line));
  }

  ghost predicate AllKeepMeaning(lines: seq<BodyLine>) {
    forall i | 0 <= i < |lines| :: KeepsMeaning(lines[i])
  }

  lemma AllKeepAppend(lines: seq<BodyLine>, line: BodyLine)
    ensures AllKeepMeaning(lines + [line]) <==> AllKeepMeaning(lines) && KeepsMeaning(line)
  {
    var more := lines + [line];
    assert more[|lines|] == line;
    assert forall i | 0 <= i < |lines| :: more[i] == lines[i];
  }

  lemma HarmlessLeftovers(line: BodyLine)
    ensures KeepsMeaning(line) && !line.Add? <==>
              !line.Add? && MarkedOnly(Leftovers(line)) == [] && !SomeBare(Leftovers(line))
  {
    MarkedIffSomeAdded(Leftovers(line));
  }

  /** Only added lines are added lines: none of them differs from what the reader makes of it. */
  ghost predicate AddsKeepMeaning(lines: seq<BodyLine>) {
    forall i | 0 <= i < |lines| && lines[i].Add? :: KeepsMeaning(lines[i])
  }

  lemma AddsKeepAppend(lines: seq<BodyLine>, line: BodyLine)
    ensures AddsKeepMeaning(lines + [line]) <==> AddsKeepMeaning(lines) && (line.Add? ==> KeepsMeaning(line))
  {
    var more := lines + [line];
    assert more[|lines|] == line;
    assert forall i | 0 <= i < |lines| :: more[i] == lines[i];
  }

  lemma AddsAppend(lines: seq<BodyLine>, line: BodyLine)
    ensures Adds(lines + [line]) == Adds(lines) + if line.Add? then [line.text] else []
  {
    assert (lines + [line])[..|lines|] == lines;
  }

  /** With its added lines as they should be, a body has at least those marked, and has no other
      line marked or bare exactly when every line keeps its meaning. */
  lemma {:induction false} MarkedOfBody(lines: seq<BodyLine>)
    requires AddsKeepMeaning(lines)
    ensures var raw := BodyPieces(lines);
      && |MarkedOnly(raw)| >= |Adds(lines)|
      && (AllKeepMeaning(lines) ==> MarkedOnly(raw) == Adds(lines))
      && (AllKeepMeaning(lines) <==> |MarkedOnly(raw)| == |Adds(lines)| && !SomeBare(raw))
  {
    if lines != [] {
      var before, line := lines[..|lines| - 1], lines[|lines| - 1];
      assert lines == before + [line];
      AddsKeepAppend(before, line);
      MarkedOfBody(before);
      MarkedOfOneMore(before, line);
    }
  }

  lemma MarkedOfOneMore(before: seq<BodyLine>, line: BodyLine)
    requires line.Add? ==> KeepsMeaning(line)
    requires var raw := BodyPieces(before);
      && |MarkedOnly(raw)| >= |Adds(before)|
      && (AllKeepMeaning(before) ==> MarkedOnly(raw) == Adds(before))
      && (AllKeepMeaning(before) <==> |MarkedOnly(raw)| == |Adds(before)| && !SomeBare(raw))
    ensures var raw, lines := BodyPieces(before + [line]), before + [line];
      && |MarkedOnly(raw)| >= |Adds(lines)|
      && (AllKeepMeaning(lines) ==> MarkedOnly(raw) == Adds(lines))
      && (AllKeepMeaning(lines) <==> |MarkedOnly(raw)| == |Adds(lines)| && !SomeBare(raw))
  {
    BodyPiecesAppend(before, line);
    MarkedOfLine(BodyPieces(before), line);
    AllKeepAppend(before, line);
    AddsAppend(before, line);
    HarmlessLeftovers(line);
    if line.Add? {
      AddOfOneLine(line);
      assert MarkedOnly(Leftovers(line)) == [] && !SomeBare(Leftovers(line));
    }
  }

  lemma {:induction false} AddedIsAmongAdds(lines: seq<BodyLine>, i: nat)
    requires i < |lines| && lines[i].Add?
    ensures lines[i].text in Adds(lines)
  {
    if i < |lines| - 1 {
      AddedIsAmongAdds(lines[..|lines| - 1], i);
    }
  }

  /** Whatever reads back as the added lines has them one line each and none opening with `++`. */
  lemma ReadBackAddsKeepMeaning(lines: seq<BodyLine>)
    requires Kept(BodyPieces(lines)) == Adds(lines)
    ensures AddsKeepMeaning(lines)
  {
    AllPiecesAreLines(PrintBody(lines));
    KeptAreLines(BodyPieces(lines));
    forall i | 0 <= i < |lines| && lines[i].Add? ensures KeepsMeaning(lines[i]) {
      AddedIsAmongAdds(lines, i);
      var k :| 0 <= k < |Adds(lines)| && Adds(lines)[k] == lines[i].text;
      KeptNeverOpensWithPluses(BodyPieces(lines), k);
    }
  }

  /** For every body: the reader gives back its added lines, in order, exactly when every line
      keeps its meaning. */
  lemma KeptOfPrintedBody(lines: seq<BodyLine>)
    ensures Kept(SplitLines(Unlines(PrintBody(lines)))) == Adds(lines) <==> AllKeepMeaning(lines)
  {
    SplitPieces(PrintBody(lines));
    var raw := BodyPieces(lines);
    if Kept(raw) == Adds(lines) {
      ReadBackAddsKeepMeaning(lines);
    }
    if AddsKeepMeaning(lines) {
      MarkedOfBody(lines);
      MarkedNoLonger(raw);
      if !SomeBare(raw) {
        NoBareKeepsMarked(raw);
      }
    }
  }

  /** Bodies of whole lines lose only added lines that open with `++`. */
  lemma WholeLinesLosePluses(lines: seq<BodyLine>)
    requires forall i | 0 <= i < |lines| :: OneLine(lines[i].Text())
    ensures AllKeepMeaning(lines) <==> forall i | 0 <= i < |lines| && lines[i].Add? :: !("++" <= lines[i].text)
  {
    forall i | 0 <= i < |lines| ensures Leftovers(lines[i]) == [] {
      PiecesOfOneLine(lines[i].Text());
    }
  }

  /** An added line that opens with `++`: nothing of it is in the change. */
  lemma PlusesAreLost()
    ensures Kept(SplitLines(Unlines(PrintBody([Add("++x")])))) == []
  {
    var line := Add("++x");
    SplitPieces(PrintBody([line]));
    BodyPiecesAppend([], line);
    assert [] + [line] == [line] && BodyPieces([]) == [];
    assert OneLine("++x");
    PiecesOfOneLine("++x");
    MarkedOfLine([], line);
    NoBareKeepsMarked(BodyPieces([line]));
  }

  /** One added line with a line separator in it, say `x`, U+2028, `-KEY`: what follows the
      separator is not part of the change to the reader. */
  lemma SeparatorLosesTheRest(before: string, rest: string)
    requires OneLine(before) && OneLine(rest) && !("++" <= before) && Harmless(rest)
    ensures Kept(SplitLines(Unlines(PrintBody([Add(before + ['\U{2028}'] + rest)])))) == [before]
  {
    var line := Add(before + ['\U{2028}'] + rest);
    SplitPieces(PrintBody([line]));
    BodyPiecesAppend([], line);
    assert [] + [line] == [line] && BodyPieces([]) == [];
    PiecesAtBreak(before, '\U{2028}', rest);
    PiecesOfOneLine(rest);
    MarkedOfLine([], line);
    MarkedIffSomeAdded([rest]);
    NoBareKeepsMarked(BodyPieces([line]));
  }

  lemma KeyAfterSeparator()
    ensures Kept(SplitLines(Unlines(PrintBody([Add("x" + ['\U{2028}'] + "-KEY")])))) == ["x"]
  {
    assert "-KEY"[0] == '-';
    SeparatorLosesTheRest("x", "-KEY");
  }
}
