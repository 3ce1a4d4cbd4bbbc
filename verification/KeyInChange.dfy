/** When a diff proposes a key: for every diff, and for one somebody wrote down. */
module KeyInChange {
  import opened Prelude
  import opened Text
  import opened Diff
  import opened DiffPrinting
  import opened DiffProperties
  import opened DiffRoundTrip
  import Developer
  import DiffWrite

  // ----- when a key is proposed -------------------------------------------

  ghost predicate SomeKey(lines: seq<string>) {
    exists k | 0 <= k < |lines| :: Developer.HasKey(lines[k])
  }

  lemma SomeKeyCons(first: string, rest: seq<string>)
    ensures SomeKey([first] + rest) <==> Developer.HasKey(first) || SomeKey(rest)
  {
    var lines := [first] + rest;
    assert lines[0] == first;
    assert forall k | 0 <= k < |rest| :: lines[k + 1] == rest[k];
    if SomeKey(lines) {
      var k :| 0 <= k < |lines| && Developer.HasKey(lines[k]);
      if k > 0 {
        assert Developer.HasKey(rest[k - 1]);
      }
    }
  }

  /** No key reaches across a newline. */
  lemma KeyOnOneSide(a: string, b: string)
    requires Developer.HasKey(a + "\n" + b)
    ensures Developer.HasKey(a) || Developer.HasKey(b)
  {
    var s := a + "\n" + b;
    var i: nat :| i < |s| && Developer.KeyAt(s, i);
    assert s[|a|] == '\n';
    if i + 20 <= |a| {
      assert forall j | 0 <= j < |a| :: s[j] == a[j];
      assert Developer.KeyAt(a, i);
    } else {
      assert i <= |a| ==> !Developer.IsKeyChar(s[|a|]);
      var shift := |a| + 1;
      assert forall j | 0 <= j < |b| :: s[shift + j] == b[j];
      assert Developer.KeyAt(b, i - shift) by {
        forall j | i - shift + 4 <= j < i - shift + 20 ensures Developer.IsKeyChar(b[j]) {
          assert b[j] == s[shift + j];
        }
      }
    }
  }

  /** A joined text holds a key exactly when one of its lines does. */
  lemma {:induction false} JoinHasKey(lines: seq<string>)
    ensures Developer.HasKey(Join(lines)) <==> SomeKey(lines)
  {
    if lines == [] {
    } else {
      assert lines == [lines[0]] + lines[1..];
      SomeKeyCons(lines[0], lines[1..]);
      if |lines| > 1 {
        var rest := Join(lines[1..]);
        JoinHasKey(lines[1..]);
        assert Join(lines) == lines[0] + "\n" + rest;
        if Developer.HasKey(Join(lines)) {
          KeyOnOneSide(lines[0], rest);
        }
        if Developer.HasKey(lines[0]) {
          Developer.KeyWithin("", lines[0], "\n" + rest);
          assert Join(lines) == "" + lines[0] + ("\n" + rest);
        }
        if Developer.HasKey(rest) {
          Developer.KeyWithin(lines[0] + "\n", rest, "");
          assert Join(lines) == lines[0] + "\n" + rest + "";
        }
      }
    }
  }

  /** Some section, the last to name its path, keeps a line with a key in it. */
  ghost predicate KeyIsKept(s: seq<Section>) {
    exists i, path :: DiffWrite.NamesLast(s, i, path) && SomeKey(Kept(s[i].raw))
  }

  lemma KeyInFiles(s: seq<Section>)
    ensures Developer.AnyKey(FilesOf(s)) <==> KeyIsKept(s)
  {
    if Developer.AnyKey(FilesOf(s)) {
      var path :| path in FilesOf(s).at && Developer.HasKey(FilesOf(s).at[path]);
      DiffWrite.TextOfLastSection(s, path);
      var i :| DiffWrite.NamesLast(s, i, path) && FilesOf(s).at[path] == Join(Kept(s[i].raw));
      JoinHasKey(Kept(s[i].raw));
    }
    if KeyIsKept(s) {
      var i, path :| DiffWrite.NamesLast(s, i, path) && SomeKey(Kept(s[i].raw));
      DiffWrite.LastSectionGivesText(s, i, path);
      JoinHasKey(Kept(s[i].raw));
    }
  }

  /** For every diff: the question the net and the fallback ask is answered yes exactly when a
      line that is in the change, of the last section to name its file, carries a key. */
  lemma KeyProposedExactly(diff: string)
    ensures Developer.KeyProposed(diff) == Ok(true)
            <==> Parsed(diff).Ok? && KeyIsKept(Sections(SplitLines(diff)))
  {
    KeyInFiles(Sections(SplitLines(diff)));
  }

  // ----- a key in a printed diff ------------------------------------------

  /** No line of any body, nor what a break leaves over of it, reads as a header. */
  ghost predicate NoStrayHeaders(files: seq<FileDiff>) {
    forall i | 0 <= i < |files| :: !HoldsHeader(BodyPieces(files[i].body))
  }

  ghost function KeptOf(files: seq<FileDiff>): seq<Proposal> {
    seq(|files|, i requires 0 <= i < |files| => Proposal(Some(files[i].path), Kept(BodyPieces(files[i].body))))
  }

  /** Then every file is read as one section of its own, whatever else its body holds. */
  lemma {:induction false} ReadFileByFile(files: seq<FileDiff>)
    requires AllNamed(files) && NoStrayHeaders(files)
    ensures Readout(Sections(DiffPieces(files))) == KeptOf(files)
  {
    if files != [] {
      var before, f := files[..|files| - 1], files[|files| - 1];
      assert files == before + [f];
      ReadFileByFile(before);
      ReadoutOfMore(before, f);
      OneSectionReadout(f);
      assert KeptOf(files) == KeptOf(before) + [Proposal(Some(f.path), Kept(BodyPieces(f.body)))];
    }
  }

  lemma {:induction false} FirstPieceIsKept(lines: seq<BodyLine>, j: nat)
    requires j < |lines| && lines[j].Add? && !("++" <= FirstPiece(lines[j]))
    ensures lines[j].Marker() + FirstPiece(lines[j]) in BodyPieces(lines)
  {
    var before, line := lines[..|lines| - 1], lines[|lines| - 1];
    assert lines == before + [line];
    BodyPiecesAppend(before, line);
    if j < |before| {
      FirstPieceIsKept(before, j);
    }
  }

  lemma AddedPieceIsKept(raw: seq<string>, piece: string)
    requires piece in raw && IsAdded(piece)
    ensures piece[1..] in Kept(raw)
  {
    var k :| 0 <= k < |raw| && raw[k] == piece;
    assert Carries(raw, k, piece[1..]);
    KeptIffInChange(raw, piece[1..]);
  }

  /** The added line `j` of a body carries a key before any break in it, and is read as added. */
  predicate AddsKeyAt(lines: seq<BodyLine>, j: nat) {
    j < |lines| && lines[j].Add? && !("++" <= FirstPiece(lines[j])) && Developer.HasKey(FirstPiece(lines[j]))
  }

  lemma BodyKeepsKey(lines: seq<BodyLine>, j: nat)
    requires AddsKeyAt(lines, j)
    ensures SomeKey(Kept(BodyPieces(lines)))
  {
    var piece := lines[j].Marker() + FirstPiece(lines[j]);
    FirstPieceKind(lines[j]);
    FirstPieceIsKept(lines, j);
    AddedPieceIsKept(BodyPieces(lines), piece);
    var k :| 0 <= k < |Kept(BodyPieces(lines))| && Kept(BodyPieces(lines))[k] == FirstPiece(lines[j]);
  }

  /** Printed, a change over distinct files that adds a key answers yes, whatever else its lines
      hold, so long as nothing in them starts a file of its own. */
  lemma {:induction false} PrintedKeyIsProposed(files: seq<FileDiff>, i: nat, j: nat)
    requires AllNamed(files) && NoStrayHeaders(files)
    requires forall x, y | 0 <= x < y < |files| :: files[x].path != files[y].path
    requires i < |files| && AddsKeyAt(files[i].body, j)
    ensures Developer.KeyProposed(Unlines(PrintFiles(files))) == Ok(true)
  {
    var s := Sections(DiffPieces(files));
    SplitPieces(PrintFiles(files));
    ReadFileByFile(files);
    PrintedIsUnderstood(files);
    BodyKeepsKey(files[i].body, j);
    assert |s| == |Readout(s)| == |KeptOf(files)|;
    forall k | 0 <= k < |s|
      ensures s[k].path == Some(files[k].path) && Kept(s[k].raw) == Kept(BodyPieces(files[k].body))
    {
      assert Readout(s)[k] == KeptOf(files)[k];
    }
    assert DiffWrite.NamesLast(s, i, files[i].path);
    KeyProposedExactly(Unlines(PrintFiles(files)));
  }
}
