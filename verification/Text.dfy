/** The string operations the diff readers rest on, with Python's own notion of a
    line break (`str.splitlines`) and of white space (`str.strip`). */
module Text {
  import opened Prelude

  predicate IsLineBreak(c: char) {
    c == '\n' || c == '\r' || c == '\U{000B}' || c == '\U{000C}' || c == '\U{001C}' || c == '\U{001D}'
    || c == '\U{001E}' || c == '\U{0085}' || c == '\U{2028}' || c == '\U{2029}'
  }

  predicate IsSpace(c: char) {
    IsLineBreak(c) || c == ' ' || c == '\t' || c == '\U{001F}' || c == '\U{00A0}' || c == '\U{1680}'
    || '\U{2000}' <= c <= '\U{200A}' || c == '\U{202F}' || c == '\U{205F}' || c == '\U{3000}'
  }

  /** `not s.strip()` */
  predicate Blank(s: string) {
    forall i | 0 <= i < |s| :: IsSpace(s[i])
  }

  predicate OneLine(s: string) {
    forall i | 0 <= i < |s| :: !IsLineBreak(s[i])
  }

  predicate AllOneLine(lines: seq<string>) {
    forall i | 0 <= i < |lines| :: OneLine(lines[i])
  }

  function StripLeft(s: string): string {
    if s != "" && IsSpace(s[0]) then StripLeft(s[1..]) else s
  }

  function StripRight(s: string): string {
    if s != "" && IsSpace(s[|s| - 1]) then StripRight(s[..|s| - 1]) else s
  }

  function Strip(s: string): string {
    StripRight(StripLeft(s))
  }

  /** Stripping removes white space only, and all of it. */
  lemma {:induction false} StripLeftFacts(s: string)
    ensures var r := StripLeft(s);
      && |r| <= |s| && s[|s| - |r|..] == r
      && (forall i | 0 <= i < |s| - |r| :: IsSpace(s[i]))
      && (r != "" ==> !IsSpace(r[0]))
  {
    if s != "" && IsSpace(s[0]) {
      StripLeftFacts(s[1..]);
      var r := StripLeft(s[1..]);
      assert s[|s| - |r|..] == s[1..][|s| - 1 - |r|..];
      assert forall i | 1 <= i < |s| - |r| :: s[i] == s[1..][i - 1];
    }
  }

  lemma {:induction false} StripRightFacts(s: string)
    ensures var r := StripRight(s);
      && |r| <= |s| && s[..|r|] == r
      && (forall i | |r| <= i < |s| :: IsSpace(s[i]))
      && (r != "" ==> !IsSpace(r[|r| - 1]))
  {
    if s != "" && IsSpace(s[|s| - 1]) {
      var n := |s| - 1;
      StripRightFacts(s[..n]);
      assert forall i | 0 <= i < n :: s[i] == s[..n][i];
    }
  }

  lemma StripLeftKeepsOneLine(s: string)
    requires OneLine(s)
    ensures OneLine(StripLeft(s))
  {
    StripLeftFacts(s);
    var l := StripLeft(s);
    forall i | 0 <= i < |l| ensures !IsLineBreak(l[i]) {
      assert l[i] == s[|s| - |l|..][i] == s[|s| - |l| + i];
    }
  }

  lemma StripRightKeepsOneLine(s: string)
    requires OneLine(s)
    ensures OneLine(StripRight(s))
  {
    StripRightFacts(s);
    var r := StripRight(s);
    forall i | 0 <= i < |r| ensures !IsLineBreak(r[i]) {
      assert r[i] == s[..|r|][i] == s[i];
    }
  }

  lemma StripKeepsOneLine(s: string)
    requires OneLine(s)
    ensures OneLine(Strip(s))
  {
    StripLeftKeepsOneLine(s);
    StripRightKeepsOneLine(StripLeft(s));
  }

  /** Where `c` first occurs in `s`, or `|s|`. */
  function IndexOf(s: string, c: char): (n: nat)
    ensures n <= |s|
  {
    if s == "" || s[0] == c then 0 else 1 + IndexOf(s[1..], c)
  }

  lemma {:induction false} IndexOfAfter(a: string, c: char, b: string)
    requires c !in a
    requires b == "" || b[0] == c
    ensures IndexOf(a + b, c) == |a|
  {
    if a == "" {
      assert a + b == b;
    } else {
      assert (a + b)[1..] == a[1..] + b;
      IndexOfAfter(a[1..], c, b);
    }
  }

  /** `needle in s` for strings. */
  predicate Contains(s: string, needle: string) {
    needle <= s || (s != "" && Contains(s[1..], needle))
  }

  // ----- lines ------------------------------------------------------------

  /** `s.splitlines()`; `\r\n` is one break. */
  function SplitLines(s: string): seq<string> {
    Cut(s, "")
  }

  /** The lines of `line + s`, where `line` is known to hold no break. */
  function Cut(s: string, line: string): seq<string> {
    if s == "" then if line == "" then [] else [line]
    else if !IsLineBreak(s[0]) then Cut(s[1..], line + [s[0]])
    else if "\r\n" <= s then [line] + Cut(s[2..], "")
    else [line] + Cut(s[1..], "")
  }

  lemma {:induction false} CutsAreLines(s: string, line: string)
    requires OneLine(line)
    ensures AllOneLine(Cut(s, line))
  {
    if s == "" {
    } else if !IsLineBreak(s[0]) {
      CutsAreLines(s[1..], line + [s[0]]);
    } else if "\r\n" <= s {
      CutsAreLines(s[2..], "");
    } else {
      CutsAreLines(s[1..], "");
    }
  }

  lemma SplitLinesAreLines(s: string)
    ensures AllOneLine(SplitLines(s))
  {
    CutsAreLines(s, "");
  }

  /** Every line followed by a newline. */
  function Unlines(lines: seq<string>): string {
    if lines == [] then "" else lines[0] + "\n" + Unlines(lines[1..])
  }

  /** `"\n".join(lines)` */
  function Join(lines: seq<string>): string {
    if lines == [] then "" else if |lines| == 1 then lines[0] else lines[0] + "\n" + Join(lines[1..])
  }

  lemma {:induction false} CutOneLine(before: string, line: string, rest: string)
    requires OneLine(line)
    ensures Cut(line + "\n" + rest, before) == [before + line] + Cut(rest, "")
    decreases |line|
  {
    var s := line + "\n" + rest;
    if line == "" {
      assert s[0] == '\n' && s[1..] == rest && before + line == before;
    } else {
      assert s[0] == line[0] && s[1..] == line[1..] + "\n" + rest;
      assert before + [line[0]] + line[1..] == before + line;
      CutOneLine(before + [line[0]], line[1..], rest);
    }
  }

  lemma {:induction false} SplitUnlines(lines: seq<string>)
    requires AllOneLine(lines)
    ensures SplitLines(Unlines(lines)) == lines
  {
    if lines == [] {
      assert Unlines(lines) == "";
    } else {
      SplitUnlines(lines[1..]);
      assert "" + lines[0] == lines[0];
      CutOneLine("", lines[0], Unlines(lines[1..]));
    }
  }

  lemma {:induction false} JoinThenNewline(lines: seq<string>)
    requires lines != []
    ensures Join(lines) + "\n" == Unlines(lines)
  {
    if |lines| > 1 {
      JoinThenNewline(lines[1..]);
      assert lines[0] + "\n" + Join(lines[1..]) + "\n" == lines[0] + "\n" + (Join(lines[1..]) + "\n");
    } else {
      assert Unlines(lines[1..]) == "";
    }
  }

  lemma {:induction false} UnlinesAppend(a: seq<string>, b: seq<string>)
    ensures Unlines(a + b) == Unlines(a) + Unlines(b)
  {
    if a == [] {
      assert a + b == b;
    } else {
      UnlinesAppend(a[1..], b);
      assert (a + b)[1..] == a[1..] + b;
    }
  }

  lemma {:induction false} CutAll(line: string, before: string)
    requires OneLine(line)
    ensures Cut(line, before) == if before + line == "" then [] else [before + line]
    decreases |line|
  {
    if line == "" {
      assert before + line == before;
    } else {
      assert before + [line[0]] + line[1..] == before + line;
      CutAll(line[1..], before + [line[0]]);
    }
  }

  /** Joining lines and splitting again loses a last line that is empty, and nothing else. */
  lemma {:induction false} SplitJoin(lines: seq<string>)
    requires AllOneLine(lines)
    ensures SplitLines(Join(lines))
            == if lines != [] && lines[|lines| - 1] == "" then lines[..|lines| - 1] else lines
  {
    if lines == [] {
    } else if |lines| == 1 {
      assert "" + lines[0] == lines[0];
      CutAll(lines[0], "");
    } else {
      SplitJoin(lines[1..]);
      assert "" + lines[0] == lines[0];
      CutOneLine("", lines[0], Join(lines[1..]));
      assert lines == [lines[0]] + lines[1..];
      assert lines[..|lines| - 1] == [lines[0]] + lines[1..][..|lines| - 2];
    }
  }

  // ----- what one written line is read as ---------------------------------

  /** The lines a written line is read as: one, unless it holds a break that is not a newline. */
  function Pieces(line: string): seq<string> {
    SplitLines(line + "\n")
  }

  function AllPieces(lines: seq<string>): seq<string> {
    if lines == [] then [] else Pieces(lines[0]) + AllPieces(lines[1..])
  }

  lemma {:induction false} CutAfterNewline(s: string, rest: string, before: string)
    ensures Cut(s + "\n" + rest, before) == Cut(s + "\n", before) + Cut(rest, "")
    decreases |s|
  {
    var whole, first := s + "\n" + rest, s + "\n";
    if s == "" {
      assert whole[0] == '\n' && whole[1..] == rest && first[1..] == "";
    } else if !IsLineBreak(s[0]) {
      assert whole[1..] == s[1..] + "\n" + rest && first[1..] == s[1..] + "\n";
      CutAfterNewline(s[1..], rest, before + [s[0]]);
    } else if "\r\n" <= first {
      if |s| == 1 {
        assert first[2..] == "" && whole[2..] == rest;
      } else {
        assert whole[2..] == s[2..] + "\n" + rest && first[2..] == s[2..] + "\n";
        CutAfterNewline(s[2..], rest, "");
      }
    } else {
      assert whole[1..] == s[1..] + "\n" + rest && first[1..] == s[1..] + "\n";
      assert !("\r\n" <= whole) by {
        assert whole[1] == first[1];
      }
      CutAfterNewline(s[1..], rest, "");
    }
  }

  lemma {:induction false} CutHead(s: string, before: string)
    ensures var pieces := Cut(s + "\n", "");
      pieces != [] && Cut(s + "\n", before) == [before + pieces[0]] + pieces[1..]
    decreases |s|
  {
    var line := s + "\n";
    if s == "" {
      assert line[0] == '\n' && line[1..] == "";
      assert before + "" == before;
    } else if !IsLineBreak(s[0]) {
      assert line[1..] == s[1..] + "\n";
      CutHead(s[1..], before + [s[0]]);
      CutHead(s[1..], "" + [s[0]]);
      var pieces, own := Cut(s[1..] + "\n", ""), Cut(line, "");
      assert "" + [s[0]] == [s[0]];
      assert own == [[s[0]] + pieces[0]] + pieces[1..];
      assert own[1..] == pieces[1..];
      assert before + [s[0]] + pieces[0] == before + own[0];
    } else {
      assert before + "" == before;
    }
  }

  lemma {:induction false} CutPast(m: string, s: string, before: string)
    requires OneLine(m)
    ensures Cut(m + s, before) == Cut(s, before + m)
    decreases |m|
  {
    if m == "" {
      assert m + s == s && before + m == before;
    } else {
      assert (m + s)[0] == m[0] && (m + s)[1..] == m[1..] + s;
      assert before + [m[0]] + m[1..] == before + m;
      CutPast(m[1..], s, before + [m[0]]);
    }
  }

  /** A marker stays with the first piece of what it marks. */
  lemma MarkedPieces(m: string, text: string)
    requires OneLine(m)
    ensures Pieces(text) != [] && Pieces(m + text) == [m + Pieces(text)[0]] + Pieces(text)[1..]
  {
    assert m + text + "\n" == m + (text + "\n");
    CutPast(m, text + "\n", "");
    assert "" + m == m;
    CutHead(text, m);
  }

  lemma PiecesOfOneLine(line: string)
    requires OneLine(line)
    ensures Pieces(line) == [line]
  {
    assert line + "\n" + "" == line + "\n" && "" + line == line;
    CutOneLine("", line, "");
  }

  /** A break that is not a newline ends the piece, and the rest is read for itself. */
  lemma PiecesAtBreak(before: string, c: char, rest: string)
    requires OneLine(before) && IsLineBreak(c) && c != '\r'
    ensures Pieces(before + [c] + rest) == [before] + Pieces(rest)
  {
    var tail := [c] + (rest + "\n");
    assert before + [c] + rest + "\n" == before + tail;
    CutPast(before, tail, "");
    assert "" + before == before;
    assert tail[0] == c && tail[1..] == rest + "\n";
  }

  lemma {:induction false} SplitPieces(lines: seq<string>)
    ensures SplitLines(Unlines(lines)) == AllPieces(lines)
  {
    if lines != [] {
      SplitPieces(lines[1..]);
      CutAfterNewline(lines[0], Unlines(lines[1..]), "");
    }
  }

  lemma {:induction false} AllPiecesConcat(a: seq<string>, b: seq<string>)
    ensures AllPieces(a + b) == AllPieces(a) + AllPieces(b)
  {
    if a == [] {
      assert a + b == b;
    } else {
      assert (a + b)[1..] == a[1..] + b;
      AllPiecesConcat(a[1..], b);
    }
  }

  lemma OnePieces(line: string)
    ensures AllPieces([line]) == Pieces(line)
  {
    assert [line][1..] == [];
  }

  lemma {:induction false} AllPiecesOfLines(lines: seq<string>)
    requires AllOneLine(lines)
    ensures AllPieces(lines) == lines
  {
    if lines != [] {
      PiecesOfOneLine(lines[0]);
      AllPiecesOfLines(lines[1..]);
      assert [lines[0]] + lines[1..] == lines;
    }
  }

  lemma {:induction false} AllPiecesAreLines(lines: seq<string>)
    ensures AllOneLine(AllPieces(lines))
  {
    if lines != [] {
      SplitLinesAreLines(lines[0] + "\n");
      AllPiecesAreLines(lines[1..]);
    }
  }

  // ----- which characters, by their numbers -------------------------------

  /** The characters `splitlines` cuts at. */
  predicate BreakCode(n: int) {
    10 <= n <= 13 || 28 <= n <= 30 || n == 133 || n == 8232 || n == 8233
  }

  /** The characters `strip` takes away. */
  predicate SpaceCode(n: int) {
    || 9 <= n <= 13 || 28 <= n <= 32 || n == 133 || n == 160 || n == 5760 || 8192 <= n <= 8202
    || n == 8232 || n == 8233 || n == 8239 || n == 8287 || n == 12288
  }

  lemma BreaksAre(c: char)
    ensures IsLineBreak(c) <==> BreakCode(c as int)
  {
  }

  lemma SpacesAre(c: char)
    ensures IsSpace(c) <==> SpaceCode(c as int)
  {
    BreaksAre(c);
  }

  /** Two texts without breaks and a character between them are two lines exactly when that
      character is one of the ten. */
  lemma CutsExactly(a: string, c: char, b: string)
    requires OneLine(a) && OneLine(b) && a != "" && b != ""
    ensures SplitLines(a + [c] + b) == if BreakCode(c as int) then [a, b] else [a + [c] + b]
  {
    var tail := [c] + b;
    assert a + [c] + b == a + tail;
    BreaksAre(c);
    CutPast(a, tail, "");
    assert "" + a == a;
    assert tail[0] == c && tail[1..] == b;
    if IsLineBreak(c) {
      assert !("\r\n" <= tail) by {
        assert tail[1] == b[0];
      }
      CutAll(b, "");
      assert "" + b == b;
    } else {
      CutAll(tail, a);
    }
  }

  /** A return and a newline are one break. */
  lemma ReturnAndNewlineCutOnce(a: string, b: string)
    requires OneLine(a)
    ensures SplitLines(a + "\r\n" + b) == [a] + SplitLines(b)
  {
    var tail := "\r\n" + b;
    assert a + "\r\n" + b == a + tail;
    CutPast(a, tail, "");
    assert "" + a == a;
    assert tail[2..] == b;
  }

  /** Between two characters that are not white space nothing is stripped, and outside them
      everything that is white space by its number. */
  lemma StripsExactly(before: string, s: string, after: string)
    requires forall i | 0 <= i < |before| :: SpaceCode(before[i] as int)
    requires forall i | 0 <= i < |after| :: SpaceCode(after[i] as int)
    requires s != "" ==> !SpaceCode(s[0] as int) && !SpaceCode(s[|s| - 1] as int)
    ensures Strip(before + s + after) == s
  {
    StripsLeft(before, s + after);
    assert before + s + after == before + (s + after);
    if s == "" {
      assert s + after == after;
      StripsLeft(after, "");
      assert after + "" == after;
    } else {
      SpacesAre(s[0]);
      assert (s + after)[0] == s[0];
      StripsRight(s, after);
    }
  }

  lemma {:induction false} StripsLeft(before: string, s: string)
    requires forall i | 0 <= i < |before| :: SpaceCode(before[i] as int)
    ensures StripLeft(before + s) == StripLeft(s)
  {
    if before == "" {
      assert before + s == s;
    } else {
      SpacesAre(before[0]);
      assert (before + s)[1..] == before[1..] + s;
      StripsLeft(before[1..], s);
    }
  }

  lemma {:induction false} StripsRight(s: string, after: string)
    requires s != "" && !SpaceCode(s[|s| - 1] as int)
    requires forall i | 0 <= i < |after| :: SpaceCode(after[i] as int)
    ensures StripRight(s + after) == s
  {
    if after == "" {
      assert s + after == s;
      SpacesAre(s[|s| - 1]);
    } else {
      var n := |after| - 1;
      SpacesAre(after[n]);
      assert (s + after)[..|s + after| - 1] == s + after[..n];
      StripsRight(s, after[..n]);
    }
  }

  /** `needle in s`: it stands somewhere. */
  lemma {:induction false} ContainsExactly(s: string, needle: string)
    ensures Contains(s, needle) <==> exists i | 0 <= i <= |s| :: needle <= s[i..]
  {
    assert s[0..] == s;
    if s != "" {
      ContainsExactly(s[1..], needle);
      if i :| 0 <= i <= |s[1..]| && needle <= s[1..][i..] {
        assert s[1..][i..] == s[i + 1..];
      }
      if i :| 0 <= i <= |s| && needle <= s[i..] {
        if i > 0 {
          assert s[i..] == s[1..][i - 1..];
        }
      }
    }
  }
}
