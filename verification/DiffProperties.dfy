/** What the reader of Diff means for a diff somebody wrote down: which lines it
    keeps, when it refuses and how it composes. */
module DiffProperties {
  import opened Prelude
  import opened Text
  import opened Diff

  // ----- composition ------------------------------------------------------

  lemma ExtendedConcat(x: seq<Section>, y: seq<Section>, line: string)
    requires y != [] || IsHeader(line)
    ensures Extended(x + y, line) == x + Extended(y, line)
  {
    if IsHeader(line) {
      assert (x + y) + [Opened(line)] == x + (y + [Opened(line)]);
    } else {
      assert (x + y)[|x + y| - 1] == y[|y| - 1];
      assert (x + y)[..|x + y| - 1] == x + y[..|y| - 1];
    }
  }

  lemma ConcatOneLine(a: seq<string>, b: seq<string>, line: string)
    requires Sections(a + b) == Sections(a) + Sections(b)
    requires Sections(b) != [] || IsHeader(line)
    ensures Sections(a + b + [line]) == Sections(a) + Sections(b + [line])
  {
    SectionsOfAppended(a + b, line);
    SectionsOfAppended(b, line);
    ExtendedConcat(Sections(a), Sections(b), line);
  }

  lemma LastApart(a: seq<string>, b: seq<string>)
    requires b != []
    ensures b == b[..|b| - 1] + [b[|b| - 1]]
    ensures a + b == a + b[..|b| - 1] + [b[|b| - 1]]
  {
  }

  lemma ConcatLastLine(a: seq<string>, b: seq<string>)
    requires b != []
    requires var before := b[..|b| - 1];
      && Sections(a + before) == Sections(a) + Sections(before)
      && (Sections(before) != [] || IsHeader(b[|b| - 1]))
    ensures Sections(a + b) == Sections(a) + Sections(b)
  {
    ConcatOneLine(a, b[..|b| - 1], b[|b| - 1]);
    LastApart(a, b);
  }

  /** A diff that starts at a header is read by itself, whatever stands before it. */
  lemma {:induction false} SectionsConcat(a: seq<string>, b: seq<string>)
    requires b == [] || IsHeader(b[0])
    ensures Sections(a + b) == Sections(a) + Sections(b)
  {
    if b == [] {
      assert a + b == a;
    } else {
      var before := b[..|b| - 1];
      SectionsConcat(a, before);
      if before != [] {
        SectionsStart(before);
      }
      ConcatLastLine(a, b);
    }
  }

  lemma {:induction false} SectionsStart(b: seq<string>)
    requires b != [] && IsHeader(b[0])
    ensures Sections(b) != []
  {
    if |b| > 1 {
      SectionsStart(b[..|b| - 1]);
    }
  }

  /** Reading two groups of sections one after the other overrides the first dictionary
      with the second. */
  lemma {:induction false} FilesOverride(a: seq<Section>, b: seq<Section>)
    ensures FilesOf(a + b).at == FilesOf(a).at + FilesOf(b).at
  {
    if b == [] {
      assert a + b == a;
      assert FilesOf(b).at == map[];
    } else {
      assert (a + b)[..|a + b| - 1] == a + b[..|b| - 1];
      FilesOverride(a, b[..|b| - 1]);
    }
  }

  lemma {:induction false} FilesValid(s: seq<Section>)
    ensures FilesOf(s).Valid()
  {
    if s != [] {
      var last := s[|s| - 1];
      FilesValid(s[..|s| - 1]);
      if last.path.Some? {
        FilesOf(s[..|s| - 1]).PutKeepsValid(last.path.value, Join(Kept(last.raw)));
      }
    }
  }

  lemma {:induction false} ConcatenationIsOverride(a: seq<string>, b: seq<string>)
    requires b == [] || IsHeader(b[0])
    ensures FilesOf(Sections(a + b)).at == FilesOf(Sections(a)).at + FilesOf(Sections(b)).at
  {
    SectionsConcat(a, b);
    FilesOverride(Sections(a), Sections(b));
  }

  // ----- refusal ----------------------------------------------------------

  predicate ReadableHeader(line: string) {
    IsHeader(line) && Recognised(line)
  }

  ghost predicate HoldsReadable(lines: seq<string>) {
    exists i | 0 <= i < |lines| :: ReadableHeader(lines[i])
  }

  lemma HoldsReadableAppend(lines: seq<string>, line: string)
    ensures HoldsReadable(lines + [line]) <==> HoldsReadable(lines) || ReadableHeader(line)
  {
    var more := lines + [line];
    assert more[|lines|] == line;
    assert forall i | 0 <= i < |lines| :: more[i] == lines[i];
  }

  lemma UnderstoodExtended(s: seq<Section>, line: string)
    ensures Understood(Extended(s, line)) <==> Understood(s) || ReadableHeader(line)
  {
    if IsHeader(line) {
      UnderstoodAppend(s, Opened(line));
    } else {
      UnderstoodGrown(s, line);
    }
  }

  lemma {:induction false} UnderstoodIffHeader(lines: seq<string>)
    ensures Understood(Sections(lines)) <==> HoldsReadable(lines)
  {
    if lines != [] {
      var n := |lines| - 1;
      UnderstoodIffHeader(lines[..n]);
      SectionsOfAppended(lines[..n], lines[n]);
      HoldsReadableAppend(lines[..n], lines[n]);
      UnderstoodExtended(Sections(lines[..n]), lines[n]);
      assert lines[..n] + [lines[n]] == lines;
    }
  }

  /** The reader refuses exactly the diffs with something in them and no header it can read. */
  lemma RefusesExactly(diff: string)
    ensures var lines := SplitLines(diff);
      Parsed(diff) == Raised <==> !Blank(diff) && forall i | 0 <= i < |lines| :: !ReadableHeader(lines[i])
  {
    UnderstoodIffHeader(SplitLines(diff));
  }

  // ----- which lines are kept ---------------------------------------------

  ghost function MarkedOnly(raw: seq<string>): seq<string> {
    if raw == [] then []
    else
      var last := |raw| - 1;
      MarkedOnly(raw[..last]) + if IsAdded(raw[last]) then [raw[last][1..]] else []
  }

  ghost predicate Subsequence(a: seq<string>, b: seq<string>) {
    if a == [] then true
    else if b == [] then false
    else
      || (a[|a| - 1] == b[|b| - 1] && Subsequence(a[..|a| - 1], b[..|b| - 1]))
      || Subsequence(a, b[..|b| - 1])
  }

  lemma {:induction false} MarkedIsSubsequence(raw: seq<string>)
    ensures Subsequence(MarkedOnly(raw), Kept(raw))
  {
    if raw != [] {
      var last := |raw| - 1;
      MarkedIsSubsequence(raw[..last]);
      var kept, marked := Kept(raw[..last]), MarkedOnly(raw[..last]);
      if IsAdded(raw[last]) {
        assert Kept(raw)[..|Kept(raw)| - 1] == kept;
        assert MarkedOnly(raw)[..|MarkedOnly(raw)| - 1] == marked;
      } else if InChange(raw, last) {
        assert Kept(raw)[..|Kept(raw)| - 1] == kept;
        assert MarkedOnly(raw) == marked;
      } else {
        assert Kept(raw) == kept && MarkedOnly(raw) == marked;
      }
    }
  }

  lemma {:induction false} MarkedNoLonger(raw: seq<string>)
    ensures |MarkedOnly(raw)| <= |Kept(raw)|
    ensures (exists i | 0 <= i < |raw| :: Bare(raw[i])) ==> |MarkedOnly(raw)| < |Kept(raw)|
  {
    if raw != [] {
      var last := |raw| - 1;
      MarkedNoLonger(raw[..last]);
      LineKinds(raw[last], false);
      if i :| 0 <= i < |raw| && Bare(raw[i]) {
        if i < last {
          assert raw[..last][i] == raw[i];
        } else {
          assert Unmarked(raw[last], AfterBare(raw, last));
        }
      }
    }
  }

  lemma {:induction false} NoBareKeepsMarked(raw: seq<string>)
    requires forall i | 0 <= i < |raw| :: !Bare(raw[i])
    ensures Kept(raw) == MarkedOnly(raw)
  {
    if raw != [] {
      var last := |raw| - 1;
      assert forall i | 0 <= i < last :: raw[..last][i] == raw[i];
      NoBareKeepsMarked(raw[..last]);
      assert !AfterBare(raw, last);
      assert !Bare(raw[last]);
    }
  }

  /** Only marked lines are kept exactly when no line of the section lacks a marker. */
  lemma {:induction false} MarkedOnlyIffNoBare(raw: seq<string>)
    ensures Kept(raw) == MarkedOnly(raw) <==> forall i | 0 <= i < |raw| :: !Bare(raw[i])
  {
    MarkedNoLonger(raw);
    if forall i | 0 <= i < |raw| :: !Bare(raw[i]) {
      NoBareKeepsMarked(raw);
    }
  }

  /** Line `j` is in the change and says `text`. */
  ghost predicate Carries(raw: seq<string>, j: int, text: string) {
    0 <= j < |raw| && InChange(raw, j) && Stripped(raw[j]) == text
  }

  lemma CarriesEarlier(raw: seq<string>, line: string, j: int, text: string)
    requires j < |raw|
    ensures Carries(raw + [line], j, text) <==> Carries(raw, j, text)
  {
    if 0 <= j {
      AfterBarePrefix(raw, [line], j);
    }
  }

  lemma CarriesLast(raw: seq<string>, line: string, text: string)
    ensures text in Kept(raw + [line]) <==> text in Kept(raw) || Carries(raw + [line], |raw|, text)
  {
    KeptStep(raw, line);
    AfterBarePrefix(raw, [line], |raw|);
  }

  /** A text is kept exactly when some line of the section that is in the change carries it. */
  lemma {:induction false} KeptIffInChange(raw: seq<string>, text: string)
    ensures text in Kept(raw) <==> exists j :: Carries(raw, j, text)
  {
    if raw != [] {
      var before, last := raw[..|raw| - 1], raw[|raw| - 1];
      KeptIffInChange(before, text);
      CarriesLast(before, last, text);
      assert before + [last] == raw;
      forall j | 0 <= j < |before| ensures Carries(raw, j, text) <==> Carries(before, j, text) {
        CarriesEarlier(before, last, j, text);
      }
    }
  }

  /** Once a line without a marker has been seen, a line down to the next hunk is in the change
      exactly when it is not blank, not diff syntax, not a `-` line and does not open with
      `+++`. */
  lemma {:induction false} AfterBareEverythingCounts(raw: seq<string>, k: nat, j: nat)
    requires k < j < |raw|
    requires Bare(raw[k])
    requires forall m | k < m <= j :: !IsHunk(raw[m])
    ensures InChange(raw, j)
            <==> !Blank(raw[j]) && !IsMeta(raw[j]) && !("-" <= raw[j]) && !("+++" <= raw[j])
    ensures InChange(raw, j) ==> Stripped(raw[j]) in Kept(raw)
  {
    assert AfterBare(raw, j);
    LineKinds(raw[j], true);
    if IsAdded(raw[j]) {
      AddedIsNoOther(raw[j]);
    }
    if InChange(raw, j) {
      assert Carries(raw, j, Stripped(raw[j]));
      KeptIffInChange(raw, Stripped(raw[j]));
    }
  }

  lemma AddedIsNoOther(line: string)
    requires IsAdded(line)
    ensures !Blank(line) && !IsMeta(line) && !("-" <= line)
  {
    assert line[0] == '+' && !IsSpace(line[0]);
  }

  /** A bare line, and under it one that opens with `+++`: the second is not in the change. */
  lemma PlusesAfterBareAreLost()
    ensures Kept(["keys:", "+++KEY"]) == ["keys:"]
  {
    var raw := ["keys:", "+++KEY"];
    assert raw[..1] == ["keys:"] && raw[..0] == [];
    assert raw[0][0] == 'k' && raw[1][0] == '+' && !IsSpace('k');
    assert !Blank(raw[0]);
    assert Bare(raw[0]);
    AfterBareEverythingCounts(raw, 0, 1);
    assert Kept(raw[..1]) == ["keys:"] by {
      KeptStep([], "keys:");
      assert [] + ["keys:"] == ["keys:"];
    }
    assert !InChange(raw, 1);
    assert Kept(raw) == Kept(raw[..1]) + [];
  }

  lemma {:induction false} KeptAreLines(raw: seq<string>)
    requires AllOneLine(raw)
    ensures AllOneLine(Kept(raw))
  {
    if raw != [] {
      var last := |raw| - 1;
      KeptAreLines(raw[..last]);
      assert OneLine(raw[last]);
      assert OneLine(Stripped(raw[last]));
    }
  }

  /** No kept line opens with `++`: with a `+` in front it would be header syntax, and without
      one it would count as marked. */
  lemma {:induction false} KeptNeverOpensWithPluses(raw: seq<string>, k: nat)
    requires k < |Kept(raw)|
    ensures !("++" <= Kept(raw)[k])
  {
    var last := |raw| - 1;
    if k < |Kept(raw[..last])| {
      KeptNeverOpensWithPluses(raw[..last], k);
    } else {
      assert Kept(raw)[k] == Stripped(raw[last]);
    }
  }

  // ----- marked lines -----------------------------------------------------

  lemma {:induction false} MarkedConcat(a: seq<string>, b: seq<string>)
    ensures MarkedOnly(a + b) == MarkedOnly(a) + MarkedOnly(b)
  {
    if b == [] {
      assert a + b == a;
    } else {
      assert (a + b)[..|a + b| - 1] == a + b[..|b| - 1];
      MarkedConcat(a, b[..|b| - 1]);
    }
  }

  lemma MarkedAppend(a: seq<string>, line: string)
    ensures MarkedOnly(a + [line]) == MarkedOnly(a) + if IsAdded(line) then [line[1..]] else []
  {
    assert (a + [line])[..|a|] == a;
  }

  // ----- the lines between two files --------------------------------------

  predicate Inert(line: string) {
    !IsHeader(line) && !IsAdded(line) && !Unmarked(line, true)
  }

  lemma MetaIsInert(line: string)
    requires IsMeta(line)
    ensures Inert(line)
  {
    assert line[0] != '+';
  }
}
