/** agentorg/common/diff.py: writing what a diff adds under a scratch directory, for the
    scanners to read. Paths are lists of components from the root of the file system, and
    resolving one is lexical. */
module DiffWrite {
  import opened Prelude
  import opened Text
  import opened Diff
  import DiffProperties

  type Location = seq<string>

  // ----- paths ------------------------------------------------------------

  function Components(path: string): seq<string>
    decreases |path|
  {
    var n := IndexOf(path, '/');
    if n < |path| then [path[..n]] + Components(path[n + 1..]) else [path]
  }

  /** One component further; `..` at the root stays there. */
  function Enter(at: Location, component: string): Location {
    if component == "" || component == "." then at
    else if component == ".." then if at == [] then [] else at[..|at| - 1]
    else at + [component]
  }

  function Walk(at: Location, components: seq<string>): Location
    decreases |components|
  {
    if components == [] then at else Walk(Enter(at, components[0]), components[1..])
  }

  predicate Absolute(path: string) {
    "/" <= path
  }

  /** `(root / relative).resolve()`: an absolute target forgets the root. */
  function Resolve(root: Location, relative: string): Location {
    Walk(if Absolute(relative) then [] else root, Components(relative))
  }

  predicate Inside(path: Location, root: Location) {
    root < path
  }

  /** A target that may be written: strictly inside, and spellable as a path at all. */
  predicate Writable(root: Location, relative: string) {
    '\0' !in relative && Inside(Resolve(root, relative), root)
  }

  // ----- writing ----------------------------------------------------------

  ghost predicate AllWritable(root: Location, files: Dict<string, string>) {
    forall i | 0 <= i < |files.keys| :: Writable(root, files.keys[i])
  }

  /** The first target that may not be written. */
  ghost predicate FirstOutside(root: Location, files: Dict<string, string>, k: int) {
    0 <= k < |files.keys| && !Writable(root, files.keys[k]) && forall j | 0 <= j < k :: Writable(root, files.keys[j])
  }

  type Tree = map<Location, string>

  /** The tree once the first `n` files of the dictionary have been written. */
  ghost function Laid(tree: Tree, root: Location, files: Dict<string, string>, n: nat): Tree
    requires files.Valid() && n <= |files.keys|
  {
    if n == 0 then tree
    else
      var relative := files.keys[n - 1];
      assert relative in files.keys;
      Laid(tree, root, files, n - 1)[Resolve(root, relative) := files.at[relative] + "\n"]
  }

  /** What stands outside the directory is what stood there before, and nothing is removed. */
  ghost predicate OnlyInside(before: Tree, after: Tree, root: Location) {
    && (forall path | path in after && !Inside(path, root) :: path in before && after[path] == before[path])
    && (forall path | path in before :: path in after)
  }

  class Scratch {
    var tree: Tree

    constructor ()
      ensures tree == map[]
    {
      tree := map[];
    }

    /** One file after another; the first target that is not strictly inside the directory
        stops it. */
    method WriteFiles(files: Dict<string, string>, root: Location) returns (allInside: bool)
      requires files.Valid()
      modifies this
      ensures allInside <==> AllWritable(root, files)
      ensures allInside ==> tree == Laid(old(tree), root, files, |files.keys|)
      ensures !allInside ==> exists k :: FirstOutside(root, files, k) && tree == Laid(old(tree), root, files, k)
      ensures OnlyInside(old(tree), tree, root)
    {
      for i := 0 to |files.keys|
        invariant forall k | 0 <= k < i :: Writable(root, files.keys[k])
        invariant tree == Laid(old(tree), root, files, i)
        invariant OnlyInside(old(tree), tree, root)
      {
        var relative := files.keys[i];
        if !Writable(root, relative) {
          assert FirstOutside(root, files, i);
          return false;
        }
        assert relative in files.keys;
        tree := tree[Resolve(root, relative) := files.at[relative] + "\n"];
      }
      return true;
    }

    /** Raises on a diff nobody can read and on a target that would leave the directory; never
        touches anything outside it either way. */
    method WriteAddedFiles(diff: string, root: Location) returns (written: bool)
      modifies this
      ensures written <==> Parsed(diff).Ok? && AllWritable(root, Parsed(diff).value)
      ensures Parsed(diff).Raised? ==> tree == old(tree)
      ensures written ==>
                && Parsed(diff).value.Valid()
                && tree == Laid(old(tree), root, Parsed(diff).value, |Parsed(diff).value.keys|)
      ensures Parsed(diff).Ok? && !written ==>
                && Parsed(diff).value.Valid()
                && exists k :: FirstOutside(root, Parsed(diff).value, k)
                               && tree == Laid(old(tree), root, Parsed(diff).value, k)
      ensures OnlyInside(old(tree), tree, root)
    {
      var parsed := AddedFiles(diff);
      if parsed.Raised? {
        return false;
      }
      DiffProperties.FilesValid(Sections(SplitLines(diff)));
      written := WriteFiles(parsed.value, root);
    }
  }

  /** A file is what its last target gave it. */
  lemma {:induction false} LaidHolds(tree: Tree, root: Location, files: Dict<string, string>, n: nat, i: nat)
    requires files.Valid() && i < n <= |files.keys|
    requires forall j | i < j < n :: Resolve(root, files.keys[j]) != Resolve(root, files.keys[i])
    ensures var at := Resolve(root, files.keys[i]);
      && files.keys[i] in files.at && at in Laid(tree, root, files, n)
      && Laid(tree, root, files, n)[at] == files.at[files.keys[i]] + "\n"
  {
    assert files.keys[i] in files.keys;
    if i < n - 1 {
      LaidHolds(tree, root, files, n - 1, i);
      assert Resolve(root, files.keys[n - 1]) != Resolve(root, files.keys[i]);
    }
  }

  // ----- where a target may lead ------------------------------------------

  /** Never climbs above where it started. */
  predicate StaysBelow(components: seq<string>, depth: nat) {
    if components == [] then true
    else if components[0] == "" || components[0] == "." then StaysBelow(components[1..], depth)
    else if components[0] == ".." then depth > 0 && StaysBelow(components[1..], depth - 1)
    else StaysBelow(components[1..], depth + 1)
  }

  lemma {:induction false} StayingBelowStaysInside(root: Location, below: Location, components: seq<string>)
    requires StaysBelow(components, |below|)
    ensures root <= Walk(root + below, components)
    decreases |components|
  {
    if components != [] {
      var c := components[0];
      if c == "" || c == "." {
        StayingBelowStaysInside(root, below, components[1..]);
      } else if c == ".." {
        assert Enter(root + below, c) == root + below[..|below| - 1];
        StayingBelowStaysInside(root, below[..|below| - 1], components[1..]);
      } else {
        assert Enter(root + below, c) == root + (below + [c]);
        StayingBelowStaysInside(root, below + [c], components[1..]);
      }
    }
  }

  /** Normal: no component is empty, `.` or `..`. */
  predicate Normal(path: Location) {
    forall i | 0 <= i < |path| :: path[i] != "" && path[i] != "." && path[i] != ".."
  }

  lemma {:induction false} WalkIsNormal(at: Location, components: seq<string>)
    requires Normal(at)
    ensures Normal(Walk(at, components))
    decreases |components|
  {
    if components != [] {
      WalkIsNormal(Enter(at, components[0]), components[1..]);
    }
  }

  /** Where a target resolves holds no dots left to follow, so being inside the root by its
      components is being inside it. */
  lemma ResolvedIsNormal(root: Location, relative: string)
    requires Normal(root)
    ensures Normal(Resolve(root, relative))
  {
    WalkIsNormal(if Absolute(relative) then [] else root, Components(relative));
  }

  /** A relative target that never climbs above its start never leaves the root. */
  lemma RelativeStaysInside(root: Location, relative: string)
    requires !Absolute(relative) && StaysBelow(Components(relative), 0)
    ensures root <= Resolve(root, relative)
  {
    assert root + [] == root;
    StayingBelowStaysInside(root, [], Components(relative));
  }

  // ----- what a written file holds ----------------------------------------

  ghost predicate SectionsOneLine(s: seq<Section>) {
    forall i | 0 <= i < |s| :: AllOneLine(s[i].raw)
  }

  lemma {:induction false} SectionsAreLines(lines: seq<string>)
    requires AllOneLine(lines)
    ensures SectionsOneLine(Sections(lines))
  {
    if lines != [] {
      var n := |lines| - 1;
      SectionsAreLines(lines[..n]);
      assert OneLine(lines[n]);
    }
  }

  /** Section `i` is the last one that names the path. */
  ghost predicate NamesLast(s: seq<Section>, i: int, path: string) {
    && 0 <= i < |s| && s[i].path == Some(path)
    && forall j | i < j < |s| :: s[j].path != Some(path)
  }

  /** The last section that names a path gives it its text. */
  lemma {:induction false} TextOfLastSection(s: seq<Section>, path: string)
    requires path in FilesOf(s).at
    ensures exists i :: NamesLast(s, i, path) && FilesOf(s).at[path] == Join(Kept(s[i].raw))
  {
    var n := |s| - 1;
    if s[n].path == Some(path) {
      assert NamesLast(s, n, path);
    } else {
      TextOfLastSection(s[..n], path);
      var i :| NamesLast(s[..n], i, path) && FilesOf(s[..n]).at[path] == Join(Kept(s[..n][i].raw));
      assert s[i] == s[..n][i];
      forall j | i < j < |s| ensures s[j].path != Some(path) {
        if j < n { assert s[..n][j] == s[j]; }
      }
      assert NamesLast(s, i, path);
    }
  }

  lemma {:induction false} LastSectionGivesText(s: seq<Section>, i: int, path: string)
    requires NamesLast(s, i, path)
    ensures path in FilesOf(s).at && FilesOf(s).at[path] == Join(Kept(s[i].raw))
  {
    var n := |s| - 1;
    if i < n {
      assert s[n].path != Some(path);
      assert NamesLast(s[..n], i, path);
      LastSectionGivesText(s[..n], i, path);
    }
  }

  /** A written file read by lines is the added lines, one for one and in order, exactly when
      there is at least one; a file with none holds one empty line. */
  lemma WrittenReadsBack(kept: seq<string>)
    requires AllOneLine(kept)
    ensures SplitLines(Join(kept) + "\n") == kept <==> kept != []
    ensures kept == [] ==> Join(kept) + "\n" == "\n"
  {
    if kept != [] {
      JoinThenNewline(kept);
      SplitUnlines(kept);
    } else {
      assert Join(kept) + "\n" == Unlines([""]) by {
        assert [""][1..] == [];
        assert Unlines([""]) == "" + "\n" + Unlines([]);
      }
      SplitUnlines([""]);
    }
  }

  /** Line k of the text is the k-th line the path's last section adds, unless it adds none. */
  ghost predicate HoldsAddedLines(text: string, s: seq<Section>, path: string) {
    exists i :: && NamesLast(s, i, path)
                && if Kept(s[i].raw) != [] then SplitLines(text) == Kept(s[i].raw) else text == "\n"
  }

  lemma SectionTextReadsBack(s: seq<Section>, path: string)
    requires SectionsOneLine(s) && path in FilesOf(s).at
    ensures HoldsAddedLines(FilesOf(s).at[path] + "\n", s, path)
  {
    TextOfLastSection(s, path);
    var i :| NamesLast(s, i, path) && FilesOf(s).at[path] == Join(Kept(s[i].raw));
    DiffProperties.KeptAreLines(s[i].raw);
    WrittenReadsBack(Kept(s[i].raw));
  }

  /** For every readable diff and every path it names: what is written there holds the lines
      that path's last section adds. */
  lemma FileHoldsAddedLines(diff: string, path: string)
    requires Parsed(diff).Ok? && path in Parsed(diff).value.at
    ensures HoldsAddedLines(Parsed(diff).value.at[path] + "\n", Sections(SplitLines(diff)), path)
  {
    SplitLinesAreLines(diff);
    SectionsAreLines(SplitLines(diff));
    SectionTextReadsBack(Sections(SplitLines(diff)), path);
  }
}
