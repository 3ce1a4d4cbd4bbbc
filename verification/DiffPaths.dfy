/** Where a target of a written diff leads, told without following it: which targets are
    accepted, and which are refused. */
module DiffPaths {
  import opened Prelude
  import opened Text
  import opened Diff
  import opened DiffPrinting
  import opened DiffRoundTrip
  import opened DiffWrite
  import DiffProperties

  // ----- a path and its components ----------------------------------------

  function Slashed(components: seq<string>): string {
    if components == [] then ""
    else if |components| == 1 then components[0]
    else components[0] + "/" + Slashed(components[1..])
  }

  /** A path is its components with a slash between each two, and none of them holds one. */
  lemma {:induction false} ComponentsExactly(path: string)
    ensures var cs := Components(path);
      cs != [] && Slashed(cs) == path && forall i | 0 <= i < |cs| :: '/' !in cs[i]
    decreases |path|
  {
    var n := IndexOf(path, '/');
    SlashFree(path);
    if n < |path| {
      var rest := Components(path[n + 1..]);
      ComponentsExactly(path[n + 1..]);
      SlashedCons(path[..n], rest);
      AroundTheSlash(path, n);
      assert Components(path) == [path[..n]] + rest;
    } else {
      assert path[..n] == path;
    }
  }

  lemma SlashedCons(first: string, rest: seq<string>)
    requires rest != []
    ensures Slashed([first] + rest) == first + "/" + Slashed(rest)
  {
    assert ([first] + rest)[1..] == rest;
  }

  lemma AroundTheSlash(path: string, n: nat)
    requires n < |path| && path[n] == '/'
    ensures path == path[..n] + "/" + path[n + 1..]
  {
  }

  lemma {:induction false} SlashFree(path: string)
    ensures var n := IndexOf(path, '/');
      '/' !in path[..n] && (n < |path| ==> path[n] == '/')
  {
    if path != "" && path[0] != '/' {
      SlashFree(path[1..]);
      var n := IndexOf(path[1..], '/');
      assert path[..n + 1] == [path[0]] + path[1..][..n];
    }
  }

  lemma {:induction false} ComponentsConcat(a: string, b: string)
    ensures Components(a + "/" + b) == Components(a) + Components(b)
    decreases |a|
  {
    var n := IndexOf(a, '/');
    var path := a + "/" + b;
    SlashFree(a);
    if n == |a| {
      assert a == a[..n];
      IndexOfAfter(a, '/', "/" + b);
      assert path == a + ("/" + b);
      assert path[..n] == a && path[n + 1..] == b;
    } else {
      IndexOfAfter(a[..n], '/', a[n..] + "/" + b);
      assert path == a[..n] + (a[n..] + "/" + b);
      assert path[..n] == a[..n] && path[n + 1..] == a[n + 1..] + "/" + b;
      ComponentsConcat(a[n + 1..], b);
      assert [a[..n]] + (Components(a[n + 1..]) + Components(b)) == [a[..n]] + Components(a[n + 1..]) + Components(b);
    }
  }

  // ----- its normal form --------------------------------------------------

  /** So many steps up, and then these names. */
  datatype Route = Route(ups: nat, names: seq<string>)

  /** Read from its end: an empty component and a `.` are nothing, and each `..` waits for the
      next name before it and takes that away. */
  function Normalised(components: seq<string>): Route {
    if components == [] then Route(0, [])
    else
      var rest := Normalised(components[1..]);
      if components[0] == "" || components[0] == "." then rest
      else if components[0] == ".." then Route(rest.ups + 1, rest.names)
      else if rest.ups > 0 then Route(rest.ups - 1, rest.names)
      else Route(0, [components[0]] + rest.names)
  }

  /** The directory `n` steps up, or the top. */
  function Up(at: Location, n: nat): Location {
    if n <= |at| then at[..|at| - n] else []
  }

  lemma {:induction false} WalkFollowsTheRoute(at: Location, components: seq<string>)
    ensures Walk(at, components) == Up(at, Normalised(components).ups) + Normalised(components).names
    decreases |components|
  {
    if components == [] {
      assert Up(at, 0) + [] == at;
    } else {
      var c, rest := components[0], Normalised(components[1..]);
      WalkFollowsTheRoute(Enter(at, c), components[1..]);
      if c == "" || c == "." {
      } else if c == ".." {
        UpOnce(at, rest.ups);
      } else if rest.ups > 0 {
        assert Up(at + [c], rest.ups) == Up(at, rest.ups - 1);
      } else {
        assert Up(at + [c], 0) + rest.names == Up(at, 0) + ([c] + rest.names);
      }
    }
  }

  lemma UpOnce(at: Location, n: nat)
    ensures Up(if at == [] then [] else at[..|at| - 1], n) == Up(at, n + 1)
  {
  }

  /** Where a target leads: an absolute one to its own names, whatever it is joined to; a relative
      one as many steps up from the root as it has left over, and down its names. */
  function Destination(root: Location, target: string): Location {
    var route := Normalised(Components(target));
    if target != "" && target[0] == '/' then route.names else Up(root, route.ups) + route.names
  }

  lemma ResolvedExactly(root: Location, target: string)
    ensures Resolve(root, target) == Destination(root, target)
  {
    WalkFollowsTheRoute(if Absolute(target) then [] else root, Components(target));
  }

  /** An absolute target is accepted exactly when its own normal form lies strictly below the
      root; a relative one exactly when its steps up and down from the root end strictly below
      it. */
  lemma WritableExactly(root: Location, target: string)
    ensures Writable(root, target)
            <==> && '\0' !in target
                 && var route := Normalised(Components(target));
                    if target != "" && target[0] == '/' then root < route.names
                    else root < Up(root, route.ups) + route.names
  {
    ResolvedExactly(root, target);
  }

  /** A relative target with no steps up left over is accepted exactly when it goes down at all. */
  lemma DownwardIsWritable(root: Location, target: string)
    requires !(target != "" && target[0] == '/') && Normalised(Components(target)).ups == 0
    ensures Writable(root, target) <==> '\0' !in target && Normalised(Components(target)).names != []
  {
    WritableExactly(root, target);
    assert Up(root, 0) == root;
  }

  // ----- what makes no difference -----------------------------------------

  /** A name that is not an instruction. */
  predicate Ordinary(name: string) {
    name != "" && name != "." && name != ".." && '/' !in name
  }

  lemma OneComponent(name: string)
    requires '/' !in name
    ensures Components(name) == [name]
  {
    IndexOfAfter(name, '/', "");
    assert name + "" == name;
  }

  lemma {:induction false} NormalisedSkips(before: seq<string>, middle: seq<string>, after: seq<string>)
    requires Normalised(middle + after) == Normalised(after)
    ensures Normalised(before + (middle + after)) == Normalised(before + after)
  {
    if before == [] {
      assert before + (middle + after) == middle + after && before + after == after;
    } else {
      assert (before + (middle + after))[1..] == before[1..] + (middle + after);
      assert (before + after)[1..] == before[1..] + after;
      NormalisedSkips(before[1..], middle, after);
    }
  }

  function ThroughAndBack(before: string, name: string, after: string): string {
    before + "/" + (name + "/" + (".." + "/" + after))
  }

  lemma ThroughAndBackComponents(before: string, name: string, after: string)
    requires '/' !in name
    ensures Components(ThroughAndBack(before, name, after)) == Components(before) + ([name, ".."] + Components(after))
  {
    ComponentsConcat(before, name + "/" + (".." + "/" + after));
    ComponentsConcat(name, ".." + "/" + after);
    ComponentsConcat("..", after);
    OneComponent(name);
    OneComponent("..");
    assert [name] + ([".."] + Components(after)) == [name, ".."] + Components(after);
  }

  /** `..` takes away exactly the name before it: `before/name/../after` leads where `before/after`
      does, whatever stands before and after. */
  lemma ParentTakesTheNameBefore(root: Location, before: string, name: string, after: string)
    requires Ordinary(name)
    ensures Destination(root, ThroughAndBack(before, name, after)) == Destination(root, before + "/" + after)
  {
    ThroughAndBackComponents(before, name, after);
    ComponentsConcat(before, after);
    ParentCancels(name, Components(after));
    NormalisedSkips(Components(before), [name, ".."], Components(after));
    SameOpening(before, name + "/" + (".." + "/" + after), after);
  }

  lemma ParentCancels(name: string, after: seq<string>)
    requires Ordinary(name)
    ensures Normalised([name, ".."] + after) == Normalised(after)
  {
    var all := [name, ".."] + after;
    assert all[1..] == [".."] + after && all[1..][1..] == after;
  }

  lemma SameOpening(before: string, x: string, y: string)
    ensures (before + "/" + x)[0] == (before + "/" + y)[0]
  {
    assert (before + "/" + x)[0] == (before + "/")[0] == (before + "/" + y)[0];
  }

  // ----- targets that would escape ----------------------------------------

  lemma ThreeDown(a: string, b: string, c: string)
    requires Ordinary(a) && Ordinary(b) && Ordinary(c)
    ensures Normalised(["", a, b, c]) == Route(0, [a, b, c])
  {
    var cs := ["", a, b, c];
    assert cs[1..] == [a, b, c] && cs[1..][1..] == [b, c];
    assert cs[1..][1..][1..] == [c] && cs[1..][1..][1..][1..] == [];
    assert Normalised([c]) == Route(0, [c]);
    assert Normalised([b, c]) == Route(0, [b, c]);
  }

  lemma AbsoluteOfThree(root: Location, a: string, b: string, c: string)
    requires Ordinary(a) && Ordinary(b) && Ordinary(c)
    ensures Writable(root, "" + "/" + (a + "/" + (b + "/" + c)))
            <==> root < [a, b, c] && '\0' !in "" + "/" + (a + "/" + (b + "/" + c))
  {
    var target := "" + "/" + (a + "/" + (b + "/" + c));
    ComponentsConcat("", a + "/" + (b + "/" + c));
    ComponentsConcat(a, b + "/" + c);
    ComponentsConcat(b, c);
    OneComponent("");
    OneComponent(a);
    OneComponent(b);
    OneComponent(c);
    assert Components(target) == ["", a, b, c];
    ThreeDown(a, b, c);
    WritableExactly(root, target);
  }

  lemma ClimbOnce(root: Location, name: string)
    requires Ordinary(name)
    ensures Writable(root, ".." + "/" + name) <==> root == [] && '\0' !in ".." + "/" + name
  {
    ComponentsConcat("..", name);
    OneComponent("..");
    OneComponent(name);
    var cs := ["..", name];
    assert cs[1..] == [name] && cs[1..][1..] == [];
    assert Normalised([name]) == Route(0, [name]);
    WritableExactly(root, ".." + "/" + name);
  }

  /** An absolute target is refused under every root it does not lie below. */
  lemma CronIsRefused(root: Location, target: string)
    requires target == "/etc/cron.d/x"
    ensures Writable(root, target) <==> root < ["etc", "cron.d", "x"]
  {
    assert Ordinary("etc") && Ordinary("cron.d") && Ordinary("x");
    AbsoluteOfThree(root, "etc", "cron.d", "x");
    assert "" + "/" + ("etc" + "/" + ("cron.d" + "/" + "x")) == target;
  }

  /** A target that climbs out is refused under every root but the top. */
  lemma EscapeIsRefused(root: Location, target: string)
    requires target == "../escaped.py"
    ensures Writable(root, target) <==> root == []
  {
    assert Ordinary("escaped.py");
    ClimbOnce(root, "escaped.py");
    assert ".." + "/" + "escaped.py" == target;
  }

  function Escaping(target: string): FileDiff {
    FileDiff([], "/dev/null", None, target, "", [Add("x")])
  }

  /** The diff is read, it names this one file, and the tree is as it was where the writer stops. */
  ghost predicate NothingWritten(target: string, root: Location, tree: Tree) {
    var parsed := Parsed(Unlines(PrintFiles([Escaping(target)])));
    && parsed.Ok? && parsed.value.keys == [target] && parsed.value.Valid() && !AllWritable(root, parsed.value)
    && forall k | FirstOutside(root, parsed.value, k) :: Laid(tree, root, parsed.value, k) == tree
  }

  /** A diff that adds one file at such a target is read, and its one target refused: it is the
      first that may not be written, so the tree is as it was. */
  lemma EscapingDiffAddsNothing(target: string, root: Location, tree: Tree)
    requires Escaping(target).WellNamed() && !Writable(root, target)
    ensures NothingWritten(target, root, tree)
  {
    var files := [Escaping(target)];
    assert OneLine("x");
    PiecesOfOneLine("x");
    PrintedFiles(files);
    assert files[..0] == [];
    var d := Parsed(Unlines(PrintFiles(files))).value;
    DiffProperties.FilesValid(Sections(SplitLines(Unlines(PrintFiles(files)))));
    assert d.keys == [target];
    assert !Writable(root, d.keys[0]);
  }

  lemma EscapingIsNamed(head: string, rest: string)
    requires '/' !in head && head !in PATH_PREFIXES && OneLine(head + "/" + rest) && '\t' !in head + "/" + rest
    requires rest != "" && !IsSpace(rest[|rest| - 1]) && (head != "" ==> !IsSpace(head[0]) && head[0] != '"')
    requires head + "/" + rest != "/dev/null"
    ensures Escaping(head + "/" + rest).WellNamed()
  {
    var target := head + "/" + rest;
    HeadStays(head, rest);
    assert target[|target| - 1] == rest[|rest| - 1];
    assert target[0] == if head == "" then '/' else head[0];
    assert OneLine("/dev/null") && !IsSpace('/');
  }

  lemma HeadStays(head: string, rest: string)
    requires '/' !in head && head !in PATH_PREFIXES
    ensures DropPrefix(head + "/" + rest) == head + "/" + rest
  {
    IndexOfAfter(head, '/', "/" + rest);
    assert head + "/" + rest == head + ("/" + rest);
    assert (head + "/" + rest)[..|head|] == head;
  }

  lemma CronIsNamed(head: string, rest: string)
    requires head == "" && rest == "etc/cron.d/x"
    ensures Escaping(head + "/" + rest).WellNamed()
  {
    assert OneLine(head + "/" + rest);
    EscapingIsNamed(head, rest);
  }

  lemma EscapeIsNamed(head: string, rest: string)
    requires head == ".." && rest == "escaped.py"
    ensures Escaping(head + "/" + rest).WellNamed()
  {
    assert OneLine(head + "/" + rest);
    EscapingIsNamed(head, rest);
  }

  /** So the two diffs are read, and nothing is written. */
  lemma CronIsNotWritten(cron: string, root: Location, tree: Tree)
    requires cron == "/etc/cron.d/x" && !(root < ["etc", "cron.d", "x"])
    ensures NothingWritten(cron, root, tree)
  {
    CronIsNamed("", "etc/cron.d/x");
    assert "" + "/" + "etc/cron.d/x" == cron;
    CronIsRefused(root, cron);
    EscapingDiffAddsNothing(cron, root, tree);
  }

  lemma EscapeIsNotWritten(escape: string, root: Location, tree: Tree)
    requires escape == "../escaped.py" && root != []
    ensures NothingWritten(escape, root, tree)
  {
    EscapeIsNamed("..", "escaped.py");
    assert ".." + "/" + "escaped.py" == escape;
    EscapeIsRefused(root, escape);
    EscapingDiffAddsNothing(escape, root, tree);
  }
}
