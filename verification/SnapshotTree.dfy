/** agentorg/repo_snapshot.py: the repository the agents are shown, read within a budget and in
    an order of its own. */
module SnapshotTree {
  import opened Prelude
  import Order
  import DiffPaths
  import DiffWrite

  // ----- what is worth showing --------------------------------------------

  const SKIP_DIRS: set<string> := {".git", "node_modules", "__pycache__", ".venv", ".pytest_cache", ".ruff_cache",
                                   "dist", "build", ".mypy_cache", ".tox"}

  const SKIP_SUFFIXES: set<string> := {".pyc", ".pyo", ".so", ".dylib", ".dll", ".zip", ".gz", ".tar", ".whl", ".png",
                                       ".jpg", ".jpeg", ".gif", ".svg", ".ico", ".pdf", ".lock"}

  /** Where the last `c` stands in `s`, or -1. */
  function LastIndexOf(s: string, c: char): (n: int)
    ensures -1 <= n < |s|
  {
    if s == "" then -1 else if s[|s| - 1] == c then |s| - 1 else LastIndexOf(s[..|s| - 1], c)
  }

  /** From the last dot on, unless that dot is the first or the last character. */
  function Suffix(name: string): string {
    var n := LastIndexOf(name, '.');
    if 0 < n < |name| - 1 then name[n..] else ""
  }

  function LowerCase(s: string): string {
    seq(|s|, i requires 0 <= i < |s| => if 'A' <= s[i] <= 'Z' then s[i] - 'A' + 'a' else s[i])
  }

  /** One entry of the walk: the components of its path below the root, what it is, and
      its text unless reading it failed. */
  datatype Entry = Entry(parts: seq<string>, isFile: bool, text: Option<string>) {
    function Path(): string {
      JoinPath(parts)
    }

    predicate Interesting() {
      && (forall i | 0 <= i < |parts| :: parts[i] !in SKIP_DIRS)
      && (parts == [] || LowerCase(Suffix(parts[|parts| - 1])) !in SKIP_SUFFIXES)
    }
  }

  function JoinPath(parts: seq<string>): string {
    if parts == [] then "." else if |parts| == 1 then parts[0] else parts[0] + "/" + JoinPath(parts[1..])
  }

  // ----- the order of the walk --------------------------------------------

  /** Paths compare component by component, a directory before what it holds. */
  predicate PathLess(a: seq<string>, b: seq<string>) {
    b != [] && (a == [] || Order.Less(a[0], b[0]) || (a[0] == b[0] && PathLess(a[1..], b[1..])))
  }

  lemma {:induction false} PathIrreflexive(a: seq<string>)
    ensures !PathLess(a, a)
  {
    if a != [] {
      Order.Irreflexive(a[0]);
      PathIrreflexive(a[1..]);
    }
  }

  lemma {:induction false} PathTransitive(a: seq<string>, b: seq<string>, c: seq<string>)
    requires PathLess(a, b) && PathLess(b, c)
    ensures PathLess(a, c)
  {
    if a != [] {
      if Order.Less(a[0], b[0]) && Order.Less(b[0], c[0]) {
        Order.Transitive(a[0], b[0], c[0]);
      } else if a[0] == b[0] == c[0] && !Order.Less(a[0], b[0]) && !Order.Less(b[0], c[0]) {
        PathTransitive(a[1..], b[1..], c[1..]);
      } else if a[0] == b[0] == c[0] {
        Order.Irreflexive(a[0]);
      }
    }
  }

  lemma {:induction false} PathTotal(a: seq<string>, b: seq<string>)
    ensures a == b || PathLess(a, b) || PathLess(b, a)
  {
    if a != [] && b != [] {
      Order.Total(a[0], b[0]);
      PathTotal(a[1..], b[1..]);
      assert a[0] == b[0] && a[1..] == b[1..] ==> a == [a[0]] + a[1..] == b;
    }
  }

  function Placed(entries: seq<Entry>, e: Entry): seq<Entry> {
    if entries == [] || PathLess(e.parts, entries[0].parts) then [e] + entries
    else [entries[0]] + Placed(entries[1..], e)
  }

  /** The walk, sorted. */
  function ByPath(walk: seq<Entry>): seq<Entry> {
    if walk == [] then [] else Placed(ByPath(walk[..|walk| - 1]), walk[|walk| - 1])
  }

  ghost predicate Rising(entries: seq<Entry>) {
    forall i, j | 0 <= i < j < |entries| :: PathLess(entries[i].parts, entries[j].parts)
  }

  /** No two entries of a walk are the same path. */
  ghost predicate DistinctPaths(entries: seq<Entry>) {
    forall i, j | 0 <= i < j < |entries| :: entries[i].parts != entries[j].parts
  }

  lemma {:induction false} PlacedCounts(entries: seq<Entry>, e: Entry)
    ensures multiset(Placed(entries, e)) == multiset(entries) + multiset{e}
  {
    if !(entries == [] || PathLess(e.parts, entries[0].parts)) {
      PlacedCounts(entries[1..], e);
      assert entries == [entries[0]] + entries[1..];
    }
  }

  /** Sorting keeps every entry as often as the walk came across it. */
  lemma {:induction false} ByPathKeeps(walk: seq<Entry>)
    ensures multiset(ByPath(walk)) == multiset(walk)
  {
    if walk != [] {
      var before := walk[..|walk| - 1];
      ByPathKeeps(before);
      PlacedCounts(ByPath(before), walk[|walk| - 1]);
      assert walk == before + [walk[|walk| - 1]];
    }
  }

  lemma RisingCons(e: Entry, rest: seq<Entry>)
    requires Rising(rest) && forall i | 0 <= i < |rest| :: PathLess(e.parts, rest[i].parts)
    ensures Rising([e] + rest)
  {
  }

  lemma FirstIsLeast(e: Entry, entries: seq<Entry>)
    requires Rising(entries) && entries != [] && PathLess(e.parts, entries[0].parts)
    ensures forall i | 0 <= i < |entries| :: PathLess(e.parts, entries[i].parts)
  {
    forall i | 0 <= i < |entries| ensures PathLess(e.parts, entries[i].parts) {
      if i > 0 {
        PathTransitive(e.parts, entries[0].parts, entries[i].parts);
      }
    }
  }

  lemma {:induction false} PlacedRises(entries: seq<Entry>, e: Entry)
    requires Rising(entries) && forall x | x in entries :: x.parts != e.parts
    ensures Rising(Placed(entries, e))
  {
    if entries != [] && PathLess(e.parts, entries[0].parts) {
      FirstIsLeast(e, entries);
      RisingCons(e, entries);
    } else if entries != [] {
      var rest := entries[1..];
      PlacedRises(rest, e);
      PathTotal(entries[0].parts, e.parts);
      PlacedCounts(rest, e);
      forall i | 0 <= i < |Placed(rest, e)| ensures PathLess(entries[0].parts, Placed(rest, e)[i].parts) {
        assert Placed(rest, e)[i] in multiset(Placed(rest, e));
      }
      RisingCons(entries[0], Placed(rest, e));
    }
  }

  /** Over distinct paths the sorted walk rises strictly. */
  lemma {:induction false} ByPathRises(walk: seq<Entry>)
    requires DistinctPaths(walk)
    ensures Rising(ByPath(walk))
  {
    if walk != [] {
      var before, e := walk[..|walk| - 1], walk[|walk| - 1];
      ByPathRises(before);
      ByPathKeeps(before);
      forall x | x in ByPath(before) ensures x.parts != e.parts {
        assert x in multiset(before);
      }
      PlacedRises(ByPath(before), e);
    }
  }

  lemma LeastIsFirst(x: seq<Entry>, y: seq<Entry>)
    requires x != [] && Rising(x) && Rising(y) && multiset(x) == multiset(y)
    ensures y != [] && x[0] == y[0]
  {
    assert x[0] in multiset(y);
    assert y[0] in multiset(x);
    var i :| 0 <= i < |y| && y[i] == x[0];
    var j :| 0 <= j < |x| && x[j] == y[0];
    if i > 0 {
      assert PathLess(y[0].parts, x[0].parts);
      if j > 0 {
        PathTransitive(x[0].parts, y[0].parts, x[0].parts);
      }
      PathIrreflexive(x[0].parts);
    }
  }

  /** There is one way to put the same entries in rising order. */
  lemma {:induction false} RisingIsUnique(x: seq<Entry>, y: seq<Entry>)
    requires Rising(x) && Rising(y) && multiset(x) == multiset(y)
    ensures x == y
  {
    if x != [] {
      LeastIsFirst(x, y);
      assert x == [x[0]] + x[1..] && y == [y[0]] + y[1..];
      assert multiset(x[1..]) == multiset(x) - multiset{x[0]};
      assert multiset(y[1..]) == multiset(y) - multiset{y[0]};
      RisingIsUnique(x[1..], y[1..]);
    } else {
      assert |multiset(y)| == 0;
    }
  }

  /** The sorted walk does not depend on the order the file system gives. */
  lemma SortForgetsTheWalk(a: seq<Entry>, b: seq<Entry>)
    requires multiset(a) == multiset(b) && DistinctPaths(a) && DistinctPaths(b)
    ensures ByPath(a) == ByPath(b)
  {
    ByPathRises(a);
    ByPathRises(b);
    ByPathKeeps(a);
    ByPathKeeps(b);
    RisingIsUnique(ByPath(a), ByPath(b));
  }

  // ----- reading within a budget ------------------------------------------

  const MAX_FILES := 40
  const MAX_FILE_CHARS := 20000
  const MAX_TOTAL_CHARS := 120000
  const TRUNCATED := "\n\U{2026} truncated \U{2026}\n"

  datatype Shown = Shown(path: string, text: string)

  function Clipped(text: string): string {
    if |text| > MAX_FILE_CHARS then text[..MAX_FILE_CHARS] + TRUNCATED else text
  }

  predicate Wanted(e: Entry) {
    e.isFile && e.Interesting() && e.text.Some?
  }

  function ShownOf(e: Entry): Shown
    requires e.text.Some?
  {
    Shown(e.Path(), Clipped(e.text.value))
  }

  /** Every file that could be shown, in order. */
  function Candidates(entries: seq<Entry>): seq<Shown> {
    if entries == [] then []
    else
      var last := entries[|entries| - 1];
      Candidates(entries[..|entries| - 1]) + if Wanted(last) then [ShownOf(last)] else []
  }

  function Size(files: seq<Shown>): nat {
    if files == [] then 0 else Size(files[..|files| - 1]) + |files[|files| - 1].text|
  }

  predicate Full(files: seq<Shown>) {
    |files| >= MAX_FILES || Size(files) >= MAX_TOTAL_CHARS
  }

  lemma SizeAppend(files: seq<Shown>, f: Shown)
    ensures Size(files + [f]) == Size(files) + |f.text|
  {
    assert (files + [f])[..|files|] == files;
  }

  lemma CandidatesAppend(entries: seq<Entry>, i: nat)
    requires i < |entries|
    ensures Candidates(entries[..i + 1])
            == Candidates(entries[..i])
               + if Wanted(entries[i]) then [ShownOf(entries[i])] else []
  {
    assert entries[..i + 1][..i] == entries[..i];
  }

  lemma {:induction false} CandidatesPrefix(entries: seq<Entry>, i: nat)
    requires i <= |entries|
    ensures Candidates(entries[..i]) <= Candidates(entries)
    decreases |entries| - i
  {
    if i < |entries| {
      CandidatesAppend(entries, i);
      CandidatesPrefix(entries, i + 1);
    } else {
      assert entries[..i] == entries;
    }
  }

  lemma MarkerLength()
    ensures |TRUNCATED| == 15
  {
  }

  lemma ClippedIsBounded(text: string)
    ensures |Clipped(text)| <= MAX_FILE_CHARS + 15
  {
    MarkerLength();
  }

  ghost predicate Bounded(files: seq<Shown>) {
    forall i | 0 <= i < |files| :: |files[i].text| <= MAX_FILE_CHARS + 15
  }

  /** Files that stop once the budget is reached stay this far within it. */
  lemma StoppedInTime(files: seq<Shown>)
    requires files != [] ==> !Full(files[..|files| - 1])
    requires Bounded(files)
    ensures |files| <= MAX_FILES
    ensures Size(files) < MAX_TOTAL_CHARS + MAX_FILE_CHARS + 15
  {
  }

  /** What has been taken of the first `i` entries: every candidate, none of them too many. */
  ghost predicate Taken(shown: seq<Shown>, entries: seq<Entry>, i: nat)
    requires i <= |entries|
  {
    && shown == Candidates(entries[..i])
    && (shown != [] ==> !Full(shown[..|shown| - 1]))
    && Bounded(shown)
  }

  lemma TakenOneMore(shown: seq<Shown>, entries: seq<Entry>, i: nat)
    requires i < |entries| && Taken(shown, entries, i) && !Full(shown)
    ensures var e := entries[i];
      if Wanted(e)
      then Taken(shown + [ShownOf(e)], entries, i + 1) && Size(shown + [ShownOf(e)]) == Size(shown) + |ShownOf(e).text|
      else Taken(shown, entries, i + 1)
  {
    CandidatesAppend(entries, i);
    if Wanted(entries[i]) {
      var f := ShownOf(entries[i]);
      ClippedIsBounded(entries[i].text.value);
      SizeAppend(shown, f);
      assert (shown + [f])[..|shown|] == shown;
    }
  }

  /** The longest initial segment of the candidates, in path order, that stops once the budget
      is reached. */
  ghost predicate IsSnapshot(shown: seq<Shown>, walk: seq<Entry>) {
    var all := Candidates(ByPath(walk));
    && shown <= all
    && (shown == all || Full(shown))
    && (shown != [] ==> !Full(shown[..|shown| - 1]))
  }

  method ReadTree(walk: seq<Entry>) returns (shown: seq<Shown>)
    ensures IsSnapshot(shown, walk)
    ensures |shown| <= 40 && Size(shown) < 140015
    ensures shown == Candidates(ByPath(walk)) || |shown| == 40 || Size(shown) >= 120000
  {
    shown := TakeUntilFull(ByPath(walk));
  }

  method TakeUntilFull(entries: seq<Entry>) returns (shown: seq<Shown>)
    ensures shown <= Candidates(entries)
    ensures shown == Candidates(entries) || Full(shown)
    ensures shown != [] ==> !Full(shown[..|shown| - 1])
    ensures |shown| <= MAX_FILES
    ensures Size(shown) < MAX_TOTAL_CHARS + MAX_FILE_CHARS + 15
  {
    shown := [];
    var total := 0;
    for i := 0 to |entries|
      invariant total == Size(shown)
      invariant Taken(shown, entries, i)
    {
      if |shown| >= MAX_FILES || total >= MAX_TOTAL_CHARS {
        CandidatesPrefix(entries, i);
        StoppedInTime(shown);
        return;
      }
      TakenOneMore(shown, entries, i);
      var e := entries[i];
      if Wanted(e) {
        shown := shown + [ShownOf(e)];
        total := total + |ShownOf(e).text|;
      }
    }
    assert entries[..|entries|] == entries;
    StoppedInTime(shown);
  }

  // ----- which files, and what of them ------------------------------------

  /** `b` is `a` with its capitals made small, by number. */
  ghost predicate Smaller(a: string, b: string) {
    && |a| == |b|
    && forall i | 0 <= i < |a| :: b[i] as int == if 65 <= a[i] as int <= 90 then a[i] as int + 32 else a[i] as int
  }

  /** The endings an agent is not shown, and a name before them. */
  predicate SkippedEnding(s: string) {
    || s == ".pyc" || s == ".pyo" || s == ".so" || s == ".dylib" || s == ".dll" || s == ".zip" || s == ".gz"
    || s == ".tar" || s == ".whl" || s == ".png" || s == ".jpg" || s == ".jpeg" || s == ".gif" || s == ".svg"
    || s == ".ico" || s == ".pdf" || s == ".lock"
  }

  predicate SkippedDirectory(s: string) {
    || s == ".git" || s == "node_modules" || s == "__pycache__" || s == ".venv" || s == ".pytest_cache"
    || s == ".ruff_cache" || s == "dist" || s == "build" || s == ".mypy_cache" || s == ".tox"
  }

  lemma ListsExactly(s: string)
    ensures s in SKIP_SUFFIXES <==> SkippedEnding(s)
    ensures s in SKIP_DIRS <==> SkippedDirectory(s)
  {
  }

  lemma LowerCaseExactly(s: string)
    ensures Smaller(s, LowerCase(s))
  {
  }

  lemma {:induction false} LastIndexExactly(s: string, c: char)
    ensures var n := LastIndexOf(s, c);
      && (n >= 0 ==> s[n] == c)
      && forall i | n < i < |s| :: s[i] != c
  {
    if s != "" && s[|s| - 1] != c {
      LastIndexExactly(s[..|s| - 1], c);
    }
  }

  /** A name of at least one character before one of the endings, in capitals or not. */
  ghost predicate EndsSkipped(name: string) {
    exists k :: 0 < k < |name| && SkippedEnding(LowerCase(name[k..]))
  }

  lemma EndingsShape(s: string)
    requires SkippedEnding(s)
    ensures |s| > 1 && s[0] == '.' && forall i | 1 <= i < |s| :: s[i] != '.'
  {
  }

  lemma SuffixExactly(name: string)
    ensures SkippedEnding(LowerCase(Suffix(name))) <==> EndsSkipped(name)
  {
    var n := LastIndexOf(name, '.');
    LastIndexExactly(name, '.');
    if SkippedEnding(LowerCase(Suffix(name))) {
      EndingsShape(LowerCase(Suffix(name)));
      assert Suffix(name) == name[n..];
    }
    if k :| 0 < k < |name| && SkippedEnding(LowerCase(name[k..])) {
      DotBeforeTheEnding(name, k);
    }
  }

  lemma DotBeforeTheEnding(name: string, k: nat)
    requires 0 < k < |name| && SkippedEnding(LowerCase(name[k..]))
    ensures LastIndexOf(name, '.') == k && k < |name| - 1
  {
    var ending := LowerCase(name[k..]);
    EndingsShape(ending);
    LastIndexExactly(name, '.');
    LowerCaseExactly(name[k..]);
    assert name[k] == name[k..][0] && ending[0] == '.';
    forall i | k < i < |name| ensures name[i] != '.' {
      assert name[i] == name[k..][i - k] && ending[i - k] != '.';
    }
  }

  /** An entry is shown, as long as there is room, exactly when it is a file that can be read, none
      of its components is a skipped directory's name, and its own name has no skipped ending. */
  lemma WantedExactly(e: Entry)
    requires e.parts != []
    ensures Wanted(e)
            <==> && e.isFile && e.text.Some?
                 && (forall i | 0 <= i < |e.parts| :: !SkippedDirectory(e.parts[i]))
                 && !EndsSkipped(e.parts[|e.parts| - 1])
  {
    SuffixExactly(e.parts[|e.parts| - 1]);
    ListsExactly(LowerCase(Suffix(e.parts[|e.parts| - 1])));
    forall i | 0 <= i < |e.parts| ensures e.parts[i] in SKIP_DIRS <==> SkippedDirectory(e.parts[i]) {
      ListsExactly(e.parts[i]);
    }
  }

  /** What is shown of it: its path, a slash between each two components, and its text, whole or,
      past twenty thousand characters, so many of them and a mark that the rest is missing. */
  lemma ShownExactly(e: Entry)
    requires e.parts != [] && e.text.Some? && forall i | 0 <= i < |e.parts| :: '/' !in e.parts[i]
    ensures var shown, text := ShownOf(e), e.text.value;
      && DiffWrite.Components(shown.path) == e.parts
      && (|text| <= 20000 ==> shown.text == text)
      && (|text| > 20000 ==> shown.text == text[..20000] + "\n\U{2026} truncated \U{2026}\n")
  {
    PathReadsBack(e.parts);
  }

  lemma {:induction false} PathReadsBack(parts: seq<string>)
    requires parts != [] && forall i | 0 <= i < |parts| :: '/' !in parts[i]
    ensures DiffWrite.Components(JoinPath(parts)) == parts
  {
    DiffPaths.OneComponent(parts[0]);
    if |parts| > 1 {
      PathReadsBack(parts[1..]);
      DiffPaths.ComponentsConcat(parts[0], JoinPath(parts[1..]));
      assert parts == [parts[0]] + parts[1..];
    } else {
      assert parts == [parts[0]];
    }
  }

  // ----- one repository, one snapshot -------------------------------------

  lemma {:induction false} SizeGrows(files: seq<Shown>, k: nat)
    requires k <= |files|
    ensures Size(files[..k]) <= Size(files)
  {
    var n := |files|;
    if k < n {
      SizeGrows(files[..n - 1], k);
      assert files[..n - 1][..k] == files[..k];
    } else {
      assert files[..k] == files;
    }
  }

  lemma NoShorterSnapshot(x: seq<Shown>, y: seq<Shown>, walk: seq<Entry>)
    requires IsSnapshot(x, walk) && IsSnapshot(y, walk)
    ensures |x| >= |y|
  {
    if |x| < |y| {
      var less := y[..|y| - 1];
      assert x == less[..|x|];
      SizeGrows(less, |x|);
    }
  }

  /** Two reads of the same files give the same snapshot, text for text and in the same order,
      whatever order the file system lists them in. */
  lemma SnapshotIsDeterministic(a: seq<Entry>, b: seq<Entry>, x: seq<Shown>, y: seq<Shown>)
    requires multiset(a) == multiset(b) && DistinctPaths(a) && DistinctPaths(b)
    requires IsSnapshot(x, a) && IsSnapshot(y, b)
    ensures x == y
  {
    SortForgetsTheWalk(a, b);
    NoShorterSnapshot(x, y, a);
    NoShorterSnapshot(y, x, a);
  }
}
