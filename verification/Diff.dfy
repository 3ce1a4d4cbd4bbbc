/** agentorg/common/diff.py: what a unified diff proposes, file by file.

    The reader is specified without its state. `Sections` cuts the lines at the `+++`
    headers, `Kept` says which lines of a section are part of the change, and
    `Parsed` is the dictionary the sections amount to. `AddedFiles` is the one-pass
    loop, proved to compute exactly that. */
module Diff {
  import opened Prelude
  import opened Text

  const PATH_PREFIXES: set<string> := {"a", "b", "i", "w", "c", "o", "1", "2", "3", "old", "new"}

  const ABSENT := "/dev/null"

  // ----- header lines -----------------------------------------------------

  predicate IsHeader(line: string) {
    "+++ " <= line
  }

  /** The text of a `+++` line that names the file: up to the first tab, stripped. */
  function Target(line: string): string {
    var rest := if |line| < 4 then "" else line[4..];
    Strip(rest[..IndexOf(rest, '\t')])
  }

  predicate Quoted(target: string) {
    |target| >= 2 && target[0] == '"' && target[|target| - 1] == '"'
  }

  function Unquote(target: string): string {
    if Quoted(target) then target[1..|target| - 1] else target
  }

  /** What precedes and what follows the first `/`. */
  function Head(path: string): string {
    path[..IndexOf(path, '/')]
  }

  function Rest(path: string): string {
    var n := IndexOf(path, '/');
    if n < |path| then path[n + 1..] else ""
  }

  function DropPrefix(path: string): string {
    if Head(path) in PATH_PREFIXES && Rest(path) != "" then Rest(path) else path
  }

  function HeaderPath(line: string): Option<string> {
    var target := Unquote(Target(line));
    if target == "" || target == ABSENT then None else Some(DropPrefix(target))
  }

  /** A header the reader understood: it names a file, or names the absent file. */
  predicate Recognised(line: string) {
    HeaderPath(line).Some? || Contains(line, ABSENT)
  }

  // ----- body lines -------------------------------------------------------

  predicate IsMeta(line: string) {
    || "\\" <= line || "@@" <= line || "--- " <= line || "diff " <= line || "index " <= line
    || "new file mode" <= line || "deleted file mode" <= line || "old mode" <= line || "new mode" <= line
    || "similarity index" <= line || "dissimilarity index" <= line || "rename from" <= line
    || "rename to" <= line || "copy from" <= line || "copy to" <= line || "Binary files" <= line
  }

  predicate IsAdded(line: string) {
    "+" <= line && !("+++" <= line)
  }

  predicate IsHunk(line: string) {
    "@@" <= line
  }

  predicate Unmarked(line: string, inRun: bool) {
    if Blank(line) || IsMeta(line) || "+" <= line || "-" <= line then false else line[0] != ' ' || inRun
  }

  /** A line with no marker at all: not diff syntax, and not indented either. */
  predicate Bare(line: string) {
    Unmarked(line, false)
  }

  /** Some line above `j` in the same hunk carries no marker at all. */
  ghost predicate AfterBare(raw: seq<string>, j: nat)
    requires j <= |raw|
  {
    exists k :: 0 <= k < j && Bare(raw[k]) && forall m | k < m < j :: !IsHunk(raw[m])
  }

  /** Line `j` of a section is part of the change. */
  ghost predicate InChange(raw: seq<string>, j: nat)
    requires j < |raw|
  {
    IsAdded(raw[j]) || Unmarked(raw[j], AfterBare(raw, j))
  }

  function Stripped(line: string): string {
    if IsAdded(line) then line[1..] else line
  }

  /** The lines of a section that are in the change, in order, without their `+`. */
  ghost function Kept(raw: seq<string>): (kept: seq<string>)
    ensures |kept| <= |raw|
  {
    if raw == [] then []
    else
      var last := |raw| - 1;
      Kept(raw[..last]) + if InChange(raw, last) then [Stripped(raw[last])] else []
  }

  // ----- sections ---------------------------------------------------------

  /** What one header opens: the file it names, if any, and the lines up to the next one. */
  datatype Section = Section(path: Option<string>, understood: bool, raw: seq<string>)

  function Opened(header: string): Section {
    Section(HeaderPath(header), Recognised(header), [])
  }

  /** The sections after one more line that is not a header. */
  function Grown(s: seq<Section>, line: string): seq<Section> {
    if s == [] then [] else s[..|s| - 1] + [s[|s| - 1].(raw := s[|s| - 1].raw + [line])]
  }

  function Extended(s: seq<Section>, line: string): seq<Section> {
    if IsHeader(line) then s + [Opened(line)] else Grown(s, line)
  }

  /** The diff cut at its headers; what comes before the first one belongs to no file. */
  function Sections(lines: seq<string>): seq<Section> {
    if lines == [] then [] else Extended(Sections(lines[..|lines| - 1]), lines[|lines| - 1])
  }

  /** Closing a section: a repeated path keeps its last body. */
  ghost function Closed(files: Dict<string, string>, s: Section): Dict<string, string> {
    if s.path.Some? then files.Put(s.path.value, Join(Kept(s.raw))) else files
  }

  ghost function FilesOf(s: seq<Section>): Dict<string, string> {
    if s == [] then EmptyDict() else Closed(FilesOf(s[..|s| - 1]), s[|s| - 1])
  }

  ghost predicate Understood(sections: seq<Section>) {
    exists i | 0 <= i < |sections| :: sections[i].understood
  }

  /** What `added_files` answers. */
  ghost function Parsed(diff: string): Result<Dict<string, string>> {
    if Understood(Sections(SplitLines(diff))) || Blank(diff)
    then Ok(FilesOf(Sections(SplitLines(diff))))
    else Raised
  }

  // ----- the reader -------------------------------------------------------

  lemma AfterBareStep(raw: seq<string>, line: string)
    ensures AfterBare(raw + [line], |raw| + 1)
            <==> Bare(line) || (!IsHunk(line) && AfterBare(raw, |raw|))
  {
    var longer := raw + [line];
    if Bare(line) {
      assert Bare(longer[|raw|]);
    } else if AfterBare(longer, |raw| + 1) {
      var k :| 0 <= k < |raw| + 1 && Bare(longer[k]) && forall m | k < m < |raw| + 1 :: !IsHunk(longer[m]);
      assert k < |raw| && raw[k] == longer[k];
      assert !IsHunk(longer[|raw|]);
      assert forall m | k < m < |raw| :: raw[m] == longer[m];
    } else if !IsHunk(line) && AfterBare(raw, |raw|) {
      var k :| 0 <= k < |raw| && Bare(raw[k]) && forall m | k < m < |raw| :: !IsHunk(raw[m]);
      assert longer[k] == raw[k];
      forall m | k < m < |raw| + 1 ensures !IsHunk(longer[m]) {
        if m < |raw| { assert longer[m] == raw[m]; }
      }
    }
  }

  lemma AfterBarePrefix(raw: seq<string>, more: seq<string>, j: nat)
    requires j <= |raw|
    ensures AfterBare(raw + more, j) <==> AfterBare(raw, j)
  {
    var longer := raw + more;
    assert forall k | 0 <= k < j :: longer[k] == raw[k];
  }

  lemma KeptStep(raw: seq<string>, line: string)
    ensures Kept(raw + [line])
            == Kept(raw) + if IsAdded(line) || Unmarked(line, AfterBare(raw, |raw|)) then [Stripped(line)] else []
  {
    var longer := raw + [line];
    assert longer[..|longer| - 1] == raw;
    AfterBarePrefix(raw, [line], |raw|);
  }

  lemma UnderstoodAppend(s: seq<Section>, next: Section)
    ensures Understood(s + [next]) <==> Understood(s) || next.understood
  {
    var longer := s + [next];
    assert longer[|s|] == next;
    assert forall i | 0 <= i < |s| :: longer[i] == s[i];
  }

  lemma SectionsOfAppended(lines: seq<string>, line: string)
    ensures Sections(lines + [line]) == Extended(Sections(lines), line)
  {
    assert (lines + [line])[..|lines|] == lines;
  }

  lemma UnderstoodGrown(s: seq<Section>, line: string)
    ensures Understood(Grown(s, line)) <==> Understood(s)
  {
    assert forall i | 0 <= i < |s| :: Grown(s, line)[i].understood == s[i].understood;
  }

  /** What the loop's variables hold once the lines making up `s` have been read. */
  ghost predicate Reading(s: seq<Section>, files: Dict<string, string>, current: Option<string>, body: seq<string>,
                          inRun: bool, recognised: int)
  {
    && 0 <= recognised
    && (recognised > 0 <==> Understood(s))
    && if s == [] then current == None && files == EmptyDict()
    else
      var last := s[|s| - 1];
      && current == last.path
      && files == FilesOf(s[..|s| - 1])
      && (current.Some? ==> body == Kept(last.raw) && inRun == AfterBare(last.raw, |last.raw|))
  }

  /** What the reader does to its dictionary at a new header and at the end of the diff. */
  function Flushed(files: Dict<string, string>, current: Option<string>, body: seq<string>): Dict<string, string> {
    if current.Some? then files.Put(current.value, Join(body)) else files
  }

  lemma FlushedIsFilesOf(s: seq<Section>, files: Dict<string, string>, current: Option<string>, body: seq<string>,
                         inRun: bool, recognised: int)
    requires Reading(s, files, current, body, inRun, recognised)
    ensures Flushed(files, current, body) == FilesOf(s)
  {
  }

  lemma HeaderStep(s: seq<Section>, files: Dict<string, string>, current: Option<string>, body: seq<string>,
                   inRun: bool, recognised: int, next: Section)
    requires Reading(s, files, current, body, inRun, recognised)
    requires next.raw == []
    ensures Reading(s + [next], Flushed(files, current, body), next.path, [], false,
                    recognised + if next.understood then 1 else 0)
  {
    UnderstoodAppend(s, next);
    var longer := s + [next];
    assert longer[..|longer| - 1] == s;
    FlushedIsFilesOf(s, files, current, body, inRun, recognised);
  }

  lemma LineKinds(line: string, inRun: bool)
    ensures IsAdded(line) ==> !IsHunk(line) && !Unmarked(line, inRun)
    ensures IsHunk(line) ==> !Unmarked(line, inRun)
  {
    if IsHunk(line) {
      assert line[0] == "@@"[0];
    }
  }

  lemma RawStep(raw: seq<string>, body: seq<string>, inRun: bool, line: string)
    requires body == Kept(raw) && inRun == AfterBare(raw, |raw|)
    ensures Kept(raw + [line])
            == if IsAdded(line) then body + [line[1..]] else if Unmarked(line, inRun) then body + [line] else body
    ensures AfterBare(raw + [line], |raw| + 1) == if IsHunk(line) then false else inRun || Unmarked(line, inRun)
  {
    KeptStep(raw, line);
    AfterBareStep(raw, line);
  }

  lemma BodyStep(s: seq<Section>, files: Dict<string, string>, current: Option<string>, body: seq<string>,
                 inRun: bool, recognised: int, line: string, body': seq<string>, inRun': bool)
    requires Reading(s, files, current, body, inRun, recognised)
    requires current.Some? ==>
               body' == body + if IsAdded(line) then [line[1..]] else if Unmarked(line, inRun) then [line] else []
    requires current.Some? ==> inRun' == (!IsHunk(line) && (inRun || Unmarked(line, inRun)))
    ensures Reading(Grown(s, line), files, current, body', inRun', recognised)
  {
    UnderstoodGrown(s, line);
    if s != [] {
      var last := s[|s| - 1];
      var g := Grown(s, line);
      assert g[..|g| - 1] == s[..|s| - 1];
      assert g[|g| - 1] == last.(raw := last.raw + [line]);
      if current.Some? {
        RawStep(last.raw, body, inRun, line);
      }
    }
  }

  /** One line of the diff, as the loop treats it. */
  lemma LineStep(s: seq<Section>, files: Dict<string, string>, current: Option<string>, body: seq<string>,
                 inRun: bool, recognised: int, line: string, body': seq<string>, inRun': bool)
    requires Reading(s, files, current, body, inRun, recognised)
    requires !IsHeader(line) ==>
               body' == if IsAdded(line) then body + [line[1..]]
                        else if !IsHunk(line) && current.Some? && Unmarked(line, inRun) then body + [line] else body
    requires !IsHeader(line) ==>
               inRun' == if IsAdded(line) then inRun else if IsHunk(line) then false
                         else inRun || (current.Some? && Unmarked(line, inRun))
    ensures if IsHeader(line)
            then Reading(Extended(s, line), Flushed(files, current, body), HeaderPath(line), [], false,
                         recognised + if Recognised(line) then 1 else 0)
            else Reading(Extended(s, line), files, current, body', inRun', recognised)
  {
    if IsHeader(line) {
      HeaderStep(s, files, current, body, inRun, recognised, Opened(line));
    } else {
      LineKinds(line, inRun);
      BodyStep(s, files, current, body, inRun, recognised, line, body', inRun');
    }
  }

  /** The loop of `added_files`: one pass over the lines of the diff. */
  method ReadLines(lines: seq<string>) returns (files: Dict<string, string>, recognisedHeaders: nat)
    ensures files == FilesOf(Sections(lines))
    ensures recognisedHeaders > 0 <==> Understood(Sections(lines))
  {
    files := EmptyDict();
    var current: Option<string> := None;
    var body: seq<string> := [];
    recognisedHeaders := 0;
    var inRun := false;
    for i := 0 to |lines|
      invariant Reading(Sections(lines[..i]), files, current, body, inRun, recognisedHeaders)
    {
      var line := lines[i];
      ghost var s, before, wasInRun := Sections(lines[..i]), body, inRun;
      SectionsOfAppended(lines[..i], line);
      assert lines[..i] + [line] == lines[..i + 1];
      if IsHeader(line) {
        LineStep(s, files, current, body, inRun, recognisedHeaders, line, body, inRun);
        inRun := false;
        if current.Some? {
          files := files.Put(current.value, Join(body));
        }
        var relative := HeaderPath(line);
        if relative.Some? || Contains(line, ABSENT) {
          recognisedHeaders := recognisedHeaders + 1;
        }
        current := relative;
        body := [];
      } else {
        if IsAdded(line) {
          body := body + [line[1..]];
        } else if IsHunk(line) {
          inRun := false;
        } else if current.Some? && Unmarked(line, inRun) {
          body := body + [line];
          inRun := true;
        }
        LineStep(s, files, current, before, wasInRun, recognisedHeaders, line, body, inRun);
      }
    }
    assert lines[..|lines|] == lines;
    FlushedIsFilesOf(Sections(lines), files, current, body, inRun, recognisedHeaders);
    if current.Some? {
      files := files.Put(current.value, Join(body));
    }
  }

  method AddedFiles(diff: string) returns (r: Result<Dict<string, string>>)
    ensures r == Parsed(diff)
  {
    var files, recognisedHeaders := ReadLines(SplitLines(diff));
    if recognisedHeaders == 0 && !Blank(diff) {
      return Raised;
    }
    return Ok(files);
  }
}
