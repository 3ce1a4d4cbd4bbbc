/** agentorg/repo_snapshot.py: the repository the agents are shown, as a diff would leave it.

    `RemovedLines` is a second reader of the diff format, with header handling of its own. */
module Snapshot {
  import opened Prelude
  import opened Text
  import opened Diff

  // ----- the second header reader -----------------------------------------

  const LISTED_PREFIXES: set<string> := {"a", "b", "i", "w", "c", "o", "old", "new"}

  predicate HasSlash(path: string) {
    IndexOf(path, '/') < |path|
  }

  /** A listed prefix and its slash are dropped, even from a path that is nothing else. */
  function DropListed(path: string): string {
    if HasSlash(path) && Head(path) in LISTED_PREFIXES then Rest(path) else path
  }

  /** The file a header's `-` lines belong to. */
  function RemovalPath(header: string): Option<string> {
    var path := DropListed(Target(header));
    if path == "" || path == ABSENT then None else Some(path)
  }

  // ----- what a diff removes ----------------------------------------------

  predicate IsRemoval(line: string) {
    "-" <= line && !("---" <= line)
  }

  /** The file the lines after these belong to. */
  function Current(lines: seq<string>): Option<string> {
    if lines == [] then None
    else
      var last := lines[|lines| - 1];
      if IsHeader(last) then RemovalPath(last) else Current(lines[..|lines| - 1])
  }

  /** The stripped text of every line the diff removes from a file. */
  function Removals(lines: seq<string>, path: string): set<string> {
    if lines == [] then {}
    else
      var before, last := lines[..|lines| - 1], lines[|lines| - 1];
      Removals(before, path)
      + if !IsHeader(last) && IsRemoval(last) && Current(before) == Some(path) then {Strip(last[1..])} else {}
  }

  function SetAt(m: map<string, set<string>>, path: string): set<string> {
    if path in m then m[path] else {}
  }

  lemma RemovalsAppend(lines: seq<string>, line: string, path: string)
    ensures Removals(lines + [line], path)
            == Removals(lines, path)
               + if !IsHeader(line) && IsRemoval(line) && Current(lines) == Some(path) then {Strip(line[1..])} else {}
    ensures Current(lines + [line]) == if IsHeader(line) then RemovalPath(line) else Current(lines)
  {
    assert (lines + [line])[..|lines|] == lines;
  }

  ghost predicate Collected(removed: map<string, set<string>>, lines: seq<string>) {
    forall path :: SetAt(removed, path) == Removals(lines, path) && (path in removed <==> Removals(lines, path) != {})
  }

  lemma CollectedLine(removed: map<string, set<string>>, lines: seq<string>, line: string,
                      next: map<string, set<string>>)
    requires Collected(removed, lines)
    requires var current := Current(lines);
      next == if !IsHeader(line) && IsRemoval(line) && current.Some?
              then removed[current.value := SetAt(removed, current.value) + {Strip(line[1..])}] else removed
    ensures Collected(next, lines + [line])
  {
    forall path
      ensures SetAt(next, path) == Removals(lines + [line], path)
      ensures path in next <==> Removals(lines + [line], path) != {}
    {
      RemovalsAppend(lines, line, path);
      assert SetAt(removed, path) == Removals(lines, path);
    }
  }

  method RemovedLines(diff: string) returns (removed: map<string, set<string>>)
    ensures Collected(removed, SplitLines(diff))
  {
    var lines := SplitLines(diff);
    removed := map[];
    var current: Option<string> := None;
    for i := 0 to |lines|
      invariant current == Current(lines[..i])
      invariant Collected(removed, lines[..i])
    {
      var line := lines[i];
      ghost var before := removed;
      assert lines[..i + 1] == lines[..i] + [line];
      RemovalsAppend(lines[..i], line, "");
      assert "+++" <= line ==> line[0] == '+';
      if IsHeader(line) {
        current := RemovalPath(line);
      } else if "---" <= line || "+++" <= line {
      } else if current.Some? && "-" <= line {
        removed := removed[current.value := SetAt(removed, current.value) + {Strip(line[1..])}];
      }
      CollectedLine(before, lines[..i], line, removed);
    }
    assert lines[..|lines|] == lines;
  }

  // ----- the file as the change leaves it ---------------------------------

  function Survivors(lines: seq<string>, gone: set<string>): seq<string> {
    if lines == [] then []
    else
      var last := lines[|lines| - 1];
      Survivors(lines[..|lines| - 1], gone) + if Strip(last) in gone then [] else [last]
  }

  function AddsMarker(path: string): string {
    "# ---- lines this diff ADDS to " + path + " ----"
  }

  function AddedPart(path: string, added: string): seq<string> {
    if added == "" then [] else [AddsMarker(path)] + SplitLines(added)
  }

  function LinesAfter(path: string, text: string, added: string, gone: set<string>): seq<string> {
    Survivors(SplitLines(text), gone) + AddedPart(path, added)
  }

  function TextAt(files: map<string, string>, path: string): string {
    if path in files then files[path] else ""
  }

  function Rewritten(path: string, text: string, added: string, gone: set<string>): string {
    Join(LinesAfter(path, text, added, gone)) + "\n"
  }

  datatype Change = Change(added: map<string, string>, removed: map<string, set<string>>) {
    function Touched(): set<string> {
      added.Keys + removed.Keys
    }

    /** One touched file; a file the repository does not have is its added lines. */
    function Patched(path: string, files: map<string, string>): string {
      if path !in files then TextAt(added, path)
      else Rewritten(path, files[path], TextAt(added, path), SetAt(removed, path))
    }
  }

  /** The repository with the files in `done` patched and the others as they were. */
  ghost predicate PatchedIn(out: map<string, string>, files: map<string, string>, change: Change, done: set<string>) {
    && out.Keys == files.Keys + done
    && (forall path | path in done :: path in out && out[path] == change.Patched(path, files))
    && (forall path | path in files && path !in done :: path in out && out[path] == files[path])
  }

  lemma PatchedOneMore(out: map<string, string>, files: map<string, string>, change: Change, done: set<string>,
                       path: string)
    requires PatchedIn(out, files, change, done)
    ensures PatchedIn(out[path := change.Patched(path, files)], files, change, done + {path})
  {
  }

  method PatchOne(out: map<string, string>, change: Change, path: string, ghost files: map<string, string>,
                  ghost done: set<string>)
    returns (next: map<string, string>)
    requires PatchedIn(out, files, change, done) && path !in done
    ensures PatchedIn(next, files, change, done + {path})
  {
    PatchedOneMore(out, files, change, done, path);
    assert path in out <==> path in files;
    if path !in out {
      return out[path := TextAt(change.added, path)];
    }
    return out[path := Rewritten(path, out[path], TextAt(change.added, path), SetAt(change.removed, path))];
  }

  /** The files are patched one at a time, in whatever order the set of paths gives. */
  method PatchAll(files: map<string, string>, change: Change) returns (out: map<string, string>)
    ensures PatchedIn(out, files, change, change.Touched())
  {
    out := files;
    ghost var touched := change.Touched();
    var todo := change.Touched();
    assert touched - todo == {};
    while todo != {}
      invariant todo <= touched
      invariant PatchedIn(out, files, change, touched - todo)
      decreases todo
    {
      var path :| path in todo;
      assert touched - (todo - {path}) == (touched - todo) + {path};
      out := PatchOne(out, change, path, files, touched - todo);
      todo := todo - {path};
    }
    assert touched - todo == touched;
  }

  /** What the repository looks like after the change. */
  ghost predicate PatchedBy(out: map<string, string>, files: map<string, string>, change: Change) {
    PatchedIn(out, files, change, change.Touched())
  }

  /** Best effort: a diff that is not there or cannot be read changes nothing. */
  method ApplyDiff(files: map<string, string>, diff: string) returns (out: map<string, string>)
    ensures diff == "" || Parsed(diff).Raised? ==> out == files
    ensures diff != "" && Parsed(diff).Ok? ==>
              exists removed :: Collected(removed, SplitLines(diff))
                                && PatchedBy(out, files, Change(Parsed(diff).value.at, removed))
  {
    if diff == "" {
      return files;
    }
    var parsed := AddedFiles(diff);
    if parsed.Raised? {
      return files;
    }
    var removed := RemovedLines(diff);
    out := PatchAll(files, Change(parsed.value.at, removed));
  }
}
