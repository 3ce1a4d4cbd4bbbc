/** agentorg/timeline.py: whether the block reason reached anyone, read off the halt row. */
module Delivery {
  import opened Prelude
  import opened Text
  import opened State
  import opened Wording

  datatype DeliveryNote = Posted | WrittenLocally | NotReported | Unrecognised

  const REF_MARKER := "block reason "

  /** Where `needle` first stands in `s`, or `|s|`. */
  function Find(s: string, needle: string): (n: nat)
    ensures n <= |s|
  {
    if s == "" || needle <= s then 0 else 1 + Find(s[1..], needle)
  }

  /** The first word, `s.split()[0]`, or nothing. */
  function FirstWord(s: string): string {
    TakeWord(StripLeft(s))
  }

  function TakeWord(s: string): string {
    if s == "" || IsSpace(s[0]) then "" else [s[0]] + TakeWord(s[1..])
  }

  /** The first word after the marker, if the marker stands there at all. */
  function WordAfter(summary: string, marker: string): string {
    var n := Find(summary, marker);
    if marker <= summary[n..] then FirstWord(summary[n + |marker|..]) else ""
  }

  function RefFromSummary(summary: string): string {
    WordAfter(summary, REF_MARKER)
  }

  function Scheme(ref: string): string {
    ref[..Find(ref, "://")]
  }

  function NoteOf(ref: string): DeliveryNote {
    match Scheme(ref)
    case "https" => Posted
    case "local" => WrittenLocally
    case "comment" => NotReported
    case _ => Unrecognised
  }

  /** Only the system's halt row says anything about delivery; the field is preferred, the
      sentence is what old rows have. */
  function Delivery(row: Row): Option<DeliveryNote> {
    if row.actor != Actor.System || row.stage != Stage.Security || row.action != Action.Blocked then None
    else
      var ref := if row.artifactRef != "" then row.artifactRef else RefFromSummary(row.summary);
      if ref == "" then None else Some(NoteOf(ref))
  }

  predicate NoSpace(s: string) {
    forall i | 0 <= i < |s| :: !IsSpace(s[i])
  }

  lemma {:induction false} FindInPrefix(a: string, b: string, needle: string)
    requires needle != "" && needle <= a[Find(a, needle)..]
    ensures Find(a + b, needle) == Find(a, needle)
  {
    if needle <= a {
      assert needle <= a + b;
    } else {
      assert (a + b)[1..] == a[1..] + b;
      assert a != "";
      assert a[Find(a, needle)..] == a[1..][Find(a[1..], needle)..];
      FoundWithin(a, needle);
      assert (a + b)[..|needle|] == a[..|needle|];
      FindInPrefix(a[1..], b, needle);
    }
  }

  lemma FoundWithin(a: string, needle: string)
    requires needle <= a[Find(a, needle)..]
    ensures |needle| <= |a|
  {
  }

  lemma {:induction false} TakeWordHasNoSpace(s: string)
    ensures NoSpace(TakeWord(s))
    ensures NoSpace(s) ==> TakeWord(s) == s
  {
    if s != "" && !IsSpace(s[0]) {
      TakeWordHasNoSpace(s[1..]);
      assert NoSpace(s) ==> NoSpace(s[1..]);
    } else if s != "" {
      assert !NoSpace(s);
    }
  }

  lemma {:induction false} FindSkips(a: string, b: string, needle: string)
    requires needle != "" && forall i | 0 <= i < |a| :: a[i] != needle[0]
    ensures Find(a + b, needle) == |a| + Find(b, needle)
  {
    if a == "" {
      assert a + b == b;
    } else {
      assert (a + b)[1..] == a[1..] + b;
      assert (a + b)[0] == a[0];
      FindSkips(a[1..], b, needle);
    }
  }

  lemma FindSteps(s: string, needle: string, k: nat)
    requires k < |needle| && k < |s| && s[k] != needle[k]
    ensures Find(s, needle) == 1 + Find(s[1..], needle)
  {
  }

  /** A marker that ends a sentence and stands nowhere else in it is found there. */
  lemma ReadBackAfter(fixed: string, ref: string, marker: string)
    requires marker != "" && Find(fixed, marker) + |marker| == |fixed| && fixed[Find(fixed, marker)..] == marker
    ensures WordAfter(fixed + ref, marker) == FirstWord(ref)
  {
    var n := Find(fixed, marker);
    FindInPrefix(fixed, ref, marker);
    TailOfConcat(fixed, ref, n);
    TailOfConcat(fixed, ref, n + |marker|);
    assert fixed[n + |marker|..] + ref == ref;
  }

  lemma TailOfConcat(a: string, b: string, n: nat)
    requires n <= |a|
    ensures (a + b)[n..] == a[n..] + b
  {
  }

  // The words "by" and "block rule" open like the marker and are not it.

  lemma MarkerIsNotB()
    ensures forall i | 0 <= i < |"lock rule; "| :: "lock rule; "[i] != REF_MARKER[0]
    ensures REF_MARKER != ""
  {
  }

  lemma MarkerAfterBlockRule()
    ensures Find("block rule; " + REF_MARKER, REF_MARKER) == 12
  {
    var c := "block rule; " + REF_MARKER;
    assert c[7] == 'u' && REF_MARKER[7] == 'e';
    FindSteps(c, REF_MARKER, 7);
    assert c[1..] == "lock rule; " + REF_MARKER;
    MarkerIsNotB();
    FindSkips("lock rule; ", REF_MARKER, REF_MARKER);
  }

  lemma MarkerAfterBy()
    ensures Find("by " + ("block rule; " + REF_MARKER), REF_MARKER) == 15
  {
    var c := "block rule; " + REF_MARKER;
    var b := "by " + c;
    MarkerAfterBlockRule();
    assert b[1] == 'y' && REF_MARKER[1] == 'l';
    FindSteps(b, REF_MARKER, 1);
    assert b[1..] == "y " + c;
    FindSkips("y ", c, REF_MARKER);
  }

  function FixedPart(): string {
    "pipeline halted " + ("by " + ("block rule; " + REF_MARKER))
  }

  lemma MarkerInFixedPart()
    ensures Find(FixedPart(), REF_MARKER) == 31 && |FixedPart()| == 31 + |REF_MARKER|
  {
    MarkerAfterBy();
    FindSkips("pipeline halted ", "by " + ("block rule; " + REF_MARKER), REF_MARKER);
  }

  lemma FixedPartEndsInMarker()
    ensures FixedPart()[31..] == REF_MARKER
  {
    var b := "by " + ("block rule; " + REF_MARKER);
    assert ("pipeline halted " + b)[31..] == b[15..];
    assert b[15..] == ("block rule; " + REF_MARKER)[12..];
  }

  lemma HaltSentence(ref: string)
    ensures HaltSummary(ref) == FixedPart() + ref
  {
    assert HaltSummary(ref) == "pipeline halted by block rule; block reason " + ref;
    assert FixedPart() == "pipeline halted by block rule; block reason ";
  }

  /** Reading the ref back out of the halt sentence gives the ref that went in, exactly when
      it is a single word. */
  lemma RefReadBack(ref: string)
    ensures RefFromSummary(HaltSummary(ref)) == ref <==> NoSpace(ref)
  {
    HaltSentence(ref);
    MarkerInFixedPart();
    FixedPartEndsInMarker();
    ReadBackAfter(FixedPart(), ref, REF_MARKER);
    FirstWordIsWhole(ref);
  }

  lemma FirstWordIsWhole(s: string)
    ensures FirstWord(s) == s <==> NoSpace(s)
  {
    TakeWordHasNoSpace(StripLeft(s));
    if NoSpace(s) {
      assert StripLeft(s) == s;
    }
  }

  /** So a row logged before the field existed tells the same delivery as one logged after. */
  lemma OldRowsTellTheSame(row: Row)
    requires row.summary == HaltSummary(row.artifactRef) && NoSpace(row.artifactRef)
    ensures Delivery(row) == Delivery(row.(artifactRef := ""))
  {
    RefReadBack(row.artifactRef);
  }

  // ----- what a delivery is taken for -------------------------------------

  /** A reference of this scheme: the scheme alone, or the scheme and `://` before the rest. */
  predicate HasScheme(ref: string, scheme: string) {
    ref == scheme || scheme + "://" <= ref
  }

  /** Nothing is found before the place, and the needle stands there if it stands anywhere. */
  lemma {:induction false} FindIsFirst(s: string, needle: string)
    requires needle != ""
    ensures var n := Find(s, needle);
      && (n < |s| ==> needle <= s[n..])
      && forall i | 0 <= i < n :: !(needle <= s[i..])
  {
    if s != "" && !(needle <= s) {
      FindIsFirst(s[1..], needle);
      var n := Find(s[1..], needle);
      assert s[1..][n..] == s[n + 1..];
      forall i | 0 <= i < n + 1 ensures !(needle <= s[i..]) {
        if i > 0 {
          assert s[1..][i - 1..] == s[i..];
        } else {
          assert s[0..] == s;
        }
      }
    }
  }

  lemma SchemeExactly(ref: string, scheme: string)
    requires ':' !in scheme
    ensures Scheme(ref) == scheme <==> HasScheme(ref, scheme)
  {
    var n := Find(ref, "://");
    FindIsFirst(ref, "://");
    if n < |ref| {
      PrefixThrough(ref, n);
    } else {
      assert ref[..n] == ref;
    }
    if HasScheme(ref, scheme) {
      FindAtScheme(ref, scheme);
    }
  }

  lemma PrefixThrough(ref: string, n: nat)
    requires n <= |ref| && "://" <= ref[n..]
    ensures ref[..n] + "://" <= ref
  {
    var opening := ref[..n] + "://";
    forall i | 0 <= i < |opening| ensures ref[i] == opening[i] {
      if i >= n {
        assert ref[i] == ref[n..][i - n];
      }
    }
  }

  lemma FindAtScheme(ref: string, scheme: string)
    requires ':' !in scheme && HasScheme(ref, scheme)
    ensures Find(ref, "://") == |scheme| && ref[..|scheme|] == scheme
  {
    var rest := ref[|scheme|..];
    assert ref == scheme + rest;
    assert forall i | 0 <= i < |scheme| :: scheme[i] in scheme;
    FindSkips(scheme, rest, "://");
    if scheme + "://" <= ref {
      PrefixBehind(ref, scheme);
    }
  }

  lemma PrefixBehind(ref: string, scheme: string)
    requires scheme + "://" <= ref
    ensures "://" <= ref[|scheme|..]
  {
    var opening := scheme + "://";
    assert forall i | 0 <= i < 3 :: ref[|scheme|..][i] == opening[|scheme| + i];
  }

  lemma SchemesHaveNoColon()
    ensures ':' !in "https" && ':' !in "local" && ':' !in "comment"
    ensures "https" != "local" && "local" != "comment" && "https" != "comment"
  {
    assert "https"[0] == 'h' && "local"[0] == 'l' && "comment"[0] == 'c';
  }

  /** What a reference tells: posted, written to the notes file, not reported, or nothing known. */
  lemma NoteExactly(ref: string)
    ensures NoteOf(ref) == Posted <==> HasScheme(ref, "https")
    ensures NoteOf(ref) == WrittenLocally <==> HasScheme(ref, "local")
    ensures NoteOf(ref) == NotReported <==> HasScheme(ref, "comment")
    ensures NoteOf(ref) == Unrecognised
            <==> !HasScheme(ref, "https") && !HasScheme(ref, "local") && !HasScheme(ref, "comment")
  {
    SchemesHaveNoColon();
    SchemeExactly(ref, "https");
    SchemeExactly(ref, "local");
    SchemeExactly(ref, "comment");
  }

  /** A halt row with no reference and no marker in its words tells nothing. */
  lemma NoMarkerTellsNothing(row: Row)
    requires row.artifactRef == "" && forall i | 0 <= i <= |row.summary| :: !("block reason " <= row.summary[i..])
    ensures Delivery(row) == None
  {
    var n := Find(row.summary, REF_MARKER);
    assert !("block reason " <= row.summary[n..]);
  }

  /** Only the system's own halt row tells anything: the security agent's block does not. */
  lemma OnlyTheHaltRowTells(row: Row)
    ensures Delivery(row).Some? ==> row.actor == Actor.System && row.stage == Stage.Security
                                    && row.action == Action.Blocked
    ensures (row.actor == Actor.System && row.stage == Stage.Security && row.action == Action.Blocked
             && row.artifactRef != "") ==> Delivery(row) == Some(NoteOf(row.artifactRef))
  {
  }
}
