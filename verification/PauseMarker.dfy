/** Which sentences of the log the approval screen takes for a pause. */
module PauseMarker {
  import opened Prelude
  import opened Text
  import opened Wording
  import opened State

  predicate Marked(summary: string) {
    Contains(summary, PAUSE_MARKER)
  }

  lemma {:induction false} HoldsWhatItEndsWith(a: string, needle: string)
    ensures Contains(a + needle, needle)
  {
    if a == "" {
      assert a + needle == needle;
    } else {
      assert (a + needle)[1..] == a[1..] + needle;
      HoldsWhatItEndsWith(a[1..], needle);
    }
  }

  lemma {:induction false} TooShort(s: string, needle: string)
    requires |s| < |needle|
    ensures !Contains(s, needle)
  {
    if s != "" {
      TooShort(s[1..], needle);
    }
  }

  /** Nothing straddles a character the needle does not have. */
  lemma {:induction false} SplitAt(a: string, c: char, b: string, needle: string)
    requires needle != "" && c !in needle
    ensures Contains(a + [c] + b, needle) <==> Contains(a, needle) || Contains(b, needle)
  {
    var s := a + [c] + b;
    if a == "" {
      assert s[0] == c && s[1..] == b;
      assert needle[0] in needle;
    } else {
      assert s[1..] == a[1..] + [c] + b;
      SplitAt(a[1..], c, b, needle);
      assert needle <= s <==> needle <= a by {
        assert s[|a|] == c;
        assert |needle| > |a| ==> needle[|a|] in needle;
      }
    }
  }

  lemma NotFirst(c: char, b: string, needle: string)
    requires needle != "" && needle[0] != c
    ensures Contains([c] + b, needle) <==> Contains(b, needle)
  {
    assert ([c] + b)[1..] == b;
  }

  lemma {:induction false} NotLast(a: string, c: char, needle: string)
    requires needle != "" && needle[|needle| - 1] != c
    ensures Contains(a + [c], needle) <==> Contains(a, needle)
  {
    var s := a + [c];
    if a == "" {
      assert s[1..] == "";
    } else {
      assert s[1..] == a[1..] + [c];
      NotLast(a[1..], c, needle);
      assert needle <= s <==> needle <= a;
    }
  }

  lemma MarkerWords()
    ensures 'r' !in PAUSE_MARKER && 'R' !in PAUSE_MARKER && '/' !in PAUSE_MARKER && '-' !in PAUSE_MARKER
  {
  }

  lemma MarkerPunctuation()
    ensures '(' !in PAUSE_MARKER && ')' !in PAUSE_MARKER && ':' !in PAUSE_MARKER
  {
  }

  lemma MarkerLetters()
    ensures PAUSE_MARKER != "" && PAUSE_MARKER[0] == 'a' && PAUSE_MARKER[|PAUSE_MARKER| - 1] == 'n'
    ensures |PAUSE_MARKER| > 16
    ensures 'r' !in PAUSE_MARKER && 'R' !in PAUSE_MARKER && '/' !in PAUSE_MARKER && '-' !in PAUSE_MARKER
    ensures '(' !in PAUSE_MARKER && ')' !in PAUSE_MARKER && ':' !in PAUSE_MARKER
  {
    MarkerWords();
    MarkerPunctuation();
  }

  lemma PausesAreMarked(gate: GateName)
    ensures Marked(PausedAt(gate))
  {
    HoldsWhatItEndsWith("paused at " + GateWord(gate) + " ", PAUSE_MARKER);
  }

  lemma SpacedIsMarked(text: string)
    ensures Marked([' '] + text + [' ']) <==> Marked(text)
    ensures Marked([' '] + text) <==> Marked(text)
  {
    MarkerLetters();
    NotLast([' '] + text, ' ', PAUSE_MARKER);
    NotFirst(' ', text, PAUSE_MARKER);
  }

  /** "(trigger: ...)" holds the marker only if what triggered the run does. */
  lemma TriggerPart(trigger: string)
    ensures Marked("trigger" + [':'] + ([' '] + trigger + [')'] + "")) <==> Marked(trigger)
  {
    MarkerLetters();
    SplitAt("trigger", ':', [' '] + trigger + [')'] + "", PAUSE_MARKER);
    TooShort("trigger", PAUSE_MARKER);
    SplitAt([' '] + trigger, ')', "", PAUSE_MARKER);
    TooShort("", PAUSE_MARKER);
    SpacedIsMarked(trigger);
  }

  function AfterFor(ticketId: string, trigger: string): string {
    [' '] + ticketId + [' '] + ['('] + ("trigger" + [':'] + ([' '] + trigger + [')'] + ""))
  }

  lemma StartPart(ticketId: string, trigger: string)
    ensures Marked(AfterFor(ticketId, trigger)) <==> Marked(ticketId) || Marked(trigger)
  {
    MarkerLetters();
    SplitAt([' '] + ticketId + [' '], '(', "trigger" + [':'] + ([' '] + trigger + [')'] + ""), PAUSE_MARKER);
    SpacedIsMarked(ticketId);
    TriggerPart(trigger);
  }

  lemma StartSentence(ticketId: string, trigger: string)
    ensures StartedBy(ticketId, trigger) == "run started fo" + ['r'] + AfterFor(ticketId, trigger)
  {
  }

  /** The opening row of a run is taken for a pause exactly when its ticket or its trigger
      spells the marker out. */
  lemma StartIsMarked(ticketId: string, trigger: string)
    ensures Marked(StartedBy(ticketId, trigger)) <==> Marked(ticketId) || Marked(trigger)
  {
    StartSentence(ticketId, trigger);
    MarkerLetters();
    SplitAt("run started fo", 'r', AfterFor(ticketId, trigger), PAUSE_MARKER);
    TooShort("run started fo", PAUSE_MARKER);
    StartPart(ticketId, trigger);
  }

  lemma PrIsMarked(url: string)
    ensures Marked(PrAt(Some(url))) <==> Marked(url)
  {
    MarkerLetters();
    assert PrAt(Some(url)) == "P" + ['R'] + ([' '] + url);
    SplitAt("P", 'R', [' '] + url, PAUSE_MARKER);
    TooShort("P", PAUSE_MARKER);
    SpacedIsMarked(url);
  }

  lemma LocalIsMarked(ticketId: string, sha: string)
    ensures Marked("local://" + ("agent-org/" + ticketId + "-" + sha)) <==> Marked(ticketId) || Marked(sha)
  {
    MarkerLetters();
    var branch := ticketId + ['-'] + sha;
    assert "local://" + ("agent-org/" + ticketId + "-" + sha) == "local:/" + ['/'] + ("agent-org" + ['/'] + branch);
    SplitAt("local:/", '/', "agent-org" + ['/'] + branch, PAUSE_MARKER);
    SplitAt("agent-org", '/', branch, PAUSE_MARKER);
    SplitAt(ticketId, '-', sha, PAUSE_MARKER);
    TooShort("local:/", PAUSE_MARKER);
    TooShort("agent-org", PAUSE_MARKER);
  }
}
