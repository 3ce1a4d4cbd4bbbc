/** agentorg/agents/developer.py: the diff, and the safety net under a poisoned run. */
module Developer {
  import opened Prelude
  import opened Text
  import opened State
  import opened Settings
  import Diff
  import DiffProperties

  // ----- the credential pattern -------------------------------------------

  predicate IsKeyChar(c: char) {
    '0' <= c <= '9' || 'A' <= c <= 'Z'
  }

  /** `AKIA[0-9A-Z]{16}` matches at `i`. */
  predicate KeyAt(s: string, i: nat) {
    && i + 20 <= |s|
    && s[i] == 'A' && s[i + 1] == 'K' && s[i + 2] == 'I' && s[i + 3] == 'A'
    && forall j | i + 4 <= j < i + 20 :: IsKeyChar(s[j])
  }

  predicate HasKey(s: string) {
    exists i: nat | i < |s| :: KeyAt(s, i)
  }

  ghost predicate KeyStands(s: string, i: int) {
    && 0 <= i <= |s| - 20
    && s[i..i + 4] == "AKIA"
    && forall j | i + 4 <= j < i + 20 :: 48 <= s[j] as int <= 57 || 65 <= s[j] as int <= 90
  }

  /** A text carries a key exactly when `AKIA` stands somewhere in it with sixteen digits and
      capitals behind. */
  lemma KeyExactly(s: string)
    ensures HasKey(s) <==> exists i :: KeyStands(s, i)
  {
    if i: nat :| i < |s| && KeyAt(s, i) {
      assert s[i..i + 4] == "AKIA";
      assert KeyStands(s, i);
    }
    if i :| KeyStands(s, i) {
      var word := s[i..i + 4];
      assert s[i] == word[0] && s[i + 1] == word[1] && s[i + 2] == word[2] && s[i + 3] == word[3];
      assert KeyAt(s, i);
    }
  }

  lemma KeyWithin(before: string, s: string, after: string)
    requires HasKey(s)
    ensures HasKey(before + s + after)
  {
    var i: nat :| i < |s| && KeyAt(s, i);
    var longer, at := before + s + after, |before| + i;
    assert forall j | 0 <= j < |s| :: longer[|before| + j] == s[j];
    forall j | at + 4 <= j < at + 20 ensures IsKeyChar(longer[j]) {
      assert longer[j] == s[j - |before|];
    }
    assert KeyAt(longer, at);
  }

  ghost predicate AnyKey(files: Dict<string, string>) {
    exists path | path in files.at :: HasKey(files.at[path])
  }

  /** Would a scanner find a key in what this diff proposes? */
  ghost function KeyProposed(diff: string): Result<bool> {
    match Diff.Parsed(diff)
    case Raised => Raised
    case Ok(files) => Ok(AnyKey(files))
  }

  method KeyIsInTheChange(diff: string) returns (r: Result<bool>)
    ensures r == KeyProposed(diff)
  {
    var parsed := Diff.AddedFiles(diff);
    if parsed.Raised? {
      return Raised;
    }
    var files := parsed.value;
    DiffProperties.FilesValid(Diff.Sections(SplitLines(diff)));
    for i := 0 to |files.keys|
      invariant forall k | 0 <= k < i :: !HasKey(files.at[files.keys[k]])
    {
      if HasKey(files.at[files.keys[i]]) {
        return Ok(true);
      }
    }
    assert forall path | path in files.at :: path in files.keys;
    return Ok(false);
  }

  // ----- the prompt -------------------------------------------------------

  /** The part of the prompt that tells a revision from a first pass. */
  datatype Prompt = FirstPass | Revision(previousDiff: Option<string>, mustFix: seq<string>)

  function PromptFor(doc: RunDoc): Prompt {
    if doc.review.Some? && doc.review.value.mustFix != []
    then Revision(if doc.dev.Some? then Some(doc.dev.value.diff) else None, doc.review.value.mustFix)
    else FirstPass
  }

  // ----- the agent --------------------------------------------------------

  /** What the agent holds before the safety net: the model's answer, or the fixture. */
  function Drafted(ticketId: string, poisoned: bool, reply: Option<DevDoc>, fixtures: Fixtures): DevDoc {
    var dev := if reply.Some? then reply.value else fixtures.Dev(poisoned);
    if dev.branch == "" then dev.(branch := "agent-org/" + ticketId) else dev
  }

  function Rescued(dev: DevDoc, reference: DevDoc): DevDoc {
    dev.(diff := reference.diff, filesChanged := reference.filesChanged)
  }

  function WantsPoison(poisoned: Option<bool>, carried: bool): bool {
    if poisoned.Some? then poisoned.value else carried
  }

  ghost function Developed(ticketId: string, poisoned: bool, reply: Option<DevDoc>, fixtures: Fixtures)
    : Result<DevDoc>
  {
    var dev := Drafted(ticketId, poisoned, reply, fixtures);
    if !poisoned then Ok(dev)
    else
      match KeyProposed(dev.diff)
      case Raised => Raised
      case Ok(present) => Ok(if present then dev else Rescued(dev, fixtures.poisonedDev))
  }

  // ----- what the agent hands back ----------------------------------------

  /** The caller's own switch wins over the one the run carries. */
  ghost predicate PoisonWanted(caller: Option<bool>, carried: bool) {
    match caller
    case Some(wanted) => wanted
    case None => carried
  }

  /** The model's reply, or without one the fixture the switch picks, on a branch of the ticket's
      if it names none. */
  ghost predicate SaysWhatWasSaid(dev: DevDoc, ticketId: string, poisoned: bool, reply: Option<DevDoc>,
                                  fixtures: Fixtures)
  {
    var said := match reply
                case Some(d) => d
                case None => if poisoned then fixtures.poisonedDev else fixtures.cleanDev;
    && dev.diff == said.diff && dev.summary == said.summary && dev.filesChanged == said.filesChanged
    && dev.prUrl == said.prUrl
    && (said.branch != "" ==> dev.branch == said.branch)
    && (said.branch == "" ==> dev.branch == "agent-org/" + ticketId)
  }

  /** The draft as it was, but for the reference's change. */
  ghost predicate CarriesReference(dev: DevDoc, draft: DevDoc, reference: DevDoc) {
    && dev.diff == reference.diff && dev.filesChanged == reference.filesChanged
    && dev.branch == draft.branch && dev.summary == draft.summary && dev.prUrl == draft.prUrl
  }

  /** Without the poison switch: what was said. With it: that again if it proposes a key, the
      reference's change in it if it does not, and a raise if nobody can read it. */
  ghost predicate HandsBack(r: Result<DevDoc>, ticketId: string, poisoned: bool, reply: Option<DevDoc>,
                            fixtures: Fixtures)
  {
    exists draft: DevDoc ::
      && SaysWhatWasSaid(draft, ticketId, poisoned, reply, fixtures)
      && (!poisoned ==> r == Ok(draft))
      && (poisoned && KeyProposed(draft.diff) == Ok(true) ==> r == Ok(draft))
      && (poisoned && KeyProposed(draft.diff) == Ok(false) ==>
            r.Ok? && CarriesReference(r.value, draft, fixtures.poisonedDev))
      && (poisoned && KeyProposed(draft.diff).Raised? ==> r.Raised?)
  }

  lemma DevelopedHandsBack(ticketId: string, poisoned: bool, reply: Option<DevDoc>, fixtures: Fixtures)
    ensures HandsBack(Developed(ticketId, poisoned, reply, fixtures), ticketId, poisoned, reply, fixtures)
  {
    assert SaysWhatWasSaid(Drafted(ticketId, poisoned, reply, fixtures), ticketId, poisoned, reply, fixtures);
  }

  method Run(state: RunState, poisoned: Option<bool>, reply: Option<DevDoc>, fixtures: Fixtures)
    returns (r: Result<DevResult>)
    ensures r.Raised? <==> Developed(state.ticketId, WantsPoison(poisoned, state.poisoned), reply, fixtures).Raised?
    ensures r.Ok? ==> fresh(r.value)
    ensures HandsBack(if r.Ok? then Ok(r.value.Doc()) else Raised, state.ticketId,
                      PoisonWanted(poisoned, state.poisoned), reply, fixtures)
    ensures r.Ok? ==>
              Developed(state.ticketId, WantsPoison(poisoned, state.poisoned), reply, fixtures) == Ok(r.value.Doc())
  {
    var wanted := if poisoned.Some? then poisoned.value else state.poisoned;
    DevelopedHandsBack(state.ticketId, wanted, reply, fixtures);
    var dev := new DevResult(if reply.Some? then reply.value else fixtures.Dev(wanted));
    if dev.branch == "" {
      dev.branch := "agent-org/" + state.ticketId;
    }
    assert dev.Doc() == Drafted(state.ticketId, wanted, reply, fixtures);
    if wanted {
      var present := KeyIsInTheChange(dev.diff);
      if present.Raised? {
        return Raised;
      }
      if !present.value {
        dev.diff := fixtures.poisonedDev.diff;
        dev.filesChanged := fixtures.poisonedDev.filesChanged;
      }
    }
    return Ok(dev);
  }

  // ----- what the safety net guarantees -----------------------------------

  /** However the model answers, a poisoned draft that comes back proposes a key, provided
      the reference diff does. */
  lemma PoisonedDraftHasKey(ticketId: string, reply: Option<DevDoc>, fixtures: Fixtures)
    requires KeyProposed(fixtures.poisonedDev.diff) == Ok(true)
    requires Developed(ticketId, true, reply, fixtures).Ok?
    ensures KeyProposed(Developed(ticketId, true, reply, fixtures).value.diff) == Ok(true)
  {
    var dev := Drafted(ticketId, true, reply, fixtures);
    assert KeyProposed(dev.diff).Ok?;
  }
}
