/** One run as the outside sees it: the state document, the log rows, and the calls made on
    its behalf. `Session` is the value the two pipelines are specified over; `World` is the
    mutable store behind it. */
module Sessions {
  import opened Prelude
  import opened State
  import opened Settings
  import opened GithubOps
  import Developer

  // ----- rows -------------------------------------------------------------

  function PlainRow(actor: Actor, stage: Stage, action: Action): Row {
    Row(actor, stage, action, NoWord, "", "", Unrecorded)
  }

  function WordRow(actor: Actor, stage: Stage, action: Action, word: Word): Row {
    Row(actor, stage, action, word, "", "", Unrecorded)
  }

  function SaidRow(actor: Actor, stage: Stage, action: Action, word: Word, summary: string): Row {
    Row(actor, stage, action, word, summary, "", Unrecorded)
  }

  // ----- calls ------------------------------------------------------------

  datatype Note =
    | PlanNote(plan: PlanResult)
    | GateNote(decision: HumanDecision)
    | DevelopNote(developAttempt: nat, summary: string, filesChanged: seq<string>, diff: string)
    | ReviewNote(reviewAttempt: nat, review: ReviewDoc)
    | SecurityNote(security: SecurityResult)
    | SreNote(sre: SreResult)

  datatype Call =
    | AskDeveloper(prompt: Developer.Prompt)
    | Comment(to: Surface, note: Note)
    | OpenPullRequest(branch: string)
    | MeasureCi
    | Merge(ref: MergeRef)
    | ReportOutcome(status: Status)

  // ----- sessions ---------------------------------------------------------

  datatype Session = Session(doc: RunDoc, rows: seq<Row>, calls: seq<Call>) {
    function Log(row: Row): Session {
      this.(rows := rows + [row])
    }

    function Do(call: Call): Session {
      this.(calls := calls + [call])
    }

    function With(d: RunDoc): Session {
      this.(doc := d)
    }

    function Post(note: Note): Session {
      Do(Comment(Destination(doc), note))
    }
  }

  /** What the world answers during one run: the agents behind their seam, the host, and the
      humans. The developer agent and the reviewer agent are asked once per pass. The developer
      may raise, and so may opening the pull request, which happens when `opens` is false;
      security answers about the change it is shown, sre about the measured CI. */
  datatype Script = Script(
    plan: PlanResult,
    drafts: nat -> Result<DevDoc>, reviews: nat -> ReviewDoc,
    tests: GeneratedTests,
    security: Option<DevDoc> -> SecurityResult,
    sre: CiStatus -> SreResult,
    opens: bool, prUrl: string, delivery: string, ci: CiStatus, merge: HostMerge,
    approves: GateName -> bool)

  function Answer(gate: GateName, script: Script): HumanDecision {
    HumanDecision(gate, if script.approves(gate) then Decision.Approved else Decision.Rejected)
  }

  // ----- the store --------------------------------------------------------

  class World {
    var docs: map<string, RunDoc>
    var logs: map<string, seq<Row>>
    var calls: map<string, seq<Call>>

    function Rows(runId: string): seq<Row>
      reads this
    {
      if runId in logs then logs[runId] else []
    }

    function Calls(runId: string): seq<Call>
      reads this
    {
      if runId in calls then calls[runId] else []
    }

    /** Everything about the other runs. */
    ghost function Elsewhere(runId: string): (map<string, RunDoc>, map<string, seq<Row>>, map<string, seq<Call>>)
      reads this
    {
      (docs - {runId}, logs - {runId}, calls - {runId})
    }

    constructor ()
      ensures docs == map[] && logs == map[] && calls == map[]
    {
      docs, logs, calls := map[], map[], map[];
    }

    method Append(runId: string, row: Row)
      modifies this`logs
      ensures Rows(runId) == old(Rows(runId)) + [row]
      ensures Elsewhere(runId) == old(Elsewhere(runId))
    {
      logs := logs[runId := Rows(runId) + [row]];
      assert logs - {runId} == old(logs) - {runId};
    }

    method Perform(runId: string, call: Call)
      modifies this`calls
      ensures Calls(runId) == old(Calls(runId)) + [call]
      ensures Elsewhere(runId) == old(Elsewhere(runId))
    {
      calls := calls[runId := Calls(runId) + [call]];
      assert calls - {runId} == old(calls) - {runId};
    }

    method Store(runId: string, doc: RunDoc)
      modifies this`docs
      ensures docs == old(docs)[runId := doc]
      ensures Elsewhere(runId) == old(Elsewhere(runId))
    {
      docs := docs[runId := doc];
      assert docs - {runId} == old(docs) - {runId};
    }

    method Post(state: RunState, note: Note)
      modifies this`calls
      ensures Calls(state.runId) == old(Calls(state.runId)) + [Comment(Destination(state.Doc()), note)]
      ensures Elsewhere(state.runId) == old(Elsewhere(state.runId))
    {
      Perform(state.runId, Comment(Destination(state.Doc()), note));
    }
  }

  /** A run held in memory, with what the store has of its log and its calls. */
  ghost function Live(state: RunState, w: World): Session
    reads state, state.dev, state.review, w
  {
    Session(state.Doc(), w.Rows(state.runId), w.Calls(state.runId))
  }

  /** A run as the store holds it. */
  ghost function Stored(runId: string, w: World): Session
    requires runId in w.docs
    reads w
  {
    Session(w.docs[runId], w.Rows(runId), w.Calls(runId))
  }
}
