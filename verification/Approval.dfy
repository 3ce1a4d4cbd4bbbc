/** agentorg/approve_server.py: which gates are waiting for a human, and what one click may
    decide. */
module Approval {
  import opened Prelude
  import opened Text
  import opened State
  import opened Sessions
  import opened Gates
  import opened Wording
  import LogStore
  import Order

  // ----- one run ----------------------------------------------------------

  predicate PausesAt(row: Row) {
    row.action == Opened && Contains(row.summary, PAUSE_MARKER)
  }

  /** The stages whose rows carry the pause sentence. */
  function Paused(rows: seq<Row>): set<Stage> {
    if rows == [] then {}
    else
      var last := rows[|rows| - 1];
      Paused(rows[..|rows| - 1]) + if PausesAt(last) then {last.stage} else {}
  }

  function Decided(decisions: seq<HumanDecision>): set<Stage> {
    set d | d in decisions :: AtGate(d.gate)
  }

  function Open(doc: RunDoc, rows: seq<Row>): set<Stage> {
    Paused(rows) - Decided(doc.decisions)
  }

  /** Every stage, sorted by name. */
  const STAGES_BY_NAME := [Develop, AtGate(Gate1), AtGate(Gate2), AtGate(Gate3), Plan, Promote, Review,
                           Stage.Security, Stage.Sre]

  function Chosen(stages: seq<Stage>, wanted: set<Stage>): seq<Stage> {
    if stages == [] then [] else (if stages[0] in wanted then [stages[0]] else []) + Chosen(stages[1..], wanted)
  }

  function InNameOrder(stages: set<Stage>): seq<Stage> {
    Chosen(STAGES_BY_NAME, stages)
  }

  /** The gates a run is listed with; none when it is over. */
  function Awaits(doc: RunDoc, rows: seq<Row>): seq<Stage> {
    if Terminal(doc.status) then [] else InNameOrder(Open(doc, rows))
  }

  lemma {:induction false} ChosenHolds(stages: seq<Stage>, wanted: set<Stage>, stage: Stage)
    ensures stage in Chosen(stages, wanted) <==> stage in stages && stage in wanted
  {
    if stages != [] {
      ChosenHolds(stages[1..], wanted, stage);
    }
  }

  lemma NameOrderHolds(stages: set<Stage>, stage: Stage)
    ensures stage in InNameOrder(stages) <==> stage in stages
  {
    ChosenHolds(STAGES_BY_NAME, stages, stage);
    var all := STAGES_BY_NAME;
    assert all[0] == Develop && all[1] == AtGate(Gate1) && all[2] == AtGate(Gate2) && all[3] == AtGate(Gate3)
           && all[4] == Plan && all[5] == Promote && all[6] == Review
           && all[7] == Stage.Security && all[8] == Stage.Sre;
    match stage
    case AtGate(gate) => match gate { case Gate1 => case Gate2 => case Gate3 => }
    case _ =>
  }

  lemma {:induction false} NoneChosen(stages: seq<Stage>, wanted: set<Stage>)
    requires forall i | 0 <= i < |stages| :: stages[i] !in wanted
    ensures Chosen(stages, wanted) == []
  {
    if stages != [] {
      NoneChosen(stages[1..], wanted);
    }
  }

  lemma {:induction false} OneChosen(stages: seq<Stage>, k: nat)
    requires k < |stages|
    requires forall i | 0 <= i < |stages| && i != k :: stages[i] != stages[k]
    ensures Chosen(stages, {stages[k]}) == [stages[k]]
  {
    if k == 0 {
      NoneChosen(stages[1..], {stages[0]});
    } else {
      assert stages[1..][k - 1] == stages[k];
      OneChosen(stages[1..], k - 1);
    }
  }

  /** A run with one open gate is listed with that gate. */
  lemma OneInNameOrder(gate: GateName)
    ensures InNameOrder({AtGate(gate)}) == [AtGate(gate)]
    ensures InNameOrder({}) == []
  {
    NoneChosen(STAGES_BY_NAME, {});
    match gate
    case Gate1 => OneChosen(STAGES_BY_NAME, 1);
    case Gate2 => OneChosen(STAGES_BY_NAME, 2);
    case Gate3 => OneChosen(STAGES_BY_NAME, 3);
  }

  /** A stage is waiting exactly when the run is still on, some row opened it with the pause
      sentence in its words, and no decision names it. */
  ghost predicate IsWaiting(doc: RunDoc, rows: seq<Row>, stage: Stage) {
    && doc.status == Status.Running
    && (exists row | row in rows ::
          row.stage == stage && row.action == Opened && Contains(row.summary, "awaiting human decision"))
    && forall d | d in doc.decisions :: AtGate(d.gate) != stage
  }

  lemma {:induction false} PausedExactly(rows: seq<Row>, stage: Stage)
    ensures stage in Paused(rows) <==> exists row | row in rows :: row.stage == stage && PausesAt(row)
  {
    if rows != [] {
      var n := |rows| - 1;
      PausedExactly(rows[..n], stage);
      assert rows == rows[..n] + [rows[n]];
      assert forall row :: row in rows <==> row in rows[..n] || row == rows[n];
    }
  }

  lemma AwaitsExactly(doc: RunDoc, rows: seq<Row>, stage: Stage)
    ensures stage in Awaits(doc, rows) <==> IsWaiting(doc, rows, stage)
  {
    NameOrderHolds(Open(doc, rows), stage);
    PausedExactly(rows, stage);
  }

  /** The stages' names in the log. */
  function StageName(stage: Stage): string {
    match stage
    case Plan => "plan"
    case AtGate(Gate1) => "gate1"
    case AtGate(Gate2) => "gate2"
    case AtGate(Gate3) => "gate3"
    case Develop => "develop"
    case Review => "review"
    case Security => "security"
    case Sre => "sre"
    case Promote => "promote"
  }

  ghost predicate NamesRise(stages: seq<Stage>) {
    forall i, j | 0 <= i < j < |stages| :: Order.Less(StageName(stages[i]), StageName(stages[j]))
  }

  lemma {:induction false} ChosenRises(stages: seq<Stage>, wanted: set<Stage>)
    requires NamesRise(stages)
    ensures NamesRise(Chosen(stages, wanted))
  {
    if stages != [] {
      ChosenRises(stages[1..], wanted);
      var rest := Chosen(stages[1..], wanted);
      forall i | 0 <= i < |rest| ensures Order.Less(StageName(stages[0]), StageName(rest[i])) {
        ChosenHolds(stages[1..], wanted, rest[i]);
        var k :| 0 <= k < |stages[1..]| && stages[1..][k] == rest[i];
        assert stages[k + 1] == rest[i];
      }
    }
  }

  lemma {:induction false} RisesStepByStep(stages: seq<Stage>)
    requires forall i | 0 <= i < |stages| - 1 :: Order.Less(StageName(stages[i]), StageName(stages[i + 1]))
    ensures NamesRise(stages)
  {
    if |stages| > 1 {
      var rest := stages[1..];
      RisesStepByStep(rest);
      forall j | 0 < j < |stages| ensures Order.Less(StageName(stages[0]), StageName(stages[j])) {
        if j > 1 {
          assert rest[0] == stages[1] && rest[j - 1] == stages[j];
          Order.Transitive(StageName(stages[0]), StageName(stages[1]), StageName(stages[j]));
        }
      }
    }
  }

  /** The listing shows them in the order of their names. */
  lemma ShownByName(doc: RunDoc, rows: seq<Row>)
    ensures NamesRise(Awaits(doc, rows))
  {
    var all := STAGES_BY_NAME;
    NamesStep();
    assert all[0] == Develop && all[1] == AtGate(Gate1) && all[2] == AtGate(Gate2) && all[3] == AtGate(Gate3)
           && all[4] == Plan && all[5] == Promote && all[6] == Review
           && all[7] == Stage.Security && all[8] == Stage.Sre && |all| == 9;
    RisesStepByStep(all);
    ChosenRises(all, Open(doc, rows));
  }

  lemma NamesStep()
    ensures Order.Less("develop", "gate1") && Order.Less("gate1", "gate2") && Order.Less("gate2", "gate3")
    ensures Order.Less("gate3", "plan") && Order.Less("plan", "promote") && Order.Less("promote", "review")
    ensures Order.Less("review", "security") && Order.Less("security", "sre")
  {
  }

  // ----- the listing ------------------------------------------------------

  /** What the screen finds in the store: documents and logs, some of which do not parse. */
  datatype Records = Records(docs: map<string, RunDoc>, logs: map<string, seq<Row>>, spoiltDocs: set<string>,
                             spoiltLogs: set<string>)
  {
    function Rows(id: string): seq<Row> {
      if id in logs then logs[id] else []
    }

    predicate Loads(id: string) {
      id in docs && id !in spoiltDocs
    }

    /** A log is only read for a run that is not over. */
    predicate Counted(id: string) {
      !LogStore.IsSafeRunId(id) || !Loads(id) || (!Terminal(docs[id].status) && id in spoiltLogs)
    }

    predicate Lists(id: string) {
      LogStore.IsSafeRunId(id) && Loads(id) && id !in spoiltLogs && Awaits(docs[id], Rows(id)) != []
    }
  }

  function CountOf(ids: seq<string>, r: Records): nat {
    if ids == [] then 0 else CountOf(ids[..|ids| - 1], r) + if r.Counted(ids[|ids| - 1]) then 1 else 0
  }

  function CountedAt(ids: seq<string>, r: Records): set<nat> {
    set i: nat | i < |ids| && r.Counted(ids[i])
  }

  /** The count is that of the places where a record could not be used. */
  lemma {:induction false} CountOfExactly(ids: seq<string>, r: Records)
    ensures CountOf(ids, r) == |CountedAt(ids, r)|
  {
    if ids != [] {
      var n := |ids| - 1;
      CountOfExactly(ids[..n], r);
      assert n !in CountedAt(ids[..n], r);
      assert CountedAt(ids, r) == CountedAt(ids[..n], r) + if r.Counted(ids[n]) then {n} else {};
    }
  }

  /** Exactly the runs a human can act on, each with exactly its open gates. */
  ghost predicate IsListing(awaiting: map<string, seq<Stage>>, found: seq<string>, r: Records) {
    && (forall id :: id in awaiting <==> id in found && r.Lists(id))
    && (forall id | id in awaiting :: r.Lists(id) && awaiting[id] == Awaits(r.docs[id], r.Rows(id)))
  }

  /** Every run id comes to one of four ends: it is over, it waits for nobody, it is shown, or it
      is counted as unusable, which a run that is over never is for its log. */
  lemma RecordsAreTold(id: string, r: Records)
    ensures r.Lists(id)
            <==> && LogStore.IsSafeRunId(id) && id in r.docs && id !in r.spoiltDocs && id !in r.spoiltLogs
                 && exists stage :: IsWaiting(r.docs[id], r.Rows(id), stage)
    ensures r.Counted(id)
            <==> || !LogStore.IsSafeRunId(id) || id !in r.docs || id in r.spoiltDocs
                 || (id in r.spoiltLogs && r.docs[id].status == Status.Running)
    ensures !(r.Lists(id) && r.Counted(id))
  {
    if id in r.docs {
      var waiting := Awaits(r.docs[id], r.Rows(id));
      forall stage ensures stage in waiting <==> IsWaiting(r.docs[id], r.Rows(id), stage) {
        AwaitsExactly(r.docs[id], r.Rows(id), stage);
      }
      if waiting != [] {
        assert waiting[0] in waiting;
      }
    }
  }

  /** The screen's own loop over the run ids the backend names. */
  method ListAwaiting(found: seq<string>, r: Records) returns (awaiting: map<string, seq<Stage>>, unreadable: nat)
    ensures IsListing(awaiting, found, r)
    ensures unreadable == CountOf(found, r)
  {
    awaiting, unreadable := map[], 0;
    for i := 0 to |found|
      invariant IsListing(awaiting, found[..i], r)
      invariant unreadable == CountOf(found[..i], r)
    {
      var id := found[i];
      assert found[..i + 1][..i] == found[..i];
      assert forall x :: x in found[..i + 1] <==> x in found[..i] || x == id;
      if !LogStore.IsSafeRunId(id) || !r.Loads(id) {
        unreadable := unreadable + 1;
      } else if Terminal(r.docs[id].status) {
      } else if id in r.spoiltLogs {
        unreadable := unreadable + 1;
      } else {
        var openGates := InNameOrder(Open(r.docs[id], r.Rows(id)));
        if openGates != [] {
          awaiting := awaiting[id := openGates];
        }
      }
    }
    assert found[..|found|] == found;
  }

  // ----- one click --------------------------------------------------------

  /** Where a request says it comes from; a browser's header may not name a host. */
  datatype Origin = NoOrigin | From(host: Option<string>)

  const LOOPBACK := {"127.0.0.1", "localhost", "::1", "[::1]"}

  predicate OriginAllowed(origin: Origin) {
    origin.NoOrigin? || (origin.host.Some? && origin.host.value in LOOPBACK)
  }

  type Form = map<string, seq<string>>

  /** The one value of a field, if there is exactly one. */
  function One(form: Form, field: string): Option<string> {
    if field in form && |form[field]| == 1 then Some(form[field][0]) else None
  }

  function GateNamed(word: string): Option<GateName> {
    if word == GateWord(Gate1) then Some(Gate1)
    else if word == GateWord(Gate2) then Some(Gate2)
    else if word == GateWord(Gate3) then Some(Gate3)
    else None
  }

  /** The screen approves and rejects; it does not override. */
  function DecisionNamed(word: string): Option<Decision> {
    if word == "approved" then Some(Decision.Approved)
    else if word == "rejected" then Some(Decision.Rejected)
    else None
  }

  datatype Click = Click(runId: string, decision: HumanDecision)

  function Clicked(runId: string, gate: Option<GateName>, decision: Option<Decision>, awaiting: map<string, seq<Stage>>)
    : Option<Click>
  {
    if gate.None? || decision.None? || runId !in awaiting || AtGate(gate.value) !in awaiting[runId] then None
    else Some(Click(runId, HumanDecision(gate.value, decision.value)))
  }

  /** What a request asks for, if it is one the screen acts on. */
  function Accepted(form: Form, origin: Origin, awaiting: map<string, seq<Stage>>): Option<Click> {
    var gate, decision, runId := One(form, "gate"), One(form, "decision"), One(form, "run_id");
    if !OriginAllowed(origin) || gate.None? || decision.None? || runId.None? then None
    else Clicked(runId.value, GateNamed(gate.value), DecisionNamed(decision.value), awaiting)
  }

  // ----- what a request says ----------------------------------------------

  /** The form, word for word: one run id, one gate and one decision, and nothing else counts as
      an answer. */
  ghost predicate Says(form: Form, runId: string, gate: GateName, decision: Decision) {
    && "run_id" in form && form["run_id"] == [runId]
    && "gate" in form
    && form["gate"] == [match gate case Gate1 => "gate1" case Gate2 => "gate2" case Gate3 => "gate3"]
    && "decision" in form
    && ((decision == Decision.Approved && form["decision"] == ["approved"])
        || (decision == Decision.Rejected && form["decision"] == ["rejected"]))
  }

  /** A request with no origin, or from this machine. */
  ghost predicate FromHere(origin: Origin) {
    match origin
    case NoOrigin => true
    case From(None) => false
    case From(Some(host)) => host == "127.0.0.1" || host == "localhost" || host == "::1" || host == "[::1]"
  }

  /** The form decides this gate of this run, and the run is listed with it. */
  ghost predicate Decides(form: Form, origin: Origin, awaiting: map<string, seq<Stage>>, runId: string, gate: GateName,
                          decision: Decision)
  {
    FromHere(origin) && Says(form, runId, gate, decision) && runId in awaiting && AtGate(gate) in awaiting[runId]
  }

  lemma GateNamedExactly(word: string, gate: GateName)
    ensures GateNamed(word) == Some(gate)
            <==> word == match gate case Gate1 => "gate1" case Gate2 => "gate2" case Gate3 => "gate3"
  {
    assert "gate1"[4] == '1' && "gate2"[4] == '2' && "gate3"[4] == '3';
  }

  lemma DecisionNamedExactly(word: string, decision: Decision)
    ensures DecisionNamed(word) == Some(decision)
            <==> (decision == Decision.Approved && word == "approved")
                 || (decision == Decision.Rejected && word == "rejected")
  {
    assert "approved"[0] == 'a' && "rejected"[0] == 'r';
  }

  /** The screen acts on exactly what the form says. */
  lemma AcceptedSays(form: Form, origin: Origin, awaiting: map<string, seq<Stage>>, runId: string, gate: GateName,
                     decision: Decision)
    ensures Accepted(form, origin, awaiting) == Some(Click(runId, HumanDecision(gate, decision)))
            <==> Decides(form, origin, awaiting, runId, gate, decision)
  {
    var gates, decisions, ids := One(form, "gate"), One(form, "decision"), One(form, "run_id");
    if gates.Some? && decisions.Some? && ids.Some? {
      assert form["gate"] == [gates.value] && form["decision"] == [decisions.value] && form["run_id"] == [ids.value];
      GateNamedExactly(gates.value, gate);
      DecisionNamedExactly(decisions.value, decision);
    }
  }

  ghost predicate AllFiled(w: World)
    reads w
  {
    forall id | id in w.docs :: Filed(id, w)
  }

  function Shelved(w: World, spoiltDocs: set<string>, spoiltLogs: set<string>): Records
    reads w
  {
    Records(w.docs, w.logs, spoiltDocs, spoiltLogs)
  }

  /** `_apply`: one decision recorded, or nothing touched. */
  method Apply(form: Form, origin: Origin, found: seq<string>, spoiltDocs: set<string>, spoiltLogs: set<string>,
               w: World) returns (click: Option<Click>, ghost awaiting: map<string, seq<Stage>>)
    requires AllFiled(w)
    modifies w`docs, w`logs
    ensures IsListing(awaiting, found, old(Shelved(w, spoiltDocs, spoiltLogs)))
    ensures click == Accepted(form, origin, awaiting)
    ensures forall runId, gate, decision | Decides(form, origin, awaiting, runId, gate, decision) ::
              && click.Some? && runId in old(w.docs) && runId in w.docs
              && w.docs[runId]
                 == old(w.docs[runId]).(decisions := old(w.docs[runId]).decisions + [HumanDecision(gate, decision)],
                                        status := if decision == Decision.Rejected then Status.Rejected
                                                  else old(w.docs[runId]).status)
    ensures (forall runId, gate, decision :: !Decides(form, origin, awaiting, runId, gate, decision)) ==> click.None?
    ensures click.None? ==> w.docs == old(w.docs) && w.logs == old(w.logs)
    ensures click.Some? ==>
              && click.value.runId in old(w.docs) && click.value.runId in w.docs
              && Stored(click.value.runId, w) == Resumed(old(Stored(click.value.runId, w)), click.value.decision)
              && w.Elsewhere(click.value.runId) == old(w.Elsewhere(click.value.runId))
  {
    var listed, unreadable := ListAwaiting(found, Shelved(w, spoiltDocs, spoiltLogs));
    awaiting := listed;
    click := Accepted(form, origin, listed);
    forall runId, gate, decision
      ensures click == Some(Click(runId, HumanDecision(gate, decision)))
              <==> Decides(form, origin, awaiting, runId, gate, decision)
    {
      AcceptedSays(form, origin, listed, runId, gate, decision);
    }
    if click.Some? {
      assert Decides(form, origin, awaiting, click.value.runId, click.value.decision.gate,
                     click.value.decision.decision);
      var state := Resume(click.value.runId, click.value.decision, w);
    }
  }
}
