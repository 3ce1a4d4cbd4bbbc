/** agentorg/gates.py: saving a run, loading it, pausing at a gate and recording a decision. */
module Gates {
  import opened Prelude
  import opened State
  import opened Sessions
  import opened Wording

  function PauseRow(gate: GateName): Row {
    SaidRow(Actor.System, AtGate(gate), Opened, NoWord, PausedAt(gate))
  }

  function ActionOf(decision: Decision): Action {
    match decision
    case Approved => Action.Approved
    case Rejected => Action.Rejected
    case Overridden => Action.Overridden
  }

  function DecisionRow(d: HumanDecision): Row {
    WordRow(Human, AtGate(d.gate), ActionOf(d.decision), OfDecision(d.decision))
  }

  function Decided(doc: RunDoc, d: HumanDecision): RunDoc {
    doc.(decisions := doc.decisions + [d],
         status := if d.decision == Decision.Rejected then Status.Rejected else doc.status)
  }

  /** A decision recorded out of band, on whatever the store holds. */
  function Resumed(s: Session, d: HumanDecision): Session {
    s.With(Decided(s.doc, d)).Log(DecisionRow(d))
  }

  /** What a decision leaves: itself at the end of the list, and a row that calls it what it is;
      the run ends exactly on a rejection. */
  lemma DecisionIsRecorded(s: Session, d: HumanDecision)
    ensures var t := Resumed(s, d);
      && t.doc == s.doc.(decisions := s.doc.decisions + [d], status := t.doc.status)
      && t.doc.status == (if d.decision == Decision.Rejected then Status.Rejected else s.doc.status)
      && t.calls == s.calls
      && t.rows == s.rows + [Row(Human, AtGate(d.gate), match d.decision
                                                        case Approved => Action.Approved
                                                        case Rejected => Action.Rejected
                                                        case Overridden => Action.Overridden,
                                 OfDecision(d.decision), "", "", Unrecorded)]
  {
  }

  method Save(state: RunState, w: World)
    modifies w`docs
    ensures w.docs == old(w.docs)[state.runId := state.Doc()]
    ensures w.Elsewhere(state.runId) == old(w.Elsewhere(state.runId))
  {
    w.Store(state.runId, state.Doc());
  }

  /** None when there is no such run. */
  method Load(runId: string, w: World) returns (state: RunState?)
    ensures state == null <==> runId !in w.docs
    ensures state != null ==>
              && fresh(state) && state.Doc() == w.docs[runId] && state.runId == w.docs[runId].runId
              && (state.dev != null ==> fresh(state.dev)) && (state.review != null ==> fresh(state.review))
  {
    if runId !in w.docs {
      return null;
    }
    state := new RunState(w.docs[runId]);
  }

  method Pause(state: RunState, gate: GateName, w: World)
    modifies w`docs, w`logs
    ensures w.docs == old(w.docs)[state.runId := state.Doc()]
    ensures Live(state, w) == old(Live(state, w)).Log(PauseRow(gate))
    ensures w.Elsewhere(state.runId) == old(w.Elsewhere(state.runId))
  {
    Save(state, w);
    w.Append(state.runId, PauseRow(gate));
  }

  /** Documents are filed under their own run id. */
  ghost predicate Filed(runId: string, w: World)
    reads w
  {
    runId in w.docs ==> w.docs[runId].runId == runId
  }

  method Resume(runId: string, d: HumanDecision, w: World) returns (state: RunState?)
    requires Filed(runId, w)
    modifies w`docs, w`logs
    ensures state == null <==> runId !in old(w.docs)
    ensures state == null ==> w.docs == old(w.docs) && w.logs == old(w.logs)
    ensures state != null ==>
              && fresh(state) && state.runId == runId
              && (state.dev != null ==> fresh(state.dev)) && (state.review != null ==> fresh(state.review))
              && runId in w.docs && Filed(runId, w)
              && Stored(runId, w) == Live(state, w) == Resumed(old(Stored(runId, w)), d)
    ensures w.Elsewhere(runId) == old(w.Elsewhere(runId))
  {
    state := Load(runId, w);
    if state == null {
      return;
    }
    state.decisions := state.decisions + [d];
    w.Append(runId, DecisionRow(d));
    if d.decision == Decision.Rejected {
      state.status := Status.Rejected;
    }
    Save(state, w);
  }
}
