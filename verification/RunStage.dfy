/** scripts/run_stage.py: the same pipeline cut into jobs that hand a saved run on.

    As in Graph, the functions say what each job does to the stored session and with which
    exit code; the methods are the code over the store. */
module RunStage {
  import opened Prelude
  import opened State
  import opened Settings
  import opened GithubOps
  import opened Sessions
  import opened Gates
  import opened Wording
  import opened Graph

  datatype Exit = ExitOk | ExitBlocked | ExitRejected | ExitAlreadyFinal | ExitNotPromotable | ExitCrash {
    function Code(): nat {
      match this
      case ExitOk => 0
      case ExitCrash => 1
      case ExitBlocked => 3
      case ExitRejected => 4
      case ExitAlreadyFinal => 5
      case ExitNotPromotable => 6
    }
  }

  /** What one job leaves in the store, and how its process ends. */
  datatype Ended = Ended(s: Session, exit: Exit)

  // ----- rows only the jobs write -----------------------------------------

  function StageStartRow(ticketId: string, trigger: string): Row {
    SaidRow(Actor.System, Stage.Plan, Opened, NoWord, StartedBy(ticketId, trigger))
  }

  function OutcomeAction(status: Status): Action {
    match status
    case Running => Opened
    case Blocked => Action.Blocked
    case Failed => Action.Failed
    case Rejected => Action.Rejected
    case Promoted => Action.Promoted
  }

  /** A job asked to overwrite an ending says so, then states the ending again. */
  function Declined(s: Session, stage: Stage): Session {
    s.Log(WordRow(Actor.System, stage, Opened, OfStatus(s.doc.status)))
    .Log(WordRow(Actor.System, stage, OutcomeAction(s.doc.status), OfStatus(s.doc.status)))
  }

  /** The two rows of a job that found the run over, and nothing else: the run is as it was. */
  lemma DeclinedSays(s: Session, stage: Stage)
    ensures var t := Declined(s, stage);
      && t.doc == s.doc && t.calls == s.calls
      && t.rows == s.rows + [Row(Actor.System, stage, Opened, OfStatus(s.doc.status), "", "", Unrecorded),
                             Row(Actor.System, stage, match s.doc.status
                                                      case Running => Opened
                                                      case Blocked => Action.Blocked
                                                      case Rejected => Action.Rejected
                                                      case Failed => Action.Failed
                                                      case Promoted => Action.Promoted,
                                 OfStatus(s.doc.status), "", "", Unrecorded)]
  {
  }

  // ----- the jobs ---------------------------------------------------------

  /** `_emit`: save, pausing for the next gate if there is one, and report an ending. */
  function Emitted(s: Session, pausingFor: Option<GateName>): Session {
    var s1 := if pausingFor.Some? then s.Log(PauseRow(pausingFor.value)) else s;
    if Terminal(s1.doc.status) then Reported(s1) else s1
  }

  function PlanJob(start: RunDoc, trigger: string, plan: PlanResult): Session {
    var s := Session(start, [], []).Log(StageStartRow(start.ticketId, trigger));
    Emitted(Planned(s, plan), Some(Gate1))
  }

  function Approval(gate: GateName): HumanDecision {
    HumanDecision(gate, Decision.Approved)
  }

  function Refusal(gate: GateName): HumanDecision {
    HumanDecision(gate, Decision.Rejected)
  }

  function GateJob(s: Session, gate: GateName): Session {
    Emitted(Resumed(s, Approval(gate)).Post(GateNote(Approval(gate))), None)
  }

  function RecordJob(s: Session, gate: GateName): Ended {
    if Terminal(s.doc.status) then Ended(Emitted(Declined(s, AtGate(gate)), None), ExitAlreadyFinal)
    else Ended(Emitted(Resumed(s, Refusal(gate)).Post(GateNote(Refusal(gate))), None), ExitRejected)
  }

  function DevelopVerdict(s: Session, script: Script): Ended
    requires s.doc.security.Some? && s.doc.review.Some?
  {
    if IsBlocked(s.doc) then Ended(Emitted(Halted(s, script.delivery), None), ExitBlocked)
    else if !IsApproved(s.doc) then Ended(Emitted(Unapproved(s), None), ExitRejected)
    else Ended(Emitted(s, Some(Gate2)), ExitOk)
  }

  /** A raise ends the process before anything is saved; the rows are already in the log. */
  function DevelopJob(s: Session, script: Script, cfg: Config): Ended {
    match ProposedBy(s, script, cfg)
    case Crashed(s1) => Ended(s1.With(s.doc), ExitCrash)
    case Settled(s1, attempts) =>
      SettledHoldsReview(s, script, cfg.maxRevisionLoops, []);
      FlushKeepsDoc(PrOpenedBy(s1, script, cfg), attempts);
      DevelopVerdict(Published(s1, attempts, script, cfg), script)
  }

  function SreConcluded(s: Session): Ended {
    if SaysNoGo(s.doc) then Ended(Emitted(NotGone(s), None), ExitRejected)
    else Ended(Emitted(s, Some(Gate3)), ExitOk)
  }

  function SreJob(s: Session, script: Script): Ended {
    SreConcluded(SreAsked(s, script))
  }

  function PromoteJob(s: Session, script: Script, cfg: Config): Ended {
    if Terminal(s.doc.status) then Ended(Emitted(Declined(s, Stage.Promote), None), ExitAlreadyFinal)
    else if NotPromotable(s.doc).Some? then Ended(Emitted(PromotionRefused(s), None), ExitNotPromotable)
    else Ended(Emitted(Shipped(s, script.merge, cfg), None), ExitOk)
  }

  /** A promotion nothing earned: the run fails, one row says so, and nothing is merged. */
  lemma UnearnedSays(s: Session, script: Script, cfg: Config)
    requires s.doc.status == Status.Running && NotPromotable(s.doc).Some?
    ensures var t := PromoteJob(s, script, cfg).s;
      && t.doc == s.doc.(status := Status.Failed)
      && t.rows == s.rows + [Row(Actor.System, Stage.Promote, Action.Failed, NoWord, "", "", Unrecorded)]
      && t.calls == s.calls + [ReportOutcome(Status.Failed)]
  {
  }

  // ----- the chain --------------------------------------------------------

  /** What the workflow runs at a gate: the gate's own job, or the recorder of its refusal. */
  function AtTheGate(s: Session, gate: GateName, script: Script): Ended {
    if script.approves(gate) then Ended(GateJob(s, gate), ExitOk) else RecordJob(s, gate)
  }

  function ChainFromGate3(s: Session, script: Script, cfg: Config): Ended {
    var gate := AtTheGate(s, Gate3, script);
    if gate.exit != ExitOk then gate else PromoteJob(gate.s, script, cfg)
  }

  function ChainFromSre(s: Session, script: Script, cfg: Config): Ended {
    var sre := SreJob(s, script);
    if sre.exit != ExitOk then sre else ChainFromGate3(sre.s, script, cfg)
  }

  function ChainFromGate2(s: Session, script: Script, cfg: Config): Ended {
    var gate := AtTheGate(s, Gate2, script);
    if gate.exit != ExitOk then gate else ChainFromSre(gate.s, script, cfg)
  }

  function ChainFromDevelop(s: Session, script: Script, cfg: Config): Ended {
    var develop := DevelopJob(s, script, cfg);
    if develop.exit != ExitOk then develop else ChainFromGate2(develop.s, script, cfg)
  }

  function ChainFromGate1(s: Session, script: Script, cfg: Config): Ended {
    var gate := AtTheGate(s, Gate1, script);
    if gate.exit != ExitOk then gate else ChainFromDevelop(gate.s, script, cfg)
  }

  /** plan, gate1, develop, gate2, sre, gate3, promote: each job runs only if the one before
      it exited 0. */
  function Chained(start: RunDoc, trigger: string, script: Script, cfg: Config): Ended {
    ChainFromGate1(PlanJob(start, trigger, script.plan), script, cfg)
  }

  // ----- the code ---------------------------------------------------------

  method Emit(state: RunState, pausingFor: Option<GateName>, w: World)
    modifies w
    ensures state.runId in w.docs && Filed(state.runId, w)
    ensures Stored(state.runId, w) == Emitted(old(Live(state, w)), pausingFor)
    ensures w.Elsewhere(state.runId) == old(w.Elsewhere(state.runId))
  {
    if pausingFor.Some? {
      Pause(state, pausingFor.value, w);
    } else {
      Save(state, w);
    }
    if Terminal(state.status) {
      w.Perform(state.runId, ReportOutcome(state.status));
    }
  }

  method StagePlan(start: RunDoc, trigger: string, script: Script, w: World) returns (exit: Exit)
    requires start.runId !in w.docs && start.runId !in w.logs && start.runId !in w.calls
    modifies w
    ensures start.runId in w.docs && Filed(start.runId, w) && exit == ExitOk
    ensures Stored(start.runId, w) == PlanJob(start, trigger, script.plan)
    ensures w.Elsewhere(start.runId) == old(w.Elsewhere(start.runId))
  {
    var state := new RunState(start);
    w.Append(state.runId, StageStartRow(state.ticketId, trigger));
    state.plan := Some(script.plan);
    w.Append(state.runId, PLANNED_ROW);
    w.Post(state, PlanNote(script.plan));
    Emit(state, Some(Gate1), w);
    return ExitOk;
  }

  /** Records a decision on a stored run, says so, and saves what that leaves. */
  method Record(runId: string, d: HumanDecision, w: World)
    requires runId in w.docs && Filed(runId, w)
    modifies w
    ensures runId in w.docs && Filed(runId, w)
    ensures Stored(runId, w) == Emitted(Resumed(old(Stored(runId, w)), d).Post(GateNote(d)), None)
    ensures w.Elsewhere(runId) == old(w.Elsewhere(runId))
  {
    var state := Resume(runId, d, w);
    w.Post(state, GateNote(d));
    Emit(state, None, w);
  }

  method StageGate(runId: string, gate: GateName, w: World) returns (exit: Exit)
    requires Filed(runId, w)
    modifies w
    ensures runId !in old(w.docs) ==> exit == ExitCrash && w.docs == old(w.docs) && w.logs == old(w.logs)
    ensures runId in old(w.docs) ==>
              && runId in w.docs && Filed(runId, w)
              && exit == ExitOk && Stored(runId, w) == GateJob(old(Stored(runId, w)), gate)
    ensures w.Elsewhere(runId) == old(w.Elsewhere(runId))
  {
    if runId !in w.docs {
      return ExitCrash;
    }
    Record(runId, Approval(gate), w);
    return ExitOk;
  }

  method Decline(state: RunState, stage: Stage, w: World)
    modifies w
    ensures state.runId in w.docs && Filed(state.runId, w)
    ensures Stored(state.runId, w) == Emitted(Declined(old(Live(state, w)), stage), None)
    ensures w.Elsewhere(state.runId) == old(w.Elsewhere(state.runId))
  {
    w.Append(state.runId, WordRow(Actor.System, stage, Opened, OfStatus(state.status)));
    w.Append(state.runId, WordRow(Actor.System, stage, OutcomeAction(state.status), OfStatus(state.status)));
    Emit(state, None, w);
  }

  method StageGateRejected(runId: string, gate: GateName, w: World) returns (exit: Exit)
    requires Filed(runId, w)
    modifies w
    ensures runId !in old(w.docs) ==> exit == ExitCrash && w.docs == old(w.docs) && w.logs == old(w.logs)
    ensures runId in old(w.docs) ==>
              && runId in w.docs && Filed(runId, w)
              && Ended(Stored(runId, w), exit) == RecordJob(old(Stored(runId, w)), gate)
    ensures w.Elsewhere(runId) == old(w.Elsewhere(runId))
  {
    var state := Load(runId, w);
    if state == null {
      return ExitCrash;
    }
    if Terminal(state.status) {
      Decline(state, AtGate(gate), w);
      return ExitAlreadyFinal;
    }
    Record(runId, Refusal(gate), w);
    return ExitRejected;
  }

  method StageDevelop(runId: string, script: Script, cfg: Config, w: World) returns (exit: Exit)
    requires Filed(runId, w)
    modifies w
    ensures runId !in old(w.docs) ==> exit == ExitCrash && w.docs == old(w.docs) && w.logs == old(w.logs)
    ensures runId in old(w.docs) ==>
              && runId in w.docs && Filed(runId, w)
              && Ended(Stored(runId, w), exit) == DevelopJob(old(Stored(runId, w)), script, cfg)
    ensures w.Elsewhere(runId) == old(w.Elsewhere(runId))
  {
    var state := Load(runId, w);
    if state == null {
      return ExitCrash;
    }
    ghost var s := Live(state, w);
    var raised, queue := Revise(state, script, cfg.maxRevisionLoops, w);
    if raised {
      return ExitCrash;
    }
    SettledHoldsReview(s, script, cfg.maxRevisionLoops, []);
    FlushKeepsDoc(PrOpenedBy(Live(state, w), script, cfg), queue);
    raised := Publish(state, queue, script, cfg, w);
    if raised {
      return ExitCrash;
    }
    exit := ConcludeDevelop(state, script, w);
  }

  method ConcludeDevelop(state: RunState, script: Script, w: World) returns (exit: Exit)
    requires state.security.Some? && state.review != null
    modifies state`status, w
    ensures state.runId in w.docs && Filed(state.runId, w)
    ensures Ended(Stored(state.runId, w), exit) == DevelopVerdict(old(Live(state, w)), script)
    ensures w.Elsewhere(state.runId) == old(w.Elsewhere(state.runId))
  {
    if state.security.value.verdict == Block {
      state.status := Status.Blocked;
      w.Append(state.runId, HaltRow(script.delivery, state.security.value));
      Emit(state, None, w);
      return ExitBlocked;
    }
    if state.review.verdict != Approve {
      state.status := Status.Failed;
      w.Append(state.runId, UnapprovedRow(state.review.Doc()));
      Emit(state, None, w);
      return ExitRejected;
    }
    Emit(state, Some(Gate2), w);
    return ExitOk;
  }

  method StageSre(runId: string, script: Script, w: World) returns (exit: Exit)
    requires Filed(runId, w)
    modifies w
    ensures runId !in old(w.docs) ==> exit == ExitCrash && w.docs == old(w.docs) && w.logs == old(w.logs)
    ensures runId in old(w.docs) ==>
              && runId in w.docs && Filed(runId, w)
              && Ended(Stored(runId, w), exit) == SreJob(old(Stored(runId, w)), script)
    ensures w.Elsewhere(runId) == old(w.Elsewhere(runId))
  {
    var state := Load(runId, w);
    if state == null {
      return ExitCrash;
    }
    AskSre(state, script, w);
    exit := ConcludeSre(state, w);
  }

  method ConcludeSre(state: RunState, w: World) returns (exit: Exit)
    requires state.sre.Some?
    modifies state`status, w
    ensures state.runId in w.docs && Filed(state.runId, w)
    ensures Ended(Stored(state.runId, w), exit) == SreConcluded(old(Live(state, w)))
    ensures w.Elsewhere(state.runId) == old(w.Elsewhere(state.runId))
  {
    if state.sre.value.verdict == NoGo {
      state.status := Status.Failed;
      w.Append(state.runId, NO_GO_ROW);
      Emit(state, None, w);
      return ExitRejected;
    }
    Emit(state, Some(Gate3), w);
    return ExitOk;
  }

  method StagePromote(runId: string, script: Script, cfg: Config, w: World) returns (exit: Exit)
    requires Filed(runId, w)
    modifies w
    ensures runId !in old(w.docs) ==> exit == ExitCrash && w.docs == old(w.docs) && w.logs == old(w.logs)
    ensures runId in old(w.docs) ==>
              && runId in w.docs && Filed(runId, w)
              && Ended(Stored(runId, w), exit) == PromoteJob(old(Stored(runId, w)), script, cfg)
    ensures w.Elsewhere(runId) == old(w.Elsewhere(runId))
  {
    var state := Load(runId, w);
    if state == null {
      return ExitCrash;
    }
    if Terminal(state.status) {
      Decline(state, Stage.Promote, w);
      return ExitAlreadyFinal;
    }
    if NotPromotable(state.Doc()).Some? {
      state.status := Status.Failed;
      w.Append(state.runId, UNPROMOTABLE_ROW);
      Emit(state, None, w);
      return ExitNotPromotable;
    }
    Ship(state, script, cfg, w);
    Emit(state, None, w);
    return ExitOk;
  }

  // ----- the workflow -----------------------------------------------------

  method GateOrRecorder(runId: string, gate: GateName, script: Script, w: World) returns (exit: Exit)
    requires runId in w.docs && Filed(runId, w)
    modifies w
    ensures runId in w.docs && Filed(runId, w)
    ensures Ended(Stored(runId, w), exit) == AtTheGate(old(Stored(runId, w)), gate, script)
    ensures w.Elsewhere(runId) == old(w.Elsewhere(runId))
  {
    if script.approves(gate) {
      exit := StageGate(runId, gate, w);
    } else {
      exit := StageGateRejected(runId, gate, w);
    }
  }

  /** The jobs after gate2, each a process of its own over the same store. */
  method RunFromSre(runId: string, script: Script, cfg: Config, w: World) returns (exit: Exit)
    requires runId in w.docs && Filed(runId, w)
    modifies w
    ensures runId in w.docs && Filed(runId, w)
    ensures Ended(Stored(runId, w), exit) == ChainFromSre(old(Stored(runId, w)), script, cfg)
    ensures w.Elsewhere(runId) == old(w.Elsewhere(runId))
  {
    exit := StageSre(runId, script, w);
    if exit != ExitOk {
      return;
    }
    exit := GateOrRecorder(runId, Gate3, script, w);
    if exit != ExitOk {
      return;
    }
    exit := StagePromote(runId, script, cfg, w);
  }

  method RunFromDevelop(runId: string, script: Script, cfg: Config, w: World) returns (exit: Exit)
    requires runId in w.docs && Filed(runId, w)
    modifies w
    ensures runId in w.docs && Filed(runId, w)
    ensures Ended(Stored(runId, w), exit) == ChainFromDevelop(old(Stored(runId, w)), script, cfg)
    ensures w.Elsewhere(runId) == old(w.Elsewhere(runId))
  {
    exit := StageDevelop(runId, script, cfg, w);
    if exit != ExitOk {
      return;
    }
    exit := GateOrRecorder(runId, Gate2, script, w);
    if exit != ExitOk {
      return;
    }
    exit := RunFromSre(runId, script, cfg, w);
  }

  /** The workflow: seven jobs over one store, each loading what the one before it saved and
      run only if that one exited 0. */
  method RunChain(start: RunDoc, trigger: string, script: Script, cfg: Config, w: World) returns (code: nat)
    requires start.runId !in w.docs && start.runId !in w.logs && start.runId !in w.calls
    modifies w
    ensures start.runId in w.docs && Filed(start.runId, w)
    ensures Stored(start.runId, w) == Chained(start, trigger, script, cfg).s
    ensures code == Chained(start, trigger, script, cfg).exit.Code()
    ensures w.Elsewhere(start.runId) == old(w.Elsewhere(start.runId))
  {
    var exit := StagePlan(start, trigger, script, w);
    exit := GateOrRecorder(start.runId, Gate1, script, w);
    if exit == ExitOk {
      exit := RunFromDevelop(start.runId, script, cfg, w);
    }
    return exit.Code();
  }
}
