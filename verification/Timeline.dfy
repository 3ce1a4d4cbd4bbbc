/** agentorg/timeline.py: the banner, read off the log alone. */
module Timeline {
  import opened Prelude
  import opened State
  import opened Settings
  import opened Sessions
  import opened Gates
  import opened Graph
  import opened RunStage
  import opened Equivalence
  import opened Endings
  import opened Safety
  import opened Delivery

  // ----- the banner -------------------------------------------------------

  datatype Banner = PROMOTED | BLOCKED | REJECTED | FAILED | INCOMPLETE

  function BannerOfAction(action: Action): Banner {
    match action
    case Promoted => PROMOTED
    case Blocked => BLOCKED
    case Rejected => REJECTED
    case Failed => FAILED
    case _ => INCOMPLETE
  }

  /** The last row decides. */
  function Outcome(rows: seq<Row>): Banner
    requires rows != []
  {
    BannerOfAction(rows[|rows| - 1].action)
  }

  function BannerOfStatus(status: Status): Banner {
    match status
    case Running => INCOMPLETE
    case Promoted => PROMOTED
    case Blocked => BLOCKED
    case Rejected => REJECTED
    case Failed => FAILED
  }

  /** The banner says what the state document says. */
  ghost predicate Honest(s: Session) {
    s.rows != [] && Outcome(s.rows) == BannerOfStatus(s.doc.status)
  }

  /** Banner and status meet exactly where the last row's action is the status's own: the four
      endings each have theirs, and a run that is on ends on none of them. */
  lemma HonestExactly(s: Session)
    requires s.rows != []
    ensures var last := s.rows[|s.rows| - 1].action;
      Honest(s)
      <==> match s.doc.status
           case Running => last !in {Action.Promoted, Action.Blocked, Action.Rejected, Action.Failed}
           case Promoted => last == Action.Promoted
           case Blocked => last == Action.Blocked
           case Rejected => last == Action.Rejected
           case Failed => last == Action.Failed
    ensures Outcome(s.rows) == PROMOTED <==> s.rows[|s.rows| - 1].action == Action.Promoted
    ensures Outcome(s.rows) == BLOCKED <==> s.rows[|s.rows| - 1].action == Action.Blocked
    ensures Outcome(s.rows) == REJECTED <==> s.rows[|s.rows| - 1].action == Action.Rejected
    ensures Outcome(s.rows) == FAILED <==> s.rows[|s.rows| - 1].action == Action.Failed
  {
  }

  /** The loop ends on a review row, unless its very first draft raises and it writes nothing. */
  lemma {:induction false} LoopLastRow(s: Session, script: Script, cap: int, before: seq<Attempt>)
    ensures var t := Revised(s, script, cap, before).s;
      if script.drafts(|before|).Raised? then t.rows == s.rows else t.rows != [] && Outcome(t.rows) == INCOMPLETE
    decreases Budget(s.doc.revisionCount, cap)
  {
    match Try(s.doc, script, |before|)
    case Raised =>
    case Ok(a) =>
      if !Over(s.doc, a.review, cap) {
        LoopLastRow(Judged(Bumped(Tried(s, a)), a), script, cap, before + [a]);
      }
  }

  /** Jobs that advance a run, and decisions, meet only a run that is still open. The
      recorders and promote may meet any run at all. */
  predicate InOrder(s: Session, step: Step) {
    step.RunRecorder? || step.RunPromote? || s.doc.status == Status.Running
  }

  lemma DeclinedIsHonest(s: Session, stage: Stage)
    requires Terminal(s.doc.status)
    ensures Honest(Emitted(Declined(s, stage), None)) && Emitted(Declined(s, stage), None).doc == s.doc
  {
  }

  lemma VerdictIsHonest(s: Session, script: Script)
    requires s.doc.status == Status.Running && s.doc.security.Some? && s.doc.review.Some?
    ensures Honest(DevelopVerdict(s, script).s)
  {
  }

  lemma DevelopIsHonest(s: Session, script: Script, cfg: Config)
    requires Honest(s) && s.doc.status == Status.Running
    ensures Honest(DevelopJob(s, script, cfg).s)
  {
    var loop := Revised(s, script, cfg.maxRevisionLoops, []);
    RevisedKeeps(s, script, cfg.maxRevisionLoops, []);
    if loop.Settled? && script.opens {
      SettledHoldsReview(s, script, cfg.maxRevisionLoops, []);
      PublishedKeeps(loop.s, loop.attempts, script, cfg);
      VerdictIsHonest(Published(loop.s, loop.attempts, script, cfg), script);
    } else {
      LoopLastRow(s, script, cfg.maxRevisionLoops, []);
    }
  }

  /** In order, every step leaves an honest banner and never rewrites an ending. */
  lemma StepIsHonest(s: Session, step: Step, cfg: Config)
    requires Honest(s) && InOrder(s, step)
    ensures Honest(After(s, step, cfg))
    ensures Terminal(s.doc.status) ==> After(s, step, cfg).doc.status == s.doc.status
  {
    match step
    case RunGate(gate) =>
    case RunRecorder(gate) =>
      if Terminal(s.doc.status) {
        DeclinedIsHonest(s, AtGate(gate));
      }
    case RunDevelop(script) => DevelopIsHonest(s, script, cfg);
    case RunSre(script) => SreIsHonest(s, script);
    case RunPromote(script) =>
      if Terminal(s.doc.status) {
        DeclinedIsHonest(s, Stage.Promote);
      } else {
        PromoteIsHonest(s, script, cfg);
      }
    case RecordDecision(d) =>
  }

  ghost predicate AllInOrder(s: Session, steps: seq<Step>, cfg: Config)
    decreases |steps|
  {
    steps == [] || (InOrder(s, steps[0]) && AllInOrder(After(s, steps[0], cfg), steps[1..], cfg))
  }

  lemma {:induction false} AlwaysHonest(s: Session, steps: seq<Step>, cfg: Config)
    requires Honest(s) && AllInOrder(s, steps, cfg)
    ensures Honest(AfterAll(s, steps, cfg))
    ensures Terminal(s.doc.status) ==> AfterAll(s, steps, cfg).doc.status == s.doc.status
    decreases |steps|
  {
    if steps != [] {
      StepIsHonest(s, steps[0], cfg);
      AlwaysHonest(After(s, steps[0], cfg), steps[1..], cfg);
    }
  }

  // ----- out of order -----------------------------------------------------

  /** What a develop job finds when its loop settles: a block, or nobody's approval. */
  predicate EndsAgain(ticketId: string, attempts: seq<Attempt>, script: Script, cfg: Config)
    requires attempts != []
  {
    var last := attempts[|attempts| - 1];
    script.security(Some(Shown(ticketId, last.dev, script, cfg))).verdict == Block || last.review.verdict != Approve
  }

  /** When a step on an ended run leaves a banner that tells its status: the recorders and
      promote always, a gate job never, a decision if it rejects, sre on a no-go, develop if
      it comes to an ending again or dies before it writes anything. */
  ghost predicate Restates(s: Session, step: Step, cfg: Config) {
    match step
    case RunGate(_) => false
    case RunRecorder(_) => true
    case RunPromote(_) => true
    case RecordDecision(d) => d.decision == Decision.Rejected
    case RunSre(script) => script.sre(script.ci).verdict == NoGo
    case RunDevelop(script) =>
      match Passes(script, cfg.maxRevisionLoops, s.doc.revisionCount, [])
      case Raised => script.drafts(0).Raised? && Honest(s)
      case Ok(attempts) => script.opens && attempts != [] && EndsAgain(s.doc.ticketId, attempts, script, cfg)
  }

  /** The status an ended run has after a step: the one it ended with, unless a decision, sre
      or develop ends it again. */
  function StatusThen(s: Session, step: Step, cfg: Config): Status {
    match step
    case RecordDecision(d) => if d.decision == Decision.Rejected then Status.Rejected else s.doc.status
    case RunSre(script) => if script.sre(script.ci).verdict == NoGo then Status.Failed else s.doc.status
    case RunDevelop(script) =>
      var passes := Passes(script, cfg.maxRevisionLoops, s.doc.revisionCount, []);
      if passes.Raised? || !script.opens || passes.value == [] || !EndsAgain(s.doc.ticketId, passes.value, script, cfg)
      then s.doc.status
      else
        var last := passes.value[|passes.value| - 1];
        if script.security(Some(Shown(s.doc.ticketId, last.dev, script, cfg))).verdict == Block then Status.Blocked
        else Status.Failed
    case _ => s.doc.status
  }

  lemma VerdictOutOfOrder(s: Session, script: Script)
    requires Terminal(s.doc.status) && s.doc.security.Some? && s.doc.review.Some?
    ensures var t := DevelopVerdict(s, script).s;
      && (Honest(t) <==> IsBlocked(s.doc) || !IsApproved(s.doc))
      && t.doc.status == if IsBlocked(s.doc) then Status.Blocked
                         else if !IsApproved(s.doc) then Status.Failed else s.doc.status
  {
  }

  lemma DeadDevelopOutOfOrder(s: Session, script: Script, cfg: Config)
    requires Terminal(s.doc.status) && ProposedBy(s, script, cfg).Crashed?
    ensures var t := DevelopJob(s, script, cfg).s;
      t.doc == s.doc && (Honest(t) <==> script.drafts(0).Raised? && Honest(s))
  {
    LoopLastRow(s, script, cfg.maxRevisionLoops, []);
  }

  lemma DevelopOutOfOrder(s: Session, script: Script, cfg: Config)
    requires Terminal(s.doc.status)
    ensures Honest(DevelopJob(s, script, cfg).s) <==> Restates(s, RunDevelop(script), cfg)
    ensures DevelopJob(s, script, cfg).s.doc.status == StatusThen(s, RunDevelop(script), cfg)
  {
    ProposedIsPasses(s, script, cfg);
    var loop := ProposedBy(s, script, cfg);
    if loop.Settled? {
      LoopStanding(s, script, cfg);
      SettledHoldsReview(s, script, cfg.maxRevisionLoops, []);
      RevisedKeeps(s, script, cfg.maxRevisionLoops, []);
      PublishedKeeps(loop.s, loop.attempts, script, cfg);
      VerdictOutOfOrder(Published(loop.s, loop.attempts, script, cfg), script);
    } else {
      FirstDraftDecides(script, cfg.maxRevisionLoops, s.doc.revisionCount, []);
      DeadDevelopOutOfOrder(s, script, cfg);
    }
  }

  /** A loop whose first draft raises raises. */
  lemma FirstDraftDecides(script: Script, cap: int, count: nat, before: seq<Attempt>)
    ensures script.drafts(|before|).Raised? ==> Passes(script, cap, count, before).Raised?
  {
  }

  /** Every step on every ended run: whether the banner then tells the status, and what the
      status is. */
  lemma StepOutOfOrder(s: Session, step: Step, cfg: Config)
    requires Terminal(s.doc.status)
    ensures Honest(After(s, step, cfg)) <==> Restates(s, step, cfg)
    ensures After(s, step, cfg).doc.status == StatusThen(s, step, cfg)
  {
    match step
    case RunGate(gate) =>
    case RunRecorder(gate) => DeclinedIsHonest(s, AtGate(gate));
    case RunDevelop(script) => DevelopOutOfOrder(s, script, cfg);
    case RunSre(script) =>
    case RunPromote(script) => DeclinedIsHonest(s, Stage.Promote);
    case RecordDecision(d) =>
  }

  /** So from an honest run the next banner is honest exactly when the run is open or the step
      restates an ending. */
  lemma StepHonestExactly(s: Session, step: Step, cfg: Config)
    requires Honest(s)
    ensures Honest(After(s, step, cfg)) <==> s.doc.status == Status.Running || Restates(s, step, cfg)
  {
    if s.doc.status == Status.Running {
      StepIsHonest(s, step, cfg);
    } else {
      StepOutOfOrder(s, step, cfg);
    }
  }

  /** An approval recorded on a run the block rule stopped: the status stays blocked, and the
      banner says the run never came to an end. */
  lemma ApprovalHidesABlock(s: Session, gate: GateName, cfg: Config)
    requires s.doc.status == Status.Blocked
    ensures var t := After(s, RecordDecision(HumanDecision(gate, Decision.Approved)), cfg);
      t.doc.status == Status.Blocked && Outcome(t.rows) == INCOMPLETE
  {
  }

  // ----- the chain and the single call ------------------------------------

  lemma PlanIsHonest(start: RunDoc, trigger: string, plan: PlanResult)
    requires start.status == Status.Running
    ensures Honest(PlanJob(start, trigger, plan)) && PlanJob(start, trigger, plan).doc.status == Status.Running
  {
  }

  lemma GateIsHonest(s: Session, gate: GateName, script: Script)
    requires Honest(s) && s.doc.status == Status.Running
    ensures var at := AtTheGate(s, gate, script);
      Honest(at.s) && (at.exit == ExitOk ==> at.s.doc.status == Status.Running)
  {
  }

  lemma SreIsHonest(s: Session, script: Script)
    requires Honest(s) && s.doc.status == Status.Running
    ensures var sre := SreJob(s, script);
      Honest(sre.s) && (sre.exit == ExitOk ==> sre.s.doc.status == Status.Running)
  {
  }

  lemma PromoteIsHonest(s: Session, script: Script, cfg: Config)
    requires Honest(s) && s.doc.status == Status.Running
    ensures Honest(PromoteJob(s, script, cfg).s)
  {
  }

  lemma HonestFromDevelop(s: Session, script: Script, cfg: Config)
    requires Honest(s) && s.doc.status == Status.Running
    ensures Honest(ChainFromDevelop(s, script, cfg).s)
  {
    var develop := DevelopJob(s, script, cfg);
    DevelopIsHonest(s, script, cfg);
    if develop.exit == ExitOk {
      DevelopOkRuns(s, script, cfg);
      GateIsHonest(develop.s, Gate2, script);
      var gate2 := AtTheGate(develop.s, Gate2, script);
      if gate2.exit == ExitOk {
        HonestFromSre(gate2.s, script, cfg);
      }
    }
  }

  lemma HonestFromSre(s: Session, script: Script, cfg: Config)
    requires Honest(s) && s.doc.status == Status.Running
    ensures Honest(ChainFromSre(s, script, cfg).s)
  {
    var sre := SreJob(s, script);
    SreIsHonest(s, script);
    if sre.exit == ExitOk {
      GateIsHonest(sre.s, Gate3, script);
      var gate3 := AtTheGate(sre.s, Gate3, script);
      if gate3.exit == ExitOk {
        PromoteIsHonest(gate3.s, script, cfg);
      }
    }
  }

  lemma ChainIsHonest(start: RunDoc, trigger: string, script: Script, cfg: Config)
    requires start.status == Status.Running
    ensures Honest(Chained(start, trigger, script, cfg).s)
  {
    var s0 := PlanJob(start, trigger, script.plan);
    PlanIsHonest(start, trigger, script.plan);
    GateIsHonest(s0, Gate1, script);
    var gate1 := AtTheGate(s0, Gate1, script);
    if gate1.exit == ExitOk {
      HonestFromDevelop(gate1.s, script, cfg);
    }
  }

  /** A develop job that comes through leaves the run's status alone. */
  lemma DevelopOkRuns(s: Session, script: Script, cfg: Config)
    requires DevelopJob(s, script, cfg).exit == ExitOk
    ensures DevelopJob(s, script, cfg).s.doc.status == s.doc.status
  {
    var loop := Revised(s, script, cfg.maxRevisionLoops, []);
    RevisedKeeps(s, script, cfg.maxRevisionLoops, []);
    SettledHoldsReview(s, script, cfg.maxRevisionLoops, []);
    PublishedKeeps(loop.s, loop.attempts, script, cfg);
  }

  /** The workflow's chain, however far it gets, followed by any number of recorders and
      promotes: an ending stands, and the banner always shows the status. */
  lemma {:induction false} ChainBanner(start: RunDoc, trigger: string, script: Script, cfg: Config, later: seq<Step>)
    requires start.status == Status.Running
    requires forall i | 0 <= i < |later| :: later[i].RunRecorder? || later[i].RunPromote?
    ensures var chain := Chained(start, trigger, script, cfg);
      var s := AfterAll(chain.s, later, cfg);
      && Honest(s)
      && (Terminal(chain.s.doc.status) ==> s.doc.status == chain.s.doc.status)
  {
    var s := Chained(start, trigger, script, cfg).s;
    ChainIsHonest(start, trigger, script, cfg);
    RecordersAreInOrder(s, later, cfg);
    AlwaysHonest(s, later, cfg);
  }

  lemma {:induction false} RecordersAreInOrder(s: Session, later: seq<Step>, cfg: Config)
    requires forall i | 0 <= i < |later| :: later[i].RunRecorder? || later[i].RunPromote?
    ensures AllInOrder(s, later, cfg)
    decreases |later|
  {
    if later != [] {
      RecordersAreInOrder(After(s, later[0], cfg), later[1..], cfg);
    }
  }

  /** The single call leaves an honest banner too, raise or no raise. */
  lemma {:induction false} WalkBanner(start: RunDoc, script: Script, cfg: Config)
    requires start.status == Status.Running && start.decisions == [] && start.revisionCount == 0
    ensures Honest(Ran(start, script, cfg).s)
  {
    PipelinesAgree(start, start.poisoned, "", script, cfg);
    assert start.(poisoned := start.poisoned) == start;
    ChainIsHonest(start, "", script, cfg);
    FactsDecide(Chained(start, "", script, cfg).s, Ran(start, script, cfg).s);
  }

  lemma FactsDecide(s: Session, t: Session)
    requires Honest(s) && Facts(s.rows) == Facts(t.rows) && s.doc.status == t.doc.status
    ensures Honest(t)
  {
    assert |s.rows| == |Facts(s.rows)| == |Facts(t.rows)| == |t.rows|;
    var last := |s.rows| - 1;
    assert Facts(s.rows)[last] == FactOf(s.rows[last]) && Facts(t.rows)[last] == FactOf(t.rows[last]);
  }

  // ----- what a blocked run tells -----------------------------------------

  /** What a reader of the halt row learns: nothing if the reason was delivered nowhere, and
      otherwise what the scheme of the reference stands for. */
  ghost predicate Tells(told: Option<DeliveryNote>, reference: string) {
    && (told == None <==> reference == "")
    && (told == Some(Posted) <==> HasScheme(reference, "https"))
    && (told == Some(WrittenLocally) <==> HasScheme(reference, "local"))
    && (told == Some(NotReported) <==> HasScheme(reference, "comment"))
  }

  /** The log ends on a halt row that tells where the reason went. */
  ghost predicate EndsTelling(rows: seq<Row>, reference: string) {
    rows != [] && Tells(Delivery.Delivery(rows[|rows| - 1]), reference)
  }

  lemma HaltRowTells(reference: string, r: SecurityResult)
    ensures Tells(Delivery.Delivery(HaltRow(reference, r)), reference)
  {
    NoteExactly(reference);
    RefReadBack(reference);
  }

  lemma BlockedDevelopTells(s: Session, script: Script, cfg: Config)
    requires var passes := Passes(script, cfg.maxRevisionLoops, s.doc.revisionCount, []);
      && passes.Ok? && script.opens && passes.value != []
      && var last := passes.value[|passes.value| - 1];
         script.security(Some(Shown(s.doc.ticketId, last.dev, script, cfg))).verdict == Block
    ensures WalkDevelop(s, script, cfg).Finished? && EndsTelling(WalkDevelop(s, script, cfg).s.rows, script.delivery)
    ensures DevelopJob(s, script, cfg).exit == ExitBlocked
    ensures EndsTelling(DevelopJob(s, script, cfg).s.rows, script.delivery)
  {
    ProposedIsPasses(s, script, cfg);
    var loop := ProposedBy(s, script, cfg);
    LoopStanding(s, script, cfg);
    SettledHoldsReview(s, script, cfg.maxRevisionLoops, []);
    PublishedKeeps(loop.s, loop.attempts, script, cfg);
    HaltRowTells(script.delivery, Published(loop.s, loop.attempts, script, cfg).doc.security.value);
  }

  /** Both pipelines: the log of a blocked run ends by telling what became of the reason. */
  lemma {:induction false} BlockedRunTells(start: RunDoc, poisoned: bool, trigger: string, script: Script, cfg: Config)
    requires start.revisionCount == 0
    requires Ending(start.ticketId, script, cfg) == Some(Status.Blocked)
    ensures EndsTelling(Ran(start, script, cfg).s.rows, script.delivery)
    ensures EndsTelling(Chained(start.(poisoned := poisoned), trigger, script, cfg).s.rows, script.delivery)
  {
    var a := Asked(Started(Session(start, [], []), script.plan), Answer(Gate1, script));
    BlockedDevelopTells(a, script, cfg);
    BlockedChainTells(start.(poisoned := poisoned), trigger, script, cfg);
  }

  lemma BlockedChainTells(start: RunDoc, trigger: string, script: Script, cfg: Config)
    requires start.revisionCount == 0
    requires Ending(start.ticketId, script, cfg) == Some(Status.Blocked)
    ensures EndsTelling(Chained(start, trigger, script, cfg).s.rows, script.delivery)
  {
    BlockedDevelopTells(GateJob(PlanJob(start, trigger, script.plan), Gate1), script, cfg);
  }
}
