/** What the approval screen shows of a run the workflow drives, and how often one gate can be
    decided from it. */
module ApprovalProperties {
  import opened Prelude
  import opened State
  import opened Settings
  import opened GithubOps
  import opened Sessions
  import opened Gates
  import opened Graph
  import opened RunStage
  import opened Equivalence
  import opened Endings
  import opened Safety
  import Wording
  import PauseMarker
  import Screen = Approval

  // ----- the chain, cut after each job ------------------------------------

  function Job(k: nat, s: Session, script: Script, cfg: Config): Ended {
    match k
    case 1 => AtTheGate(s, Gate1, script)
    case 2 => DevelopJob(s, script, cfg)
    case 3 => AtTheGate(s, Gate2, script)
    case 4 => SreJob(s, script)
    case 5 => AtTheGate(s, Gate3, script)
    case _ => PromoteJob(s, script, cfg)
  }

  /** The run once the jobs up to number `k` have had their turn. */
  function ChainedUpTo(k: nat, start: RunDoc, trigger: string, script: Script, cfg: Config): Ended {
    if k == 0 then Ended(PlanJob(start, trigger, script.plan), ExitOk)
    else
      var before := ChainedUpTo(k - 1, start, trigger, script, cfg);
      if before.exit != ExitOk then before else Job(k, before.s, script, cfg)
  }

  lemma SixJobsAreTheChain(start: RunDoc, trigger: string, script: Script, cfg: Config)
    ensures ChainedUpTo(6, start, trigger, script, cfg) == Chained(start, trigger, script, cfg)
  {
    var p0 := ChainedUpTo(0, start, trigger, script, cfg);
    var p1 := ChainedUpTo(1, start, trigger, script, cfg);
    var p2 := ChainedUpTo(2, start, trigger, script, cfg);
    var p3 := ChainedUpTo(3, start, trigger, script, cfg);
    var p4 := ChainedUpTo(4, start, trigger, script, cfg);
    var p5 := ChainedUpTo(5, start, trigger, script, cfg);
    assert p1 == Job(1, p0.s, script, cfg);
    if p1.exit == ExitOk {
      assert p2 == Job(2, p1.s, script, cfg);
      if p2.exit == ExitOk {
        assert p3 == Job(3, p2.s, script, cfg);
        if p3.exit == ExitOk {
          assert p4 == Job(4, p3.s, script, cfg);
        }
      }
    }
  }

  // ----- what each job leaves open ----------------------------------------

  lemma PausedAppend(rows: seq<Row>, row: Row)
    ensures Screen.Paused(rows + [row])
            == Screen.Paused(rows) + if Screen.PausesAt(row) then {row.stage} else {}
  {
    assert (rows + [row])[..|rows|] == rows;
  }

  lemma QuietRow(s: Session, row: Row)
    requires row.action != Opened
    ensures Screen.Paused(s.Log(row).rows) == Screen.Paused(s.rows)
  {
    PausedAppend(s.rows, row);
  }

  lemma PauseLogged(s: Session, gate: GateName)
    ensures Screen.Paused(s.Log(PauseRow(gate)).rows) == Screen.Paused(s.rows) + {AtGate(gate)}
  {
    PausedAppend(s.rows, PauseRow(gate));
    PauseMarker.PausesAreMarked(gate);
  }

  lemma DecidedAppend(decisions: seq<HumanDecision>, d: HumanDecision)
    ensures Screen.Decided(decisions + [d]) == Screen.Decided(decisions) + {AtGate(d.gate)}
  {
    assert forall x :: x in decisions + [d] <==> x in decisions || x == d;
  }

  /** Still running, with exactly these stages paused at and these decided. */
  ghost predicate Waiting(s: Session, ticketId: string, paused: set<Stage>, decided: set<Stage>) {
    && s.doc.status == Status.Running
    && s.doc.ticketId == ticketId
    && Screen.Paused(s.rows) == paused
    && Screen.Decided(s.doc.decisions) == decided
  }

  // ----- rows taken for a pause that are none -----------------------------

  /** What the opening row is taken for: a pause at the plan stage, if the ticket or the trigger
      spells the marker out. */
  function PlanStray(ticketId: string, trigger: string): set<Stage> {
    if PauseMarker.Marked(ticketId) || PauseMarker.Marked(trigger) then {Stage.Plan} else {}
  }

  /** What the row of a pull request for this change is taken for: a pause at the develop stage,
      if its address spells the marker out, which offline is made of the ticket and the digest. */
  function PrStray(ticketId: string, dev: DevDoc, script: Script, cfg: Config): set<Stage> {
    var spelt := if cfg.offline then PauseMarker.Marked(ticketId) || PauseMarker.Marked(cfg.shortSha(dev.diff))
                 else PauseMarker.Marked(script.prUrl);
    if spelt then {Develop} else {}
  }

  /** The same for the change the loop settles on, `count` revisions having been made before. */
  function DevelopStray(ticketId: string, count: nat, script: Script, cfg: Config): set<Stage> {
    match Passes(script, cfg.maxRevisionLoops, count, [])
    case Raised => {}
    case Ok(attempts) => if attempts == [] then {} else PrStray(ticketId, attempts[|attempts| - 1].dev, script, cfg)
  }

  /** The run's own words nowhere spell the pause marker out. */
  ghost predicate MarkerFree(ticketId: string, trigger: string, script: Script, cfg: Config) {
    && !PauseMarker.Marked(ticketId) && !PauseMarker.Marked(trigger) && !PauseMarker.Marked(script.prUrl)
    && forall diff :: !PauseMarker.Marked(cfg.shortSha(diff))
  }

  lemma PlanOpensGate1(start: RunDoc, trigger: string, plan: PlanResult)
    requires start.status == Status.Running && start.decisions == []
    ensures var s := PlanJob(start, trigger, plan);
      && Waiting(s, start.ticketId, Screen.Paused(s.rows), {})
      && Screen.Paused(s.rows)
         == PlanStray(start.ticketId, trigger) + {AtGate(Gate1)}
  {
    var s0 := Session(start, [], []);
    var row := StageStartRow(start.ticketId, trigger);
    PausedAppend([], row);
    PauseMarker.StartIsMarked(start.ticketId, trigger);
    var s1 := s0.Log(row);
    QuietRow(s1.With(s1.doc.(plan := Some(plan))), PLANNED_ROW);
    PauseLogged(Planned(s1, plan), Gate1);
  }

  lemma GateDecides(s: Session, gate: GateName, script: Script, ticketId: string, paused: set<Stage>,
                    decided: set<Stage>)
    requires Waiting(s, ticketId, paused, decided)
    ensures var at := AtTheGate(s, gate, script);
      if script.approves(gate) then at.exit == ExitOk && Waiting(at.s, ticketId, paused, decided + {AtGate(gate)})
      else at.exit == ExitRejected && Terminal(at.s.doc.status)
  {
    var d := Approval(gate);
    DecidedAppend(s.doc.decisions, d);
    QuietRow(s.With(Gates.Decided(s.doc, d)), DecisionRow(d));
  }

  lemma {:induction false} LoopOpensNothing(s: Session, script: Script, cap: int, before: seq<Attempt>)
    ensures Screen.Paused(Revised(s, script, cap, before).s.rows) == Screen.Paused(s.rows)
    decreases Budget(s.doc.revisionCount, cap)
  {
    match Try(s.doc, script, |before|)
    case Raised =>
    case Ok(a) =>
      var s1 := AskedDeveloper(s);
      QuietRow(s1.With(s1.doc.(dev := Some(a.dev))), DRAFTED_ROW);
      if Over(s.doc, a.review, cap) {
        QuietRow(Tried(s, a), ReviewRow(a.review.verdict));
      } else {
        QuietRow(Bumped(Tried(s, a)), ReviewRow(a.review.verdict));
        LoopOpensNothing(Judged(Bumped(Tried(s, a)), a), script, cap, before + [a]);
      }
  }

  lemma PrRowIsMarked(ticketId: string, dev: DevDoc, script: Script, cfg: Config)
    ensures Screen.PausesAt(PrRow(PrOpened(ticketId, dev, script.prUrl, cfg)))
            <==> PrStray(ticketId, dev, script, cfg) == {Develop}
  {
    var shown := PrOpened(ticketId, dev, script.prUrl, cfg);
    PauseMarker.PrIsMarked(shown.prUrl.value);
    PauseMarker.LocalIsMarked(ticketId, cfg.shortSha(dev.diff));
  }

  lemma PublishOpens(s: Session, attempts: seq<Attempt>, script: Script, cfg: Config)
    requires s.doc.dev.Some?
    ensures Screen.Paused(Published(s, attempts, script, cfg).rows)
            == Screen.Paused(s.rows) + PrStray(s.doc.ticketId, s.doc.dev.value, script, cfg)
  {
    var s1 := PrOpenedBy(s, script, cfg);
    PrOpens(s, script, cfg);
    FlushKeepsDoc(s1, attempts);
    var s2 := TestsGenerated(Flushed(s1, attempts), script.tests);
    VerdictRowsOpenNothing(Flushed(s1, attempts), script.tests, script.security(s2.doc.dev));
  }

  lemma PrOpens(s: Session, script: Script, cfg: Config)
    requires s.doc.dev.Some?
    ensures Screen.Paused(PrOpenedBy(s, script, cfg).rows)
            == Screen.Paused(s.rows) + PrStray(s.doc.ticketId, s.doc.dev.value, script, cfg)
  {
    var dev := s.doc.dev.value;
    PrRowIsMarked(s.doc.ticketId, dev, script, cfg);
    PausedAppend(s.rows, PrRow(PrOpened(s.doc.ticketId, dev, script.prUrl, cfg)));
  }

  lemma VerdictRowsOpenNothing(s: Session, tests: GeneratedTests, r: SecurityResult)
    ensures Screen.Paused(SecurityPosted(TestsGenerated(s, tests), r).rows) == Screen.Paused(s.rows)
  {
    QuietRow(s.With(s.doc.(tests := Some(tests))), TESTS_ROW);
    var s1 := TestsGenerated(s, tests);
    QuietRow(s1.With(s1.doc.(security := Some(r))), SecurityRow(r));
  }

  lemma VerdictOpensGate2(s: Session, script: Script, ticketId: string, paused: set<Stage>, decided: set<Stage>)
    requires Waiting(s, ticketId, paused, decided)
    requires s.doc.security.Some? && s.doc.review.Some?
    ensures var verdict := DevelopVerdict(s, script);
      if verdict.exit == ExitOk then Waiting(verdict.s, ticketId, paused + {AtGate(Gate2)}, decided)
      else verdict.exit != ExitCrash && Terminal(verdict.s.doc.status)
  {
    PauseLogged(s, Gate2);
  }

  lemma DevelopOpensGate2(s: Session, script: Script, cfg: Config, paused: set<Stage>, decided: set<Stage>)
    requires Waiting(s, s.doc.ticketId, paused, decided)
    ensures var develop := DevelopJob(s, script, cfg);
      var stray := DevelopStray(s.doc.ticketId, s.doc.revisionCount, script, cfg);
      if develop.exit == ExitOk then Waiting(develop.s, s.doc.ticketId, paused + stray + {AtGate(Gate2)}, decided)
      else if develop.exit == ExitCrash then Waiting(develop.s, s.doc.ticketId, paused, decided)
      else Terminal(develop.s.doc.status)
  {
    var cap := cfg.maxRevisionLoops;
    var loop := Revised(s, script, cap, []);
    RevisedKeeps(s, script, cap, []);
    RevisedIsPasses(s, script, cap, []);
    LoopOpensNothing(s, script, cap, []);
    if loop.Settled? {
      SettledHoldsReview(s, script, cap, []);
      SettledEndsOnLast(s, script, cap, []);
      var p := Published(loop.s, loop.attempts, script, cfg);
      PublishedKeeps(loop.s, loop.attempts, script, cfg);
      PublishOpens(loop.s, loop.attempts, script, cfg);
      var stray := DevelopStray(s.doc.ticketId, s.doc.revisionCount, script, cfg);
      VerdictOpensGate2(p, script, s.doc.ticketId, paused + stray, decided);
    }
  }

  lemma SreAskedWaits(s: Session, script: Script, ticketId: string, paused: set<Stage>, decided: set<Stage>)
    requires Waiting(s, ticketId, paused, decided)
    ensures Waiting(SreAsked(s, script), ticketId, paused, decided)
  {
    var r := script.sre(script.ci);
    var s1 := s.Do(MeasureCi);
    var s2 := s1.With(s1.doc.(ciMeasured := Some(script.ci)));
    QuietRow(s2.With(s2.doc.(sre := Some(r))), SreRow(r));
  }

  lemma ConclusionOpensGate3(s: Session, ticketId: string, paused: set<Stage>, decided: set<Stage>)
    requires Waiting(s, ticketId, paused, decided)
    ensures var sre := SreConcluded(s);
      if sre.exit == ExitOk then Waiting(sre.s, ticketId, paused + {AtGate(Gate3)}, decided)
      else Terminal(sre.s.doc.status)
  {
    PauseLogged(s, Gate3);
  }

  lemma SreOpensGate3(s: Session, script: Script, ticketId: string, paused: set<Stage>, decided: set<Stage>)
    requires Waiting(s, ticketId, paused, decided)
    ensures var sre := SreJob(s, script);
      if sre.exit == ExitOk then Waiting(sre.s, ticketId, paused + {AtGate(Gate3)}, decided)
      else Terminal(sre.s.doc.status)
  {
    SreAskedWaits(s, script, ticketId, paused, decided);
    ConclusionOpensGate3(SreAsked(s, script), ticketId, paused, decided);
  }

  lemma PromoteEnds(s: Session, script: Script, cfg: Config)
    ensures Terminal(PromoteJob(s, script, cfg).s.doc.status)
  {
  }

  // ----- the listing over the chain ---------------------------------------

  function PausedAfter(k: nat, plan: set<Stage>, develop: set<Stage>): set<Stage> {
    plan + {AtGate(Gate1)} + (if k >= 2 then develop + {AtGate(Gate2)} else {})
    + if k >= 4 then {AtGate(Gate3)} else {}
  }

  function DecidedAfter(k: nat): set<Stage> {
    (if k >= 1 then {AtGate(Gate1)} else {}) + (if k >= 3 then {AtGate(Gate2)} else {})
    + if k >= 5 then {AtGate(Gate3)} else {}
  }

  /** A chain that stopped short is over, or died in develop with gate1 decided. */
  ghost predicate Stopped(s: Session, ticketId: string, plan: set<Stage>) {
    Terminal(s.doc.status) || Waiting(s, ticketId, plan + {AtGate(Gate1)}, {AtGate(Gate1)})
  }

  /** The stages the run's own words put on the screen. */
  datatype Strays = Strays(plan: set<Stage>, develop: set<Stage>)

  function StraysOf(start: RunDoc, trigger: string, script: Script, cfg: Config): Strays {
    Strays(PlanStray(start.ticketId, trigger), DevelopStray(start.ticketId, start.revisionCount, script, cfg))
  }

  ghost predicate Progress(k: nat, p: Ended, start: RunDoc, strays: Strays) {
    if p.exit != ExitOk then Stopped(p.s, start.ticketId, strays.plan)
    else
      && Waiting(p.s, start.ticketId, PausedAfter(k, strays.plan, strays.develop), DecidedAfter(k))
      && (k < 2 ==> p.s.doc.revisionCount == start.revisionCount)
  }

  lemma GateProgress(k: nat, gate: GateName, s: Session, start: RunDoc, strays: Strays, script: Script)
    requires (k == 1 && gate == Gate1) || (k == 3 && gate == Gate2) || (k == 5 && gate == Gate3)
    requires Progress(k - 1, Ended(s, ExitOk), start, strays)
    ensures Progress(k, AtTheGate(s, gate, script), start, strays)
  {
    var paused := PausedAfter(k - 1, strays.plan, strays.develop);
    GateDecides(s, gate, script, start.ticketId, paused, DecidedAfter(k - 1));
    assert PausedAfter(k, strays.plan, strays.develop) == paused;
    assert DecidedAfter(k) == DecidedAfter(k - 1) + {AtGate(gate)};
  }

  lemma DevelopProgress(s: Session, start: RunDoc, strays: Strays, script: Script, cfg: Config)
    requires Progress(1, Ended(s, ExitOk), start, strays)
    requires strays.develop == DevelopStray(start.ticketId, start.revisionCount, script, cfg)
    ensures Progress(2, DevelopJob(s, script, cfg), start, strays)
  {
    var paused := PausedAfter(1, strays.plan, strays.develop);
    DevelopOpensGate2(s, script, cfg, paused, DecidedAfter(1));
    assert paused == strays.plan + {AtGate(Gate1)};
    assert paused + strays.develop + {AtGate(Gate2)} == PausedAfter(2, strays.plan, strays.develop);
    assert DecidedAfter(1) == {AtGate(Gate1)} == DecidedAfter(2);
  }

  lemma SreProgress(s: Session, start: RunDoc, strays: Strays, script: Script)
    requires Progress(3, Ended(s, ExitOk), start, strays)
    ensures Progress(4, SreJob(s, script), start, strays)
  {
    var paused := PausedAfter(3, strays.plan, strays.develop);
    SreOpensGate3(s, script, start.ticketId, paused, DecidedAfter(3));
    assert paused + {AtGate(Gate3)} == PausedAfter(4, strays.plan, strays.develop);
    assert DecidedAfter(3) == DecidedAfter(4);
  }

  lemma {:induction false} ChainProgress(k: nat, start: RunDoc, trigger: string, script: Script, cfg: Config)
    requires k < 6
    requires start.status == Status.Running && start.decisions == []
    ensures Progress(k, ChainedUpTo(k, start, trigger, script, cfg), start, StraysOf(start, trigger, script, cfg))
  {
    var strays := StraysOf(start, trigger, script, cfg);
    if k == 0 {
      PlanProgress(start, trigger, script.plan, strays);
    } else {
      ChainProgress(k - 1, start, trigger, script, cfg);
      var before := ChainedUpTo(k - 1, start, trigger, script, cfg);
      if before.exit == ExitOk {
        JobProgress(k, before.s, start, strays, script, cfg);
      }
    }
  }

  lemma JobProgress(k: nat, s: Session, start: RunDoc, strays: Strays, script: Script, cfg: Config)
    requires 1 <= k < 6
    requires Progress(k - 1, Ended(s, ExitOk), start, strays)
    requires strays.develop == DevelopStray(start.ticketId, start.revisionCount, script, cfg)
    ensures Progress(k, Job(k, s, script, cfg), start, strays)
  {
    match k
    case 1 => GateProgress(1, Gate1, s, start, strays, script);
    case 2 => DevelopProgress(s, start, strays, script, cfg);
    case 3 => GateProgress(3, Gate2, s, start, strays, script);
    case 4 => SreProgress(s, start, strays, script);
    case _ => GateProgress(5, Gate3, s, start, strays, script);
  }

  lemma PlanProgress(start: RunDoc, trigger: string, plan: PlanResult, strays: Strays)
    requires start.status == Status.Running && start.decisions == []
    requires strays.plan == PlanStray(start.ticketId, trigger)
    ensures Progress(0, Ended(PlanJob(start, trigger, plan), ExitOk), start, strays)
  {
    PlanOpensGate1(start, trigger, plan);
    assert PausedAfter(0, strays.plan, strays.develop) == strays.plan + {AtGate(Gate1)};
  }

  /** The gate a run waits at once job `k` has exited 0. */
  function NextGate(k: nat): set<Stage> {
    match k
    case 0 => {AtGate(Gate1)}
    case 2 => {AtGate(Gate2)}
    case 4 => {AtGate(Gate3)}
    case _ => {}
  }

  /** What the screen is to show of a run once job `k` has had its turn: nothing when it is over;
      otherwise the gate it waits at, and every stage one of its own rows is mistaken for. */
  function Shown(k: nat, p: Ended, strays: Strays): set<Stage> {
    if Terminal(p.s.doc.status) then {}
    else if p.exit != ExitOk then strays.plan
    else strays.plan + (if k >= 2 then strays.develop else {}) + NextGate(k)
  }

  lemma OpenAfter(k: nat, strays: Strays)
    requires k < 6 && strays.plan <= {Plan} && strays.develop <= {Develop}
    ensures PausedAfter(k, strays.plan, strays.develop) - DecidedAfter(k)
            == strays.plan + (if k >= 2 then strays.develop else {}) + NextGate(k)
  {
  }

  lemma ProgressShown(k: nat, p: Ended, start: RunDoc, strays: Strays)
    requires k < 6 && strays.plan <= {Plan} && strays.develop <= {Develop}
    requires Progress(k, p, start, strays)
    ensures Screen.Awaits(p.s.doc, p.s.rows) == Screen.InNameOrder(Shown(k, p, strays))
  {
    if Terminal(p.s.doc.status) {
      NothingByName();
    } else {
      OpenIsShown(k, p, start, strays);
    }
  }

  lemma NothingByName()
    ensures Screen.InNameOrder({}) == []
  {
    Screen.OneInNameOrder(Gate1);
  }

  lemma OpenIsShown(k: nat, p: Ended, start: RunDoc, strays: Strays)
    requires k < 6 && strays.plan <= {Plan} && strays.develop <= {Develop}
    requires Progress(k, p, start, strays) && !Terminal(p.s.doc.status)
    ensures Screen.Open(p.s.doc, p.s.rows) == Shown(k, p, strays)
  {
    OpenAfter(k, strays);
    if p.exit != ExitOk {
      assert strays.plan + {AtGate(Gate1)} - {AtGate(Gate1)} == strays.plan;
    }
  }

  /** The screen lists a run of the chain, by name, with the gate it waits at and the stages its
      own words are mistaken for, as long as it is not over. */
  lemma {:induction false} ListedExactly(k: nat, start: RunDoc, trigger: string, script: Script, cfg: Config)
    requires k <= 6
    requires start.status == Status.Running && start.decisions == []
    ensures var p := ChainedUpTo(k, start, trigger, script, cfg);
      Screen.Awaits(p.s.doc, p.s.rows) == Screen.InNameOrder(Shown(k, p, StraysOf(start, trigger, script, cfg)))
  {
    var strays := StraysOf(start, trigger, script, cfg);
    var before := ChainedUpTo(if k < 6 then k else 5, start, trigger, script, cfg);
    ChainProgress(if k < 6 then k else 5, start, trigger, script, cfg);
    ProgressShown(if k < 6 then k else 5, before, start, strays);
    if k == 6 {
      NothingByName();
      PromoteEnds(before.s, script, cfg);
    }
  }

  lemma GatesByName(k: nat)
    ensures Screen.InNameOrder(NextGate(k)) == Expected(k)
  {
    Screen.OneInNameOrder(Gate1);
    Screen.OneInNameOrder(Gate2);
    Screen.OneInNameOrder(Gate3);
  }

  /** The one gate a human is to be asked about once job `k` has exited 0. */
  function Expected(k: nat): seq<Stage> {
    match k
    case 0 => [AtGate(Gate1)]
    case 2 => [AtGate(Gate2)]
    case 4 => [AtGate(Gate3)]
    case _ => []
  }

  /** So a job that exits 0 leaves the run shown with the next gate and no other exactly when
      none of the run's own words read as a pause. */
  lemma ShownRightExactly(k: nat, start: RunDoc, trigger: string, script: Script, cfg: Config)
    requires k < 6
    requires start.status == Status.Running && start.decisions == []
    requires ChainedUpTo(k, start, trigger, script, cfg).exit == ExitOk
    ensures var s := ChainedUpTo(k, start, trigger, script, cfg).s;
      Screen.Awaits(s.doc, s.rows) == Expected(k)
      <==> PlanStray(start.ticketId, trigger) == {}
           && (k >= 2 ==> DevelopStray(start.ticketId, start.revisionCount, script, cfg) == {})
  {
    var p := ChainedUpTo(k, start, trigger, script, cfg);
    var strays := StraysOf(start, trigger, script, cfg);
    ListedExactly(k, start, trigger, script, cfg);
    ChainProgress(k, start, trigger, script, cfg);
    GatesByName(k);
    Screen.NameOrderHolds(Shown(k, p, strays), Plan);
    Screen.NameOrderHolds(Shown(k, p, strays), Develop);
    if strays.plan == {} && (k >= 2 ==> strays.develop == {}) {
      assert Shown(k, p, strays) == NextGate(k);
    }
  }

  lemma NoStrays(start: RunDoc, trigger: string, script: Script, cfg: Config)
    requires MarkerFree(start.ticketId, trigger, script, cfg)
    ensures StraysOf(start, trigger, script, cfg) == Strays({}, {})
  {
  }

  /** Without such words the screen lists a run of the chain exactly when plan, develop or sre was
      the last job to run and it succeeded, and then with the next gate and no other. */
  lemma {:induction false} ListedInMarkerFree(k: nat, start: RunDoc, trigger: string, script: Script, cfg: Config)
    requires k <= 6
    requires start.status == Status.Running && start.decisions == []
    requires MarkerFree(start.ticketId, trigger, script, cfg)
    ensures var p := ChainedUpTo(k, start, trigger, script, cfg);
      Screen.Awaits(p.s.doc, p.s.rows) == if p.exit == ExitOk then Expected(k) else []
  {
    var p := ChainedUpTo(k, start, trigger, script, cfg);
    ListedExactly(k, start, trigger, script, cfg);
    NoStrays(start, trigger, script, cfg);
    NothingByName();
    if p.exit == ExitOk && k < 6 {
      ShownRightExactly(k, start, trigger, script, cfg);
    } else {
      assert Shown(k, p, Strays({}, {})) == {};
    }
  }

  /** What such words do to a planned run: its plan stage is shown as a second gate. */
  lemma MarkedPlanIsListed(start: RunDoc, trigger: string, plan: PlanResult)
    requires start.status == Status.Running && start.decisions == []
    requires PauseMarker.Marked(start.ticketId) || PauseMarker.Marked(trigger)
    ensures var s := PlanJob(start, trigger, plan);
      Screen.Awaits(s.doc, s.rows) == [AtGate(Gate1), Plan]
  {
    PlanOpensGate1(start, trigger, plan);
    var s := PlanJob(start, trigger, plan);
    assert Screen.Open(s.doc, s.rows) == {AtGate(Gate1), Plan};
    PlanAndGate1ByName();
  }

  /** The instance: a ticket named after the sentence. */
  lemma MarkedTicketIsListed(start: RunDoc, trigger: string, plan: PlanResult)
    requires start.status == Status.Running && start.decisions == []
    requires start.ticketId == Wording.PAUSE_MARKER
    ensures var s := PlanJob(start, trigger, plan);
      Screen.Awaits(s.doc, s.rows) == [AtGate(Gate1), Plan]
  {
    MarkerIsMarked();
    MarkedPlanIsListed(start, trigger, plan);
  }

  lemma MarkerIsMarked()
    ensures PauseMarker.Marked(Wording.PAUSE_MARKER)
  {
    PauseMarker.HoldsWhatItEndsWith("", Wording.PAUSE_MARKER);
    assert "" + Wording.PAUSE_MARKER == Wording.PAUSE_MARKER;
  }

  lemma PlanAndGate1ByName()
    ensures Screen.InNameOrder({AtGate(Gate1), Plan}) == [AtGate(Gate1), Plan]
  {
  }

  // ----- clicks among jobs ------------------------------------------------

  /** The screen acts on a click only for a running run whose gate is paused and undecided. */
  predicate Acts(s: Session, d: HumanDecision) {
    d.decision != Decision.Overridden && AtGate(d.gate) in Screen.Awaits(s.doc, s.rows)
  }

  lemma AcceptedActs(form: Screen.Form, origin: Screen.Origin, found: seq<string>, r: Screen.Records,
                     awaiting: map<string, seq<Stage>>)
    requires Screen.IsListing(awaiting, found, r)
    requires Screen.Accepted(form, origin, awaiting).Some?
    ensures var click := Screen.Accepted(form, origin, awaiting).value;
      && click.runId in found && click.runId in r.docs
      && Acts(Session(r.docs[click.runId], r.Rows(click.runId), []), click.decision)
  {
  }

  datatype Event = Happens(step: Step) | Clicks(decision: HumanDecision)

  datatype Life = Life(s: Session, accepted: seq<HumanDecision>)

  /** A run's life from `s` on: jobs and out-of-band decisions in any order, and clicks the
      screen acts on or refuses. */
  function Lived(s: Session, events: seq<Event>, cfg: Config): Life
    decreases |events|
  {
    if events == [] then Life(s, [])
    else
      match events[0]
      case Happens(step) => Lived(After(s, step, cfg), events[1..], cfg)
      case Clicks(d) =>
        if !Acts(s, d) then Lived(s, events[1..], cfg)
        else
          var rest := Lived(Resumed(s, d), events[1..], cfg);
          Life(rest.s, [d] + rest.accepted)
  }

  lemma DecidedGrows(a: seq<HumanDecision>, b: seq<HumanDecision>)
    requires a <= b
    ensures Screen.Decided(a) <= Screen.Decided(b)
  {
    assert forall d | d in a :: d in b;
  }

  lemma ActsOnOpenGates(s: Session, d: HumanDecision)
    requires Acts(s, d)
    ensures s.doc.status == Status.Running && AtGate(d.gate) !in Screen.Decided(s.doc.decisions)
  {
    Screen.NameOrderHolds(Screen.Open(s.doc, s.rows), AtGate(d.gate));
  }

  /** None of these answers a gate decided before, and no two answer the same one. */
  ghost predicate FirstAnswers(accepted: seq<HumanDecision>, decisions: seq<HumanDecision>) {
    && (forall i | 0 <= i < |accepted| :: AtGate(accepted[i].gate) !in Screen.Decided(decisions))
    && (forall i, j | 0 <= i < j < |accepted| :: accepted[i].gate != accepted[j].gate)
  }

  lemma FirstAmongMore(accepted: seq<HumanDecision>, fewer: seq<HumanDecision>, more: seq<HumanDecision>)
    requires FirstAnswers(accepted, more) && fewer <= more
    ensures FirstAnswers(accepted, fewer)
  {
    DecidedGrows(fewer, more);
  }

  lemma FirstThenRest(d: HumanDecision, rest: seq<HumanDecision>, decisions: seq<HumanDecision>)
    requires AtGate(d.gate) !in Screen.Decided(decisions)
    requires FirstAnswers(rest, decisions + [d])
    ensures FirstAnswers([d] + rest, decisions)
  {
    DecidedAppend(decisions, d);
    var all := [d] + rest;
    forall i | 0 <= i < |all|
      ensures AtGate(all[i].gate) !in Screen.Decided(decisions)
      ensures i > 0 ==> all[i].gate != d.gate
    {
      if i > 0 {
        assert all[i] == rest[i - 1];
        assert AtGate(rest[i - 1].gate) !in Screen.Decided(decisions + [d]);
      }
    }
  }

  /** Whatever else happens to the run in between: no gate is accepted twice, none that was
      already decided, and none at all once the run is over. */
  lemma {:induction false} EachGateOnce(s: Session, events: seq<Event>, cfg: Config)
    requires Safe(s)
    ensures FirstAnswers(Lived(s, events, cfg).accepted, s.doc.decisions)
    ensures Terminal(s.doc.status) ==> Lived(s, events, cfg).accepted == []
    decreases |events|
  {
    if events != [] {
      match events[0]
      case Happens(step) =>
        StepIsSafe(s, step, cfg);
        EachGateOnce(After(s, step, cfg), events[1..], cfg);
        FirstAmongMore(Lived(s, events, cfg).accepted, s.doc.decisions, After(s, step, cfg).doc.decisions);
      case Clicks(d) =>
        if !Acts(s, d) {
          EachGateOnce(s, events[1..], cfg);
        } else {
          ActsOnOpenGates(s, d);
          ResumeIsSafe(s, d);
          EachGateOnce(Resumed(s, d), events[1..], cfg);
          FirstThenRest(d, Lived(Resumed(s, d), events[1..], cfg).accepted, s.doc.decisions);
        }
    }
  }
}
