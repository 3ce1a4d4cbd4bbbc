/** What no order of jobs and decisions can break. A job here may run on any stored run at
    any time, and a decision may arrive between any two of them; each is atomic. */
module Safety {
  import opened Prelude
  import opened State
  import opened Settings
  import opened GithubOps
  import opened Sessions
  import opened Gates
  import opened Graph
  import opened RunStage
  import opened Equivalence
  import opened Endings
  import Developer
  import SreAgent

  datatype Step =
    | RunGate(gate: GateName)
    | RunRecorder(gate: GateName)
    | RunDevelop(script: Script)
    | RunSre(script: Script)
    | RunPromote(script: Script)
    | RecordDecision(decision: HumanDecision)

  function After(s: Session, step: Step, cfg: Config): Session {
    match step
    case RunGate(gate) => GateJob(s, gate)
    case RunRecorder(gate) => RecordJob(s, gate).s
    case RunDevelop(script) => DevelopJob(s, script, cfg).s
    case RunSre(script) => SreJob(s, script).s
    case RunPromote(script) => PromoteJob(s, script, cfg).s
    case RecordDecision(d) => Resumed(s, d)
  }

  function AfterAll(s: Session, steps: seq<Step>, cfg: Config): Session
    decreases |steps|
  {
    if steps == [] then s else AfterAll(After(s, steps[0], cfg), steps[1..], cfg)
  }

  // ----- merges -----------------------------------------------------------

  function Merges(calls: seq<Call>): seq<MergeRef> {
    if calls == [] then []
    else
      var last := calls[|calls| - 1];
      Merges(calls[..|calls| - 1]) + if last.Merge? then [last.ref] else []
  }

  lemma MergesAppend(calls: seq<Call>, call: Call)
    ensures Merges(calls + [call]) == Merges(calls) + if call.Merge? then [call.ref] else []
  {
    assert (calls + [call])[..|calls|] == calls;
  }

  lemma QuietCall(s: Session, call: Call)
    requires !call.Merge?
    ensures Merges(s.Do(call).calls) == Merges(s.calls)
  {
    MergesAppend(s.calls, call);
  }

  lemma QuietEmit(s: Session, pausingFor: Option<GateName>)
    ensures Merges(Emitted(s, pausingFor).calls) == Merges(s.calls)
    ensures Emitted(s, pausingFor).doc == s.doc
  {
    QuietCall(s, ReportOutcome(s.doc.status));
  }

  lemma {:induction false} QuietLoop(s: Session, script: Script, cap: int, before: seq<Attempt>)
    ensures Merges(Revised(s, script, cap, before).s.calls) == Merges(s.calls)
    decreases Budget(s.doc.revisionCount, cap)
  {
    QuietCall(s, AskDeveloper(Developer.PromptFor(s.doc)));
    match Try(s.doc, script, |before|)
    case Raised =>
    case Ok(a) =>
      if !Over(s.doc, a.review, cap) {
        QuietLoop(Judged(Bumped(Tried(s, a)), a), script, cap, before + [a]);
      }
  }

  lemma {:induction false} QuietFlush(s: Session, attempts: seq<Attempt>)
    ensures Merges(Flushed(s, attempts).calls) == Merges(s.calls)
  {
    if attempts != [] {
      var s1, a := Flushed(s, attempts[..|attempts| - 1]), attempts[|attempts| - 1];
      QuietFlush(s, attempts[..|attempts| - 1]);
      var note := DevelopNote(a.number, a.dev.summary, a.dev.filesChanged, a.dev.diff);
      QuietCall(s1, Comment(Destination(s1.doc), note));
      QuietCall(s1.Post(note), Comment(Destination(s1.doc), ReviewNote(a.number, a.review)));
    }
  }

  lemma QuietPublish(s: Session, attempts: seq<Attempt>, script: Script, cfg: Config)
    ensures Merges(Published(s, attempts, script, cfg).calls) == Merges(s.calls)
  {
    var s1 := PrOpenedBy(s, script, cfg);
    QuietCall(s, OpenPullRequest(s1.doc.dev.value.branch));
    QuietFlush(s1, attempts);
    var s2 := TestsGenerated(Flushed(s1, attempts), script.tests);
    var r := script.security(s2.doc.dev);
    var s3 := s2.With(s2.doc.(security := Some(r))).Log(SecurityRow(r));
    QuietCall(s3, Comment(Destination(s3.doc), SecurityNote(r)));
  }

  lemma QuietSre(s: Session, script: Script)
    ensures Merges(SreAsked(s, script).calls) == Merges(s.calls)
  {
    QuietCall(s, MeasureCi);
    var s1 := s.Do(MeasureCi);
    var r := script.sre(script.ci);
    var s2 := s1.With(s1.doc.(ciMeasured := Some(script.ci)));
    var s3 := s2.With(s2.doc.(sre := Some(r))).Log(SreRow(r));
    QuietCall(s3, Comment(Destination(s3.doc), SreNote(r)));
  }

  // ----- the invariant ----------------------------------------------------

  ghost predicate Refused(doc: RunDoc) {
    exists d | d in doc.decisions :: d.decision == Decision.Rejected
  }

  /** At most one merge, never one the policy refuses, none while the run is open; a
      promoted run has been merged once and still shows everything a promotion claims; a
      run somebody refused is over. */
  ghost predicate Safe(s: Session) {
    var merges := Merges(s.calls);
    && |merges| <= 1
    && (forall ref | ref in merges :: !ref.MergeRefused?)
    && (s.doc.status == Status.Running ==> merges == [] && !Refused(s.doc))
    && (s.doc.status == Status.Promoted ==> |merges| == 1 && Cleared(s.doc))
  }

  /** What one step may do to a run. */
  ghost predicate Lawful(s: Session, t: Session) {
    && s.doc.decisions <= t.doc.decisions
    && (t.doc.status == Status.Running ==> s.doc.status == Status.Running)
    && (t.doc.status == Status.Promoted && s.doc.status != Status.Promoted ==>
          s.doc.status == Status.Running && Cleared(s.doc))
    && (Merges(t.calls) == Merges(s.calls)
        || (s.doc.status == Status.Running && Cleared(s.doc) && t.doc.status == Status.Promoted
            && |Merges(t.calls)| == 1))
  }

  lemma DecidedKeepsCleared(doc: RunDoc, d: HumanDecision)
    requires Cleared(doc) && d.decision != Decision.Rejected
    ensures Cleared(Decided(doc, d))
  {
    var after := doc.decisions + [d];
    forall gate: GateName ensures LetThrough(after, gate) {
      assert LetThrough(doc.decisions, gate);
      var x :| x in doc.decisions && x.gate == gate && x.decision != Decision.Rejected;
      assert x in after;
    }
  }

  lemma DecidedRefused(doc: RunDoc, d: HumanDecision)
    ensures Refused(Decided(doc, d)) <==> Refused(doc) || d.decision == Decision.Rejected
  {
    var after := doc.decisions + [d];
    assert d in after;
    assert forall x :: x in after <==> x in doc.decisions || x == d;
  }

  lemma ResumeIsSafe(s: Session, d: HumanDecision)
    requires Safe(s)
    ensures Safe(Resumed(s, d)) && Lawful(s, Resumed(s, d))
    ensures Merges(Resumed(s, d).calls) == Merges(s.calls)
  {
    DecidedRefused(s.doc, d);
    if s.doc.status == Status.Promoted && d.decision != Decision.Rejected {
      DecidedKeepsCleared(s.doc, d);
    }
  }

  lemma DecisionJobIsSafe(s: Session, d: HumanDecision)
    requires Safe(s)
    ensures var t := Emitted(Resumed(s, d).Post(GateNote(d)), None);
      Safe(t) && Lawful(s, t)
  {
    ResumeIsSafe(s, d);
    var s1 := Resumed(s, d);
    QuietCall(s1, Comment(Destination(s1.doc), GateNote(d)));
    QuietEmit(s1.Post(GateNote(d)), None);
  }

  lemma RecordIsSafe(s: Session, gate: GateName)
    requires Safe(s)
    ensures Safe(RecordJob(s, gate).s) && Lawful(s, RecordJob(s, gate).s)
  {
    if Terminal(s.doc.status) {
      QuietEmit(Declined(s, AtGate(gate)), None);
    } else {
      DecisionJobIsSafe(s, Refusal(gate));
    }
  }

  lemma VerdictKeepsMerges(s: Session, script: Script)
    requires s.doc.security.Some? && s.doc.review.Some?
    ensures var t := DevelopVerdict(s, script).s;
      && Merges(t.calls) == Merges(s.calls)
      && t.doc == s.doc.(status := t.doc.status)
      && (t.doc.status == s.doc.status || (t.doc.status != Status.Running && t.doc.status != Status.Promoted))
  {
    if IsBlocked(s.doc) {
      QuietEmit(Halted(s, script.delivery), None);
    } else if !IsApproved(s.doc) {
      QuietEmit(Unapproved(s), None);
    } else {
      QuietEmit(s, Some(Gate2));
    }
  }

  lemma DevelopIsSafe(s: Session, script: Script, cfg: Config)
    requires Safe(s)
    ensures Safe(DevelopJob(s, script, cfg).s) && Lawful(s, DevelopJob(s, script, cfg).s)
  {
    var loop := Revised(s, script, cfg.maxRevisionLoops, []);
    RevisedKeeps(s, script, cfg.maxRevisionLoops, []);
    QuietLoop(s, script, cfg.maxRevisionLoops, []);
    if loop.Settled? {
      SettledHoldsReview(s, script, cfg.maxRevisionLoops, []);
      var p := Published(loop.s, loop.attempts, script, cfg);
      PublishedKeeps(loop.s, loop.attempts, script, cfg);
      QuietPublish(loop.s, loop.attempts, script, cfg);
      VerdictKeepsMerges(p, script);
    }
  }

  lemma SreIsSafe(s: Session, script: Script)
    requires Safe(s)
    ensures Safe(SreJob(s, script).s) && Lawful(s, SreJob(s, script).s)
  {
    var s1 := SreAsked(s, script);
    QuietSre(s, script);
    if SaysNoGo(s1.doc) {
      QuietEmit(NotGone(s1), None);
    } else {
      QuietEmit(s1, Some(Gate3));
    }
  }

  lemma ShippingIsSafe(s: Session, host: HostMerge, cfg: Config)
    requires Safe(s) && s.doc.status == Status.Running && Cleared(s.doc)
    ensures var t := Shipped(s, host, cfg);
      && t.doc == s.doc.(status := Status.Promoted)
      && |Merges(t.calls)| == 1 && !Merges(t.calls)[0].MergeRefused?
  {
    MergeRefusedExactly(s.doc, host, cfg);
    MergesAppend(s.calls, Merge(MergePr(s.doc, host, cfg)));
  }

  lemma PromoteIsSafe(s: Session, script: Script, cfg: Config)
    requires Safe(s)
    ensures Safe(PromoteJob(s, script, cfg).s) && Lawful(s, PromoteJob(s, script, cfg).s)
  {
    NotPromotableExactly(s.doc);
    if Terminal(s.doc.status) {
      QuietEmit(Declined(s, Stage.Promote), None);
    } else if NotPromotable(s.doc).Some? {
      QuietEmit(PromotionRefused(s), None);
    } else {
      ShippingIsSafe(s, script.merge, cfg);
      QuietEmit(Shipped(s, script.merge, cfg), None);
    }
  }

  /** A promote job promotes exactly the running, cleared runs, whatever the host then does with
      the merge it is asked for: a promoted run need not have been merged. */
  lemma PromotesExactly(s: Session, script: Script, cfg: Config)
    ensures PromoteJob(s, script, cfg).exit == ExitOk <==> s.doc.status == Status.Running && Cleared(s.doc)
    ensures PromoteJob(s, script, cfg).exit == ExitOk ==>
              var t := PromoteJob(s, script, cfg).s;
              t.doc == s.doc.(status := Status.Promoted) && Merge(MergePr(s.doc, script.merge, cfg)) in t.calls
  {
    NotPromotableExactly(s.doc);
    if NotPromotable(s.doc).None? {
      var asked := s.Do(Merge(MergePr(s.doc, script.merge, cfg)));
      assert asked.calls[|s.calls|] == Merge(MergePr(s.doc, script.merge, cfg));
    }
  }

  /** The host declines the merge, and the run is promoted all the same. */
  lemma DeclinedYetPromoted(s: Session, script: Script, cfg: Config)
    requires s.doc.status == Status.Running && Cleared(s.doc)
    requires !cfg.offline && s.doc.dev.Some? && s.doc.dev.value.branch != "" && script.merge == HostDeclined
    ensures var t := PromoteJob(s, script, cfg).s;
      t.doc.status == Status.Promoted && Merge(MergeFailed("github-declined")) in t.calls
  {
    PromotesExactly(s, script, cfg);
    RefusalExactly(s.doc);
  }

  lemma StepIsSafe(s: Session, step: Step, cfg: Config)
    requires Safe(s)
    ensures Safe(After(s, step, cfg)) && Lawful(s, After(s, step, cfg))
  {
    match step
    case RunGate(gate) => DecisionJobIsSafe(s, Approval(gate));
    case RunRecorder(gate) => RecordIsSafe(s, gate);
    case RunDevelop(script) => DevelopIsSafe(s, script, cfg);
    case RunSre(script) => SreIsSafe(s, script);
    case RunPromote(script) => PromoteIsSafe(s, script, cfg);
    case RecordDecision(d) => ResumeIsSafe(s, d);
  }

  /** A run starts safe. */
  lemma PlanIsSafe(start: RunDoc, trigger: string, plan: PlanResult)
    requires start.status == Status.Running && start.decisions == []
    ensures Safe(PlanJob(start, trigger, plan))
  {
    var s := Session(start, [], []).Log(StageStartRow(start.ticketId, trigger));
    var s1 := s.With(s.doc.(plan := Some(plan))).Log(PLANNED_ROW);
    QuietCall(s1, Comment(Destination(s1.doc), PlanNote(plan)));
    QuietEmit(Planned(s, plan), Some(Gate1));
  }

  // ----- over whole runs --------------------------------------------------

  /** Whatever jobs and decisions follow, in whatever order: the run stays safe, decisions
      are only added, and an ended run never runs again. */
  lemma {:induction false} AlwaysSafe(s: Session, steps: seq<Step>, cfg: Config)
    requires Safe(s)
    ensures var t := AfterAll(s, steps, cfg);
      && Safe(t)
      && s.doc.decisions <= t.doc.decisions
      && (t.doc.status == Status.Running ==> s.doc.status == Status.Running)
      && (s.doc.status != Status.Running ==> Merges(t.calls) == Merges(s.calls))
      && (s.doc.status != Status.Running && s.doc.status != Status.Promoted ==> t.doc.status != Status.Promoted)
    decreases |steps|
  {
    if steps != [] {
      StepIsSafe(s, steps[0], cfg);
      AlwaysSafe(After(s, steps[0], cfg), steps[1..], cfg);
    }
  }

  /** Once a gate has been rejected, no later steps promote or merge the run: not further
      approvals, not overrides, not promote itself. */
  lemma RejectionIsFinal(s: Session, steps: seq<Step>, cfg: Config)
    requires Safe(s) && Refused(s.doc)
    ensures var t := AfterAll(s, steps, cfg);
      && t.doc.status != Status.Running && t.doc.status != Status.Promoted
      && Merges(t.calls) == Merges(s.calls)
      && Refused(t.doc)
  {
    var t := AfterAll(s, steps, cfg);
    AlwaysSafe(s, steps, cfg);
    var d :| d in s.doc.decisions && d.decision == Decision.Rejected;
    assert d in t.doc.decisions;
  }

  /** From plan on, over every history: promoted means merged once and cleared. */
  lemma PromotedMeansCleared(start: RunDoc, trigger: string, plan: PlanResult, steps: seq<Step>, cfg: Config)
    requires start.status == Status.Running && start.decisions == []
    ensures var t := AfterAll(PlanJob(start, trigger, plan), steps, cfg);
      && |Merges(t.calls)| <= 1
      && (forall ref | ref in Merges(t.calls) :: !ref.MergeRefused?)
      && (t.doc.status == Status.Promoted ==> Cleared(t.doc) && |Merges(t.calls)| == 1)
      && (t.doc.status == Status.Running ==> Merges(t.calls) == [])
  {
    PlanIsSafe(start, trigger, plan);
    AlwaysSafe(PlanJob(start, trigger, plan), steps, cfg);
  }

  // ----- what CI said -----------------------------------------------------

  /** An SRE answer taken from the measured CI, as the agent's own code takes it. */
  ghost predicate CiDecides(script: Script) {
    forall ci :: script.sre(ci).ciStatus == ci && (script.sre(ci).verdict == NoGo <==> ci == Failing)
  }

  lemma AgentLetsCiDecide(script: Script, advice: CiStatus -> Option<SreAdvice>, fixtures: Fixtures)
    requires forall ci :: script.sre(ci) == SreAgent.Judged(Some(ci), ci, advice(ci), fixtures)
    ensures CiDecides(script)
  {
    forall ci ensures script.sre(ci).ciStatus == ci && (script.sre(ci).verdict == NoGo <==> ci == Failing) {
      SreAgent.AdviceDoesNotDecide(ci, ci, advice(ci), advice(ci), fixtures);
    }
  }

  /** A go on record was said about a build that was not failing. */
  predicate GoMeansNotRed(doc: RunDoc) {
    doc.sre.Some? && doc.sre.value.verdict == Go ==> doc.sre.value.ciStatus != Failing
  }

  ghost predicate SreIsCode(step: Step) {
    step.RunSre? ==> CiDecides(step.script)
  }

  lemma StepKeepsGoHonest(s: Session, step: Step, cfg: Config)
    requires GoMeansNotRed(s.doc) && SreIsCode(step)
    ensures GoMeansNotRed(After(s, step, cfg).doc)
  {
    if step.RunDevelop? {
      DevelopKeepsSre(s, step.script, cfg);
    }
  }

  lemma DevelopKeepsSre(s: Session, script: Script, cfg: Config)
    ensures DevelopJob(s, script, cfg).s.doc.sre == s.doc.sre
  {
    var loop := Revised(s, script, cfg.maxRevisionLoops, []);
    RevisedKeeps(s, script, cfg.maxRevisionLoops, []);
    if loop.Settled? {
      SettledHoldsReview(s, script, cfg.maxRevisionLoops, []);
      PublishedKeeps(loop.s, loop.attempts, script, cfg);
      VerdictKeepsMerges(Published(loop.s, loop.attempts, script, cfg), script);
    }
  }

  lemma {:induction false} AlwaysGoHonest(s: Session, steps: seq<Step>, cfg: Config)
    requires GoMeansNotRed(s.doc)
    requires forall i | 0 <= i < |steps| :: SreIsCode(steps[i])
    ensures GoMeansNotRed(AfterAll(s, steps, cfg).doc)
    decreases |steps|
  {
    if steps != [] {
      StepKeepsGoHonest(s, steps[0], cfg);
      AlwaysGoHonest(After(s, steps[0], cfg), steps[1..], cfg);
    }
  }

  /** With the SRE agent's own code behind every sre job, in any history: promoted means that CI,
      when it was measured, was not failing. */
  lemma PromotedMeansNotRed(start: RunDoc, trigger: string, plan: PlanResult, steps: seq<Step>, cfg: Config)
    requires start.status == Status.Running && start.decisions == [] && start.sre.None?
    requires forall i | 0 <= i < |steps| :: SreIsCode(steps[i])
    ensures var t := AfterAll(PlanJob(start, trigger, plan), steps, cfg);
      t.doc.status == Status.Promoted ==> t.doc.sre.Some? && t.doc.sre.value.ciStatus != Failing
  {
    PromotedMeansCleared(start, trigger, plan, steps, cfg);
    AlwaysGoHonest(PlanJob(start, trigger, plan), steps, cfg);
  }

  // ----- the single call --------------------------------------------------

  lemma ChainIsSafe(start: RunDoc, trigger: string, script: Script, cfg: Config)
    requires start.status == Status.Running && start.decisions == []
    ensures Safe(Chained(start, trigger, script, cfg).s)
  {
    var s0 := PlanJob(start, trigger, script.plan);
    PlanIsSafe(start, trigger, script.plan);
    var g1 := AtTheGate(s0, Gate1, script);
    GateIsSafe(s0, Gate1, script);
    if g1.exit == ExitOk {
      var dev := DevelopJob(g1.s, script, cfg);
      DevelopIsSafe(g1.s, script, cfg);
      if dev.exit == ExitOk {
        var g2 := AtTheGate(dev.s, Gate2, script);
        GateIsSafe(dev.s, Gate2, script);
        if g2.exit == ExitOk {
          var sre := SreJob(g2.s, script);
          SreIsSafe(g2.s, script);
          if sre.exit == ExitOk {
            var g3 := AtTheGate(sre.s, Gate3, script);
            GateIsSafe(sre.s, Gate3, script);
            if g3.exit == ExitOk {
              PromoteIsSafe(g3.s, script, cfg);
            }
          }
        }
      }
    }
  }

  lemma GateIsSafe(s: Session, gate: GateName, script: Script)
    requires Safe(s)
    ensures Safe(AtTheGate(s, gate, script).s)
  {
    DecisionJobIsSafe(s, Approval(gate));
    RecordIsSafe(s, gate);
  }

  lemma AskedAtGate1IsSafe(start: RunDoc, script: Script)
    requires start.status == Status.Running && start.decisions == []
    ensures var s := Asked(Started(Session(start, [], []), script.plan), Answer(Gate1, script));
      Merges(s.calls) == [] && (script.approves(Gate1) ==> s.doc.status == Status.Running && !Refused(s.doc))
  {
    var s0 := Session(start, [], []).Log(StartRow(start.ticketId));
    var s1 := s0.With(s0.doc.(plan := Some(script.plan))).Log(PLANNED_ROW);
    QuietCall(s1, Comment(Destination(s1.doc), PlanNote(script.plan)));
    var s2 := Started(Session(start, [], []), script.plan);
    var d := Answer(Gate1, script);
    DecidedRefused(s2.doc, d);
    var s3 := s2.Log(PauseRow(d.gate)).With(s2.doc.(decisions := s2.doc.decisions + [d])).Log(DecisionRow(d));
    QuietCall(s3, Comment(Destination(s3.doc), GateNote(d)));
  }

  /** A loop that raises, and a pull request that cannot be opened, leave the run open. */
  lemma RaisedIsSafe(s: Session, script: Script, cfg: Config)
    requires s.doc.status == Status.Running && Merges(s.calls) == [] && !Refused(s.doc)
    ensures Safe(Reported(ProposedBy(s, script, cfg).s))
  {
    RevisedKeeps(s, script, cfg.maxRevisionLoops, []);
    QuietLoop(s, script, cfg.maxRevisionLoops, []);
    OpenIsSafe(ProposedBy(s, script, cfg).s);
  }

  lemma OpenIsSafe(t: Session)
    requires t.doc.status == Status.Running && Merges(t.calls) == [] && !Refused(t.doc)
    ensures Safe(Reported(t))
  {
    QuietCall(t, ReportOutcome(t.doc.status));
  }

  lemma WalkRaisedIsSafe(start: RunDoc, script: Script, cfg: Config)
    requires start.status == Status.Running && start.decisions == []
    requires Ran(start, script, cfg).Died?
    ensures Safe(Ran(start, script, cfg).s)
  {
    AskedAtGate1IsSafe(start, script);
    RaisedIsSafe(Asked(Started(Session(start, [], []), script.plan), Answer(Gate1, script)), script, cfg);
  }

  lemma AgreedIsSafe(a: Session, b: Session)
    requires Agree(a, b) && Safe(b)
    ensures Safe(a)
  {
  }

  lemma WalkReturnedIsSafe(start: RunDoc, script: Script, cfg: Config)
    requires start.status == Status.Running && start.decisions == [] && start.revisionCount == 0
    requires Ran(start, script, cfg).Finished?
    ensures Safe(Ran(start, script, cfg).s)
  {
    PipelinesAgree(start, start.poisoned, "", script, cfg);
    assert start.(poisoned := start.poisoned) == start;
    ChainIsSafe(start, "", script, cfg);
    AgreedIsSafe(Ran(start, script, cfg).s, Chained(start, "", script, cfg).s);
  }

  /** What the single call leaves behind, raise or no raise, is as safe as what the jobs leave,
      so no later job or decision breaks it either. */
  lemma WalkIsSafe(start: RunDoc, script: Script, cfg: Config, steps: seq<Step>)
    requires start.status == Status.Running && start.decisions == [] && start.revisionCount == 0
    ensures Safe(AfterAll(Ran(start, script, cfg).s, steps, cfg))
  {
    if Ran(start, script, cfg).Died? {
      WalkRaisedIsSafe(start, script, cfg);
    } else {
      WalkReturnedIsSafe(start, script, cfg);
    }
    AlwaysSafe(Ran(start, script, cfg).s, steps, cfg);
  }
}
