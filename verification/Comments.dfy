/** Where every comment lands, and in what order the queued ones come out. */
module Comments {
  import opened Prelude
  import opened State
  import opened Settings
  import opened GithubOps
  import opened Sessions
  import opened Gates
  import opened Graph
  import opened RunStage
  import opened Equivalence
  import opened Endings
  import opened Safety
  import Developer

  ghost predicate HasPr(calls: seq<Call>) {
    exists i | 0 <= i < |calls| :: calls[i].OpenPullRequest?
  }

  /** A comment is on the pull request exactly when one has been opened before it. */
  ghost predicate WellPlaced(calls: seq<Call>) {
    forall i | 0 <= i < |calls| :: calls[i].Comment? ==> (calls[i].to == OnPullRequest <==> HasPr(calls[..i]))
  }

  /** What the state says about the pull request is what the calls say. */
  ghost predicate Placed(s: Session) {
    WellPlaced(s.calls) && (Destination(s.doc) == OnPullRequest <==> HasPr(s.calls))
  }

  lemma CallAppended(calls: seq<Call>, call: Call)
    ensures HasPr(calls + [call]) <==> HasPr(calls) || call.OpenPullRequest?
    ensures WellPlaced(calls + [call])
            <==> WellPlaced(calls) && (call.Comment? ==> (call.to == OnPullRequest <==> HasPr(calls)))
  {
    var more := calls + [call];
    assert more[|calls|] == call && more[..|calls|] == calls;
    assert forall i | 0 <= i < |calls| :: more[i] == calls[i] && more[..i] == calls[..i];
  }

  lemma PostPlaced(s: Session, note: Note)
    requires Placed(s)
    ensures Placed(s.Post(note))
  {
    CallAppended(s.calls, Comment(Destination(s.doc), note));
  }

  lemma QuietPlaced(s: Session, call: Call)
    requires !call.Comment? && !call.OpenPullRequest?
    ensures WellPlaced(s.calls) ==> WellPlaced(s.Do(call).calls)
    ensures HasPr(s.Do(call).calls) <==> HasPr(s.calls)
    ensures Placed(s) ==> Placed(s.Do(call))
  {
    CallAppended(s.calls, call);
  }

  lemma EmitPlaced(s: Session, pausingFor: Option<GateName>)
    requires Placed(s)
    ensures Placed(Emitted(s, pausingFor))
  {
    QuietPlaced(s, ReportOutcome(s.doc.status));
  }

  lemma {:induction false} LoopPlaced(s: Session, script: Script, cap: int, before: seq<Attempt>)
    requires WellPlaced(s.calls)
    ensures var t := Revised(s, script, cap, before).s;
      WellPlaced(t.calls) && (HasPr(t.calls) <==> HasPr(s.calls))
    decreases Budget(s.doc.revisionCount, cap)
  {
    QuietPlaced(s, AskDeveloper(Developer.PromptFor(s.doc)));
    match Try(s.doc, script, |before|)
    case Raised =>
    case Ok(a) =>
      if !Over(s.doc, a.review, cap) {
        LoopPlaced(Judged(Bumped(Tried(s, a)), a), script, cap, before + [a]);
      }
  }

  lemma {:induction false} FlushPlaced(s: Session, attempts: seq<Attempt>)
    requires Placed(s)
    ensures Placed(Flushed(s, attempts))
  {
    if attempts != [] {
      var before, a := attempts[..|attempts| - 1], attempts[|attempts| - 1];
      FlushPlaced(s, before);
      var s1 := Flushed(s, before);
      var note := DevelopNote(a.number, a.dev.summary, a.dev.filesChanged, a.dev.diff);
      PostPlaced(s1, note);
      PostPlaced(s1.Post(note), ReviewNote(a.number, a.review));
    }
  }

  /** `open_pr` never leaves the branch empty. */
  lemma OpenedOnBranch(ticketId: string, dev: DevDoc, hostUrl: string, cfg: Config)
    ensures PrOpened(ticketId, dev, hostUrl, cfg).branch != ""
  {
    assert |"agent-org/"| > 0;
  }

  lemma PublishPlaced(s: Session, attempts: seq<Attempt>, script: Script, cfg: Config)
    requires WellPlaced(s.calls)
    ensures Placed(Published(s, attempts, script, cfg))
  {
    var s1 := PrOpenedBy(s, script, cfg);
    OpenedOnBranch(s.doc.ticketId, s.doc.dev.GetOr(cfg.fixtures.cleanDev), script.prUrl, cfg);
    CallAppended(s.calls, OpenPullRequest(s1.doc.dev.value.branch));
    FlushPlaced(s1, attempts);
    FlushKeepsDoc(s1, attempts);
    var s2 := TestsGenerated(Flushed(s1, attempts), script.tests);
    var r := script.security(s2.doc.dev);
    PostPlaced(s2.With(s2.doc.(security := Some(r))).Log(SecurityRow(r)), SecurityNote(r));
  }

  lemma DevelopPlaced(s: Session, script: Script, cfg: Config)
    requires Placed(s)
    ensures Placed(DevelopJob(s, script, cfg).s)
  {
    var loop := Revised(s, script, cfg.maxRevisionLoops, []);
    LoopPlaced(s, script, cfg.maxRevisionLoops, []);
    if loop.Settled? {
      SettledHoldsReview(s, script, cfg.maxRevisionLoops, []);
      var p := Published(loop.s, loop.attempts, script, cfg);
      PublishPlaced(loop.s, loop.attempts, script, cfg);
      PublishedKeeps(loop.s, loop.attempts, script, cfg);
      if IsBlocked(p.doc) {
        EmitPlaced(Halted(p, script.delivery), None);
      } else if !IsApproved(p.doc) {
        EmitPlaced(Unapproved(p), None);
      } else {
        EmitPlaced(p, Some(Gate2));
      }
    }
  }

  lemma SrePlaced(s: Session, script: Script)
    requires Placed(s)
    ensures Placed(SreJob(s, script).s)
  {
    QuietPlaced(s, MeasureCi);
    var s1 := s.Do(MeasureCi);
    var r := script.sre(script.ci);
    var s2 := s1.With(s1.doc.(ciMeasured := Some(script.ci)));
    PostPlaced(s2.With(s2.doc.(sre := Some(r))).Log(SreRow(r)), SreNote(r));
    if SaysNoGo(SreAsked(s, script).doc) {
      EmitPlaced(NotGone(SreAsked(s, script)), None);
    } else {
      EmitPlaced(SreAsked(s, script), Some(Gate3));
    }
  }

  lemma PromotePlaced(s: Session, script: Script, cfg: Config)
    requires Placed(s)
    ensures Placed(PromoteJob(s, script, cfg).s)
  {
    if Terminal(s.doc.status) {
      EmitPlaced(Declined(s, Stage.Promote), None);
    } else if NotPromotable(s.doc).Some? {
      EmitPlaced(PromotionRefused(s), None);
    } else {
      QuietPlaced(s, Merge(MergePr(s.doc, script.merge, cfg)));
      EmitPlaced(Shipped(s, script.merge, cfg), None);
    }
  }

  lemma DecisionPlaced(s: Session, d: HumanDecision)
    requires Placed(s)
    ensures Placed(Emitted(Resumed(s, d).Post(GateNote(d)), None))
  {
    PostPlaced(Resumed(s, d), GateNote(d));
    EmitPlaced(Resumed(s, d).Post(GateNote(d)), None);
  }

  lemma StepPlaced(s: Session, step: Step, cfg: Config)
    requires Placed(s)
    ensures Placed(After(s, step, cfg))
  {
    match step
    case RunGate(gate) => DecisionPlaced(s, Approval(gate));
    case RunRecorder(gate) =>
      if Terminal(s.doc.status) {
        EmitPlaced(Declined(s, AtGate(gate)), None);
      } else {
        DecisionPlaced(s, Refusal(gate));
      }
    case RunDevelop(script) => DevelopPlaced(s, script, cfg);
    case RunSre(script) => SrePlaced(s, script);
    case RunPromote(script) => PromotePlaced(s, script, cfg);
    case RecordDecision(d) =>
  }

  lemma {:induction false} AlwaysPlaced(s: Session, steps: seq<Step>, cfg: Config)
    requires Placed(s)
    ensures Placed(AfterAll(s, steps, cfg))
    decreases |steps|
  {
    if steps != [] {
      StepPlaced(s, steps[0], cfg);
      AlwaysPlaced(After(s, steps[0], cfg), steps[1..], cfg);
    }
  }

  /** From plan on, whatever jobs and decisions follow, in whatever order: every comment is on
      the pull request exactly when one had been opened before it. */
  lemma EveryCommentIsPlaced(start: RunDoc, trigger: string, plan: PlanResult, steps: seq<Step>, cfg: Config)
    requires start.dev.None?
    ensures WellPlaced(AfterAll(PlanJob(start, trigger, plan), steps, cfg).calls)
  {
    var s := Session(start, [], []).Log(StageStartRow(start.ticketId, trigger));
    PostPlaced(s.With(s.doc.(plan := Some(plan))).Log(PLANNED_ROW), PlanNote(plan));
    EmitPlaced(Planned(s, plan), Some(Gate1));
    AlwaysPlaced(PlanJob(start, trigger, plan), steps, cfg);
  }

  // ----- the single call --------------------------------------------------

  /** Every attempt made before the loop settled or its developer raised. */
  function Made(script: Script, cap: int, count: nat, before: seq<Attempt>): seq<Attempt>
    decreases Budget(count, cap)
  {
    var pass := |before|;
    if script.drafts(pass).Raised? then before
    else
      var a := Attempt(script.drafts(pass).value, script.reviews(pass), count + 1);
      if a.review.verdict == Approve || count >= cap then before + [a]
      else Made(script, cap, count + 1, before + [a])
  }

  function LastDraft(attempts: seq<Attempt>, earlier: Option<DevDoc>): Option<DevDoc> {
    if attempts == [] then earlier else Some(attempts[|attempts| - 1].dev)
  }

  lemma {:induction false} LoopLeavesLastDraft(s: Session, script: Script, cap: int, before: seq<Attempt>,
                                               earlier: Option<DevDoc>)
    requires s.doc.dev == LastDraft(before, earlier)
    ensures Revised(s, script, cap, before).s.doc.dev
            == LastDraft(Made(script, cap, s.doc.revisionCount, before), earlier)
    decreases Budget(s.doc.revisionCount, cap)
  {
    match Try(s.doc, script, |before|)
    case Raised =>
    case Ok(a) =>
      if !Over(s.doc, a.review, cap) {
        LoopLeavesLastDraft(Judged(Bumped(Tried(s, a)), a), script, cap, before + [a], earlier);
      }
  }

  /** The run as gate1's answer leaves it. */
  function AfterGate1(start: RunDoc, script: Script): Session {
    Asked(Started(Session(start, [], []), script.plan), Answer(Gate1, script))
  }

  lemma OpeningPlaced(start: RunDoc, script: Script)
    requires start.dev.None?
    ensures Placed(AfterGate1(start, script)) && !HasPr(AfterGate1(start, script).calls)
    ensures AfterGate1(start, script).doc.dev.None?
    ensures AfterGate1(start, script).doc.revisionCount == start.revisionCount
  {
    var s := Session(start, [], []).Log(StartRow(start.ticketId));
    var s1 := s.With(s.doc.(plan := Some(script.plan))).Log(PLANNED_ROW);
    PostPlaced(s1, PlanNote(script.plan));
    CallAppended([], Comment(Destination(s1.doc), PlanNote(script.plan)));
    var a, d := Started(Session(start, [], []), script.plan), Answer(Gate1, script);
    var s2 := a.Log(PauseRow(d.gate)).With(a.doc.(decisions := a.doc.decisions + [d])).Log(DecisionRow(d));
    PostPlaced(s2, GateNote(d));
    CallAppended(s2.calls, Comment(Destination(s2.doc), GateNote(d)));
  }

  lemma AskedPlaced(s: Session, d: HumanDecision)
    requires Placed(s)
    ensures Placed(Asked(s, d))
  {
    var s1 := s.Log(PauseRow(d.gate)).With(s.doc.(decisions := s.doc.decisions + [d])).Log(DecisionRow(d));
    PostPlaced(s1, GateNote(d));
  }

  lemma SreAskedPlaced(s: Session, script: Script)
    requires Placed(s)
    ensures Placed(SreAsked(s, script))
  {
    QuietPlaced(s, MeasureCi);
    var s1 := s.Do(MeasureCi);
    var r := script.sre(script.ci);
    var s2 := s1.With(s1.doc.(ciMeasured := Some(script.ci)));
    PostPlaced(s2.With(s2.doc.(sre := Some(r))).Log(SreRow(r)), SreNote(r));
  }

  lemma WalkSrePlaced(s: Session, script: Script, cfg: Config)
    requires Placed(s)
    ensures Placed(WalkSre(s, script, cfg))
  {
    var s1 := SreAsked(s, script);
    SreAskedPlaced(s, script);
    if !SaysNoGo(s1.doc) {
      AskedPlaced(s1, Answer(Gate3, script));
      var s2 := Asked(s1, Answer(Gate3, script));
      QuietPlaced(s2, Merge(MergePr(s2.doc, script.merge, cfg)));
    }
  }

  lemma VerdictsPlaced(s: Session, script: Script, cfg: Config)
    requires Placed(s) && s.doc.security.Some? && s.doc.review.Some?
    ensures Placed(WalkVerdicts(s, script, cfg))
  {
    if !IsBlocked(s.doc) && IsApproved(s.doc) {
      AskedPlaced(s, Answer(Gate2, script));
      if script.approves(Gate2) {
        WalkSrePlaced(Asked(s, Answer(Gate2, script)), script, cfg);
      }
    }
  }

  /** The call saves a state that points at the pull request only if there is one: gate1 stops
      it; or its passes settle and the request opens; or its developer raises with no branch in
      the last draft. */
  predicate LeavesNoLooseBranch(start: RunDoc, script: Script, cfg: Config) {
    || !script.approves(Gate1)
    || match Passes(script, cfg.maxRevisionLoops, start.revisionCount, [])
       case Ok(_) => script.opens
       case Raised =>
         var made := Made(script, cfg.maxRevisionLoops, start.revisionCount, []);
         made == [] || made[|made| - 1].dev.branch == ""
  }

  lemma WalkDevelopPlaced(start: RunDoc, script: Script, cfg: Config)
    requires start.dev.None? && script.approves(Gate1)
    ensures var walk := WalkDevelop(AfterGate1(start, script), script, cfg);
      && WellPlaced(walk.s.calls)
      && (Placed(walk.s) <==> LeavesNoLooseBranch(start, script, cfg))
  {
    var s, cap := AfterGate1(start, script), cfg.maxRevisionLoops;
    OpeningPlaced(start, script);
    LoopPlaced(s, script, cap, []);
    LoopLeavesLastDraft(s, script, cap, [], None);
    ProposedIsPasses(s, script, cfg);
    RevisedIsPasses(s, script, cap, []);
    var loop := Revised(s, script, cap, []);
    if loop.Settled? {
      SettledHoldsReview(s, script, cap, []);
      if script.opens {
        PublishPlaced(loop.s, loop.attempts, script, cfg);
        PublishedKeeps(loop.s, loop.attempts, script, cfg);
        VerdictsPlaced(Published(loop.s, loop.attempts, script, cfg), script, cfg);
      } else {
        OpenedOnBranch(start.ticketId, loop.s.doc.dev.value, "", cfg);
      }
    }
  }

  /** The single call, from any run without a change: every comment it makes is where it should
      be, raise or no raise; and the state it saves agrees with the calls exactly when it leaves
      no loose branch. */
  lemma {:induction false} WalkComments(start: RunDoc, script: Script, cfg: Config)
    requires start.dev.None?
    ensures var walk := Ran(start, script, cfg);
      && WellPlaced(walk.s.calls)
      && (Placed(walk.s) <==> LeavesNoLooseBranch(start, script, cfg))
  {
    OpeningPlaced(start, script);
    if script.approves(Gate1) {
      WalkDevelopPlaced(start, script, cfg);
    }
    var walked := Walked(Session(start, [], []), script, cfg).s;
    QuietPlaced(walked, ReportOutcome(walked.doc.status));
    CallAppended(walked.calls, ReportOutcome(walked.doc.status));
  }

  /** So a gate job on what the call saved comments in the right place exactly then. */
  lemma {:induction false} GateAfterWalk(start: RunDoc, script: Script, cfg: Config, gate: GateName)
    requires start.dev.None?
    ensures WellPlaced(GateJob(Ran(start, script, cfg).s, gate).calls)
            <==> LeavesNoLooseBranch(start, script, cfg)
  {
    var s := Ran(start, script, cfg).s;
    WalkComments(start, script, cfg);
    var s1 := Resumed(s, Approval(gate));
    CallAppended(s1.calls, Comment(Destination(s1.doc), GateNote(Approval(gate))));
    var s2 := s1.Post(GateNote(Approval(gate)));
    CallAppended(s2.calls, ReportOutcome(s2.doc.status));
  }

  /** A run that loses its developer between a draft and the pull request: the first draft is on
      a branch and is sent back, the second raises. */
  function SecondDraftRaises(script: Script, dev: DevDoc, review: ReviewDoc): Script {
    script.(drafts := pass => if pass == 0 then Ok(dev) else Raised, reviews := _ => review, approves := _ => true)
  }

  lemma LooseBranch(start: RunDoc, script: Script, cfg: Config, dev: DevDoc, review: ReviewDoc, gate: GateName)
    requires start.dev.None? && start.revisionCount < cfg.maxRevisionLoops
    requires dev.branch == "feat/login-rate-limit" && review.verdict == ChangesRequested
    ensures var lost := SecondDraftRaises(script, dev, review);
      && Ran(start, lost, cfg).Died? && !Placed(Ran(start, lost, cfg).s)
      && !WellPlaced(GateJob(Ran(start, lost, cfg).s, gate).calls)
  {
    var lost := SecondDraftRaises(script, dev, review);
    var a := Attempt(dev, review, start.revisionCount + 1);
    assert [] + [a] == [a];
    assert Made(lost, cfg.maxRevisionLoops, start.revisionCount, [])
           == Made(lost, cfg.maxRevisionLoops, start.revisionCount + 1, [a]) == [a];
    WalkComments(start, lost, cfg);
    GateAfterWalk(start, lost, cfg, gate);
    OpeningPlaced(start, lost);
    ProposedIsPasses(AfterGate1(start, lost), lost, cfg);
  }

  /** And then so is every comment of every later history. */
  lemma CommentsAfterWalk(start: RunDoc, script: Script, cfg: Config, steps: seq<Step>)
    requires start.dev.None? && LeavesNoLooseBranch(start, script, cfg)
    ensures WellPlaced(AfterAll(Ran(start, script, cfg).s, steps, cfg).calls)
  {
    WalkComments(start, script, cfg);
    AlwaysPlaced(Ran(start, script, cfg).s, steps, cfg);
  }

  // ----- the queue --------------------------------------------------------

  /** One develop and one review comment per pass, in the order the passes happened. */
  function Pairs(to: Surface, attempts: seq<Attempt>): seq<Call> {
    if attempts == [] then []
    else
      var a := attempts[|attempts| - 1];
      Pairs(to, attempts[..|attempts| - 1])
      + [Comment(to, DevelopNote(a.number, a.dev.summary, a.dev.filesChanged, a.dev.diff)),
         Comment(to, ReviewNote(a.number, a.review))]
  }

  lemma {:induction false} FlushPostsPairs(s: Session, attempts: seq<Attempt>)
    ensures Flushed(s, attempts).calls == s.calls + Pairs(Destination(s.doc), attempts)
  {
    if attempts != [] {
      FlushPostsPairs(s, attempts[..|attempts| - 1]);
      FlushKeepsDoc(s, attempts[..|attempts| - 1]);
    }
  }

  /** Comment 2k is pass k's change and comment 2k+1 its review, whatever the last pass's
      result has become since. */
  lemma {:induction false} PairsInOrder(to: Surface, attempts: seq<Attempt>, k: nat)
    requires k < |attempts|
    ensures |Pairs(to, attempts)| == 2 * |attempts|
    ensures var a := attempts[k];
      && Pairs(to, attempts)[2 * k] == Comment(to, DevelopNote(a.number, a.dev.summary, a.dev.filesChanged, a.dev.diff))
      && Pairs(to, attempts)[2 * k + 1] == Comment(to, ReviewNote(a.number, a.review))
  {
    var n := |attempts| - 1;
    if n > 0 {
      PairsInOrder(to, attempts[..n], if k < n then k else 0);
    }
  }

  /** The last pass's result is the very object `open_pr` updates before the queue comes out.
      It shows nowhere: what is posted is the same with or without the update. */
  lemma OpenedResultPostsTheSame(s: Session, attempts: seq<Attempt>, ticketId: string, hostUrl: string, cfg: Config)
    requires attempts != []
    ensures var last := attempts[|attempts| - 1];
      var updated := last.(dev := PrOpened(ticketId, last.dev, hostUrl, cfg));
      Flushed(s, attempts[..|attempts| - 1] + [updated]) == Flushed(s, attempts)
  {
    var last := attempts[|attempts| - 1];
    var updated := last.(dev := PrOpened(ticketId, last.dev, hostUrl, cfg));
    var more := attempts[..|attempts| - 1] + [updated];
    assert more[..|more| - 1] == attempts[..|attempts| - 1];
  }

  /** The whole develop job on a fresh run: nothing is said between the first draft and the
      pull request, then passes 1 to n come out in order, then security speaks. */
  lemma DevelopSays(s: Session, script: Script, cfg: Config)
    requires s.doc.revisionCount == 0
    requires Revised(s, script, cfg.maxRevisionLoops, []).Settled?
    ensures var loop := Revised(s, script, cfg.maxRevisionLoops, []);
      var p := Published(loop.s, loop.attempts, script, cfg);
      && (forall i | 0 <= i < |loop.attempts| :: loop.attempts[i].number == i + 1)
      && s.calls <= loop.s.calls
      && (forall i | |s.calls| <= i < |loop.s.calls| :: loop.s.calls[i].AskDeveloper?)
      && p.doc.dev.Some? && p.doc.security.Some?
      && p.calls == loop.s.calls + [OpenPullRequest(p.doc.dev.value.branch)] + Pairs(OnPullRequest, loop.attempts)
                    + [Comment(OnPullRequest, SecurityNote(p.doc.security.value))]
  {
    var loop := Revised(s, script, cfg.maxRevisionLoops, []);
    LoopCounts(s, script, cfg.maxRevisionLoops, [], 0);
    LoopOnlyAsks(s, script, cfg.maxRevisionLoops, []);
    PublishedKeeps(loop.s, loop.attempts, script, cfg);
    var s1 := PrOpenedBy(loop.s, script, cfg);
    OpenedOnBranch(loop.s.doc.ticketId, loop.s.doc.dev.GetOr(cfg.fixtures.cleanDev), script.prUrl, cfg);
    FlushPostsPairs(s1, loop.attempts);
    FlushKeepsDoc(s1, loop.attempts);
  }

  lemma {:induction false} LoopOnlyAsks(s: Session, script: Script, cap: int, before: seq<Attempt>)
    ensures var t := Revised(s, script, cap, before).s;
      s.calls <= t.calls && forall i | |s.calls| <= i < |t.calls| :: t.calls[i].AskDeveloper?
    decreases Budget(s.doc.revisionCount, cap)
  {
    match Try(s.doc, script, |before|)
    case Raised =>
    case Ok(a) =>
      if !Over(s.doc, a.review, cap) {
        LoopOnlyAsks(Judged(Bumped(Tried(s, a)), a), script, cap, before + [a]);
      }
  }
}
