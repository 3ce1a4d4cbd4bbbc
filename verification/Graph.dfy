/** agentorg/graph.py: the whole pipeline in one call.

    The functions say what each leg of the walk does to a session; `Walk` and
    `RunPipeline` are the code, proved to do that to the objects and the store. */
module Graph {
  import opened Prelude
  import opened State
  import opened Settings
  import opened GithubOps
  import opened Sessions
  import opened Gates
  import opened Wording
  import Developer

  // ----- the rows of the pipeline -----------------------------------------

  function StartRow(ticketId: string): Row {
    SaidRow(Actor.System, Stage.Plan, Opened, NoWord, StartedFor(ticketId))
  }

  const PLANNED_ROW := PlainRow(Planner, Stage.Plan, Proposed)
  const DRAFTED_ROW := PlainRow(Actor.Developer, Stage.Develop, Proposed)
  const TESTS_ROW := PlainRow(Actor.System, Stage.Develop, Passed)
  const NO_GO_ROW := WordRow(Actor.Sre, Stage.Sre, Action.Failed, OfSre(NoGo))
  const UNPROMOTABLE_ROW := PlainRow(Actor.System, Stage.Promote, Action.Failed)
  const PROMOTED_ROW := PlainRow(Actor.System, Stage.Promote, Action.Promoted)

  function ReviewRow(verdict: ReviewVerdict): Row {
    WordRow(Actor.Reviewer, Stage.Review, Action.Reviewed, OfReview(verdict))
  }

  function PrRow(dev: DevDoc): Row {
    SaidRow(Actor.System, Stage.Develop, Opened, NoWord, PrAt(dev.prUrl))
  }

  function SecurityRow(r: SecurityResult): Row {
    WordRow(Actor.Security, Stage.Security, if r.verdict == Block then Action.Blocked else Passed,
            OfSecurity(r.verdict))
      .(provenance := r.provenance)
  }

  function HaltRow(ref: string, r: SecurityResult): Row {
    Row(Actor.System, Stage.Security, Action.Blocked, NoWord, HaltSummary(ref), ref, r.provenance)
  }

  function UnapprovedRow(review: ReviewDoc): Row {
    WordRow(Actor.System, Stage.Review, Action.Failed, OfReview(review.verdict))
  }

  function SreRow(r: SreResult): Row {
    WordRow(Actor.Sre, Stage.Sre, Action.Reviewed, OfSre(r.verdict))
  }

  function MergedRow(ref: MergeRef): Row {
    Row(Actor.System, Stage.Promote, Action.Merged, NoWord, "", ref.Text(), Unrecorded)
  }

  // ----- the second guard -------------------------------------------------

  datatype Hindrance =
    | AlreadyEnded(status: Status)
    | NoSecurityVerdict
    | NotPassed
    | NoSreVerdict
    | NotGo
    | HumanRejected
    | NobodyApproved

  function NotPromotable(doc: RunDoc): Option<Hindrance> {
    if Terminal(doc.status) then Some(AlreadyEnded(doc.status))
    else if doc.security.None? then Some(NoSecurityVerdict)
    else if doc.security.value.verdict != Pass then Some(NotPassed)
    else if doc.sre.None? then Some(NoSreVerdict)
    else if doc.sre.value.verdict != Go then Some(NotGo)
    else if exists d | d in doc.decisions :: d.decision == Decision.Rejected then Some(HumanRejected)
    else if FirstUnapproved(doc.decisions).Some? then Some(NobodyApproved)
    else None
  }

  // ----- plan and gates ---------------------------------------------------

  function Planned(s: Session, plan: PlanResult): Session {
    var s1 := s.With(s.doc.(plan := Some(plan))).Log(PLANNED_ROW);
    s1.Post(PlanNote(plan))
  }

  function Started(s: Session, plan: PlanResult): Session {
    Planned(s.Log(StartRow(s.doc.ticketId)), plan)
  }

  /** `_decide`: pause, take the answer, log it, say so, and stop on a refusal. */
  function Asked(s: Session, d: HumanDecision): Session {
    var s1 := s.Log(PauseRow(d.gate));
    var s2 := s1.With(s.doc.(decisions := s.doc.decisions + [d])).Log(DecisionRow(d)).Post(GateNote(d));
    if d.decision == Decision.Rejected then s2.With(s2.doc.(status := Status.Rejected)) else s2
  }

  // ----- the revision loop ------------------------------------------------

  /** One trip through the loop: what the developer proposed and what its review said. */
  datatype Attempt = Attempt(dev: DevDoc, review: ReviewDoc, number: nat)

  datatype Loop = Settled(s: Session, attempts: seq<Attempt>) | Crashed(s: Session)

  function AskedDeveloper(s: Session): Session {
    s.Do(AskDeveloper(Developer.PromptFor(s.doc)))
  }

  function Tried(s: Session, a: Attempt): Session {
    var s1 := AskedDeveloper(s);
    var s2 := s1.With(s1.doc.(dev := Some(a.dev))).Log(DRAFTED_ROW);
    s2.With(s2.doc.(review := Some(a.review)))
  }

  function Judged(s: Session, a: Attempt): Session {
    s.Log(ReviewRow(a.review.verdict))
  }

  function Bumped(s: Session): Session {
    s.With(s.doc.(revisionCount := s.doc.revisionCount + 1))
  }

  /** The loop ends with an approval, or with the budget spent. */
  predicate Over(doc: RunDoc, review: ReviewDoc, cap: int) {
    review.verdict == Approve || doc.revisionCount >= cap
  }

  function Budget(revisionCount: nat, cap: int): nat {
    if revisionCount < cap then cap - revisionCount else 0
  }

  /** What pass number `pass` produces, unless the developer raises. */
  function Try(doc: RunDoc, script: Script, pass: nat): Result<Attempt> {
    match script.drafts(pass)
    case Raised => Raised
    case Ok(dev) => Ok(Attempt(dev, script.reviews(pass), doc.revisionCount + 1))
  }

  function Revised(s: Session, script: Script, cap: int, before: seq<Attempt>): Loop
    decreases Budget(s.doc.revisionCount, cap)
  {
    match Try(s.doc, script, |before|)
    case Raised => Crashed(AskedDeveloper(s))
    case Ok(a) =>
      if Over(s.doc, a.review, cap) then Settled(Judged(Tried(s, a), a), before + [a])
      else Revised(Judged(Bumped(Tried(s, a)), a), script, cap, before + [a])
  }

  // ----- the pull request and the block rule ------------------------------

  /** What opening the pull request leaves behind when it raises. */
  function BranchSet(s: Session, cfg: Config): Session {
    if s.doc.dev.None? then s
    else s.With(s.doc.(dev := Some(BranchNamed(s.doc.ticketId, s.doc.dev.value, cfg))))
  }

  /** The loop, and whether its change can be put before anybody. */
  function ProposedBy(s: Session, script: Script, cfg: Config): Loop {
    match Revised(s, script, cfg.maxRevisionLoops, [])
    case Crashed(s1) => Crashed(s1)
    case Settled(s1, attempts) => if script.opens then Settled(s1, attempts) else Crashed(BranchSet(s1, cfg))
  }

  function PrOpenedBy(s: Session, script: Script, cfg: Config): Session {
    var dev := PrOpened(s.doc.ticketId, s.doc.dev.GetOr(cfg.fixtures.cleanDev), script.prUrl, cfg);
    s.With(s.doc.(dev := Some(dev))).Do(OpenPullRequest(dev.branch)).Log(PrRow(dev))
  }

  function AttemptPosted(s: Session, a: Attempt): Session {
    s.Post(DevelopNote(a.number, a.dev.summary, a.dev.filesChanged, a.dev.diff)).Post(ReviewNote(a.number, a.review))
  }

  /** The queue comes out once there is a pull request to hold it. */
  function Flushed(s: Session, attempts: seq<Attempt>): Session {
    if attempts == [] then s else AttemptPosted(Flushed(s, attempts[..|attempts| - 1]), attempts[|attempts| - 1])
  }

  function TestsGenerated(s: Session, tests: GeneratedTests): Session {
    s.With(s.doc.(tests := Some(tests))).Log(TESTS_ROW)
  }

  function SecurityPosted(s: Session, r: SecurityResult): Session {
    s.With(s.doc.(security := Some(r))).Log(SecurityRow(r)).Post(SecurityNote(r))
  }

  function Published(s: Session, attempts: seq<Attempt>, script: Script, cfg: Config): Session {
    var s1 := TestsGenerated(Flushed(PrOpenedBy(s, script, cfg), attempts), script.tests);
    SecurityPosted(s1, script.security(s1.doc.dev))
  }

  // ----- the endings ------------------------------------------------------

  predicate IsBlocked(doc: RunDoc) {
    doc.security.Some? && doc.security.value.verdict == Block
  }

  predicate IsApproved(doc: RunDoc) {
    doc.review.Some? && doc.review.value.verdict == Approve
  }

  function Halted(s: Session, delivery: string): Session
    requires s.doc.security.Some?
  {
    s.With(s.doc.(status := Status.Blocked)).Log(HaltRow(delivery, s.doc.security.value))
  }

  function Unapproved(s: Session): Session
    requires s.doc.review.Some?
  {
    s.With(s.doc.(status := Status.Failed)).Log(UnapprovedRow(s.doc.review.value))
  }

  function SrePosted(s: Session, r: SreResult): Session {
    s.With(s.doc.(sre := Some(r))).Log(SreRow(r)).Post(SreNote(r))
  }

  function SreAsked(s: Session, script: Script): Session {
    var s1 := s.Do(MeasureCi);
    SrePosted(s1.With(s1.doc.(ciMeasured := Some(script.ci))), script.sre(script.ci))
  }

  predicate SaysNoGo(doc: RunDoc) {
    doc.sre.Some? && doc.sre.value.verdict == NoGo
  }

  function NotGone(s: Session): Session {
    s.With(s.doc.(status := Status.Failed)).Log(NO_GO_ROW)
  }

  function PromotionRefused(s: Session): Session {
    s.With(s.doc.(status := Status.Failed)).Log(UNPROMOTABLE_ROW)
  }

  function Shipped(s: Session, host: HostMerge, cfg: Config): Session {
    var ref := MergePr(s.doc, host, cfg);
    var s1 := s.Do(Merge(ref)).Log(MergedRow(ref));
    s1.With(s1.doc.(status := Status.Promoted)).Log(PROMOTED_ROW)
  }

  // ----- the walk ---------------------------------------------------------

  datatype Outcome = Finished(s: Session) | Died(s: Session)

  function WalkPromote(s: Session, script: Script, cfg: Config): Session {
    if NotPromotable(s.doc).Some? then PromotionRefused(s) else Shipped(s, script.merge, cfg)
  }

  function WalkSre(s: Session, script: Script, cfg: Config): Session {
    var s1 := SreAsked(s, script);
    if SaysNoGo(s1.doc) then NotGone(s1)
    else
      var s2 := Asked(s1, Answer(Gate3, script));
      if script.approves(Gate3) then WalkPromote(s2, script, cfg) else s2
  }

  function WalkVerdicts(s: Session, script: Script, cfg: Config): Session
    requires s.doc.security.Some? && s.doc.review.Some?
  {
    if IsBlocked(s.doc) then Halted(s, script.delivery)
    else if !IsApproved(s.doc) then Unapproved(s)
    else
      var s1 := Asked(s, Answer(Gate2, script));
      if script.approves(Gate2) then WalkSre(s1, script, cfg) else s1
  }

  lemma {:induction false} SettledHoldsReview(s: Session, script: Script, cap: int, before: seq<Attempt>)
    requires Revised(s, script, cap, before).Settled?
    ensures Revised(s, script, cap, before).s.doc.review.Some?
    ensures Revised(s, script, cap, before).s.doc.dev.Some?
    decreases Budget(s.doc.revisionCount, cap)
  {
    var a := Try(s.doc, script, |before|).value;
    if !Over(s.doc, a.review, cap) {
      SettledHoldsReview(Judged(Bumped(Tried(s, a)), a), script, cap, before + [a]);
    }
  }

  lemma {:induction false} FlushKeepsDoc(s: Session, attempts: seq<Attempt>)
    ensures Flushed(s, attempts).doc == s.doc && Flushed(s, attempts).rows == s.rows
  {
    if attempts != [] {
      FlushKeepsDoc(s, attempts[..|attempts| - 1]);
    }
  }

  function WalkDevelop(s: Session, script: Script, cfg: Config): Outcome {
    match ProposedBy(s, script, cfg)
    case Crashed(s1) => Died(s1)
    case Settled(s1, attempts) =>
      SettledHoldsReview(s, script, cfg.maxRevisionLoops, []);
      FlushKeepsDoc(PrOpenedBy(s1, script, cfg), attempts);
      Finished(WalkVerdicts(Published(s1, attempts, script, cfg), script, cfg))
  }

  function Walked(s: Session, script: Script, cfg: Config): Outcome {
    var s1 := Asked(Started(s, script.plan), Answer(Gate1, script));
    if script.approves(Gate1) then WalkDevelop(s1, script, cfg) else Finished(s1)
  }

  function Reported(s: Session): Session {
    s.Do(ReportOutcome(s.doc.status))
  }

  function Ran(start: RunDoc, script: Script, cfg: Config): Outcome {
    match Walked(Session(start, [], []), script, cfg)
    case Finished(s) => Finished(Reported(s))
    case Died(s) => Died(Reported(s))
  }

  // ----- the code ---------------------------------------------------------

  method NoteAnswer(state: RunState, d: HumanDecision, w: World)
    modifies state`decisions, w`logs, w`calls
    ensures var s := old(Live(state, w));
      Live(state, w)
      == s.With(s.doc.(decisions := s.doc.decisions + [d])).Log(DecisionRow(d)).Post(GateNote(d))
    ensures w.Elsewhere(state.runId) == old(w.Elsewhere(state.runId))
  {
    state.decisions := state.decisions + [d];
    w.Append(state.runId, DecisionRow(d));
    w.Post(state, GateNote(d));
  }

  method Decide(state: RunState, d: HumanDecision, w: World) returns (goOn: bool)
    modifies state`decisions, state`status, w
    ensures Live(state, w) == Asked(old(Live(state, w)), d)
    ensures w.Elsewhere(state.runId) == old(w.Elsewhere(state.runId))
    ensures goOn == (d.decision != Decision.Rejected)
  {
    Pause(state, d.gate, w);
    NoteAnswer(state, d, w);
    goOn := d.decision != Decision.Rejected;
    if !goOn {
      state.status := Status.Rejected;
    }
  }

  lemma RevisedStep(s: Session, script: Script, cap: int, before: seq<Attempt>, a: Attempt)
    requires Try(s.doc, script, |before|) == Ok(a)
    ensures Revised(s, script, cap, before)
            == if Over(s.doc, a.review, cap) then Settled(Judged(Tried(s, a), a), before + [a])
               else Revised(Judged(Bumped(Tried(s, a)), a), script, cap, before + [a])
  {
  }

  /** The two agent calls of one pass. */
  method MakeAttempt(state: RunState, script: Script, pass: nat, w: World) returns (attempt: Result<Attempt>)
    modifies state`dev, state`review, w`logs, w`calls
    ensures w.Elsewhere(state.runId) == old(w.Elsewhere(state.runId))
    ensures attempt == Try(old(state.Doc()), script, pass)
    ensures attempt.Raised? ==> Live(state, w) == AskedDeveloper(old(Live(state, w)))
    ensures attempt.Ok? ==>
              && state.dev != null && fresh(state.dev) && state.review != null && fresh(state.review)
              && Live(state, w) == Tried(old(Live(state, w)), attempt.value)
  {
    w.Perform(state.runId, AskDeveloper(Developer.PromptFor(state.Doc())));
    if script.drafts(pass).Raised? {
      return Raised;
    }
    state.dev := new DevResult(script.drafts(pass).value);
    w.Append(state.runId, DRAFTED_ROW);
    state.review := new ReviewResult(script.reviews(pass));
    return Ok(Attempt(state.dev.Doc(), state.review.Doc(), state.revisionCount + 1));
  }

  /** Logs the review, and sends the change back if there is budget left to revise it. */
  method SettleReview(state: RunState, cap: int, w: World) returns (over: bool)
    requires state.review != null
    modifies state`revisionCount, w`logs
    ensures over == Over(old(state.Doc()), old(state.review.Doc()), cap)
    ensures Live(state, w)
            == (if over then old(Live(state, w)) else Bumped(old(Live(state, w))))
               .Log(ReviewRow(old(state.review.verdict)))
    ensures w.Elsewhere(state.runId) == old(w.Elsewhere(state.runId))
  {
    if state.review.verdict == Approve {
      w.Append(state.runId, ReviewRow(Approve));
      return true;
    }
    if state.revisionCount >= cap {
      w.Append(state.runId, ReviewRow(ChangesRequested));
      return true;
    }
    state.revisionCount := state.revisionCount + 1;
    w.Append(state.runId, ReviewRow(ChangesRequested));
    return false;
  }

  /** The revision loop; what it queues is what each pass produced. */
  method Revise(state: RunState, script: Script, cap: int, w: World) returns (raised: bool, queue: seq<Attempt>)
    modifies state`dev, state`review, state`revisionCount, w`logs, w`calls
    ensures w.Elsewhere(state.runId) == old(w.Elsewhere(state.runId))
    ensures Revised(old(Live(state, w)), script, cap, [])
            == if raised then Crashed(Live(state, w)) else Settled(Live(state, w), queue)
    ensures !raised ==> state.dev != null && fresh(state.dev)
  {
    ghost var target := Revised(Live(state, w), script, cap, []);
    queue := [];
    var over := false;
    while !over
      invariant w.Elsewhere(state.runId) == old(w.Elsewhere(state.runId))
      invariant target == if over then Settled(Live(state, w), queue)
                          else Revised(Live(state, w), script, cap, queue)
      invariant over ==> state.dev != null && fresh(state.dev)
      decreases !over, Budget(state.revisionCount, cap)
    {
      ghost var s := Live(state, w);
      var attempt := MakeAttempt(state, script, |queue|, w);
      if attempt.Raised? {
        return true, queue;
      }
      RevisedStep(s, script, cap, queue, attempt.value);
      queue := queue + [attempt.value];
      over := SettleReview(state, cap, w);
    }
    raised := false;
  }

  method Flush(state: RunState, queue: seq<Attempt>, w: World)
    modifies w`calls
    ensures Live(state, w) == Flushed(old(Live(state, w)), queue)
    ensures w.Elsewhere(state.runId) == old(w.Elsewhere(state.runId))
  {
    for i := 0 to |queue|
      invariant Live(state, w) == Flushed(old(Live(state, w)), queue[..i])
      invariant w.Elsewhere(state.runId) == old(w.Elsewhere(state.runId))
    {
      var a := queue[i];
      assert queue[..i + 1][..i] == queue[..i];
      w.Post(state, DevelopNote(a.number, a.dev.summary, a.dev.filesChanged, a.dev.diff));
      w.Post(state, ReviewNote(a.number, a.review));
    }
    assert queue[..|queue|] == queue;
  }

  /** The document after `open_pr`, whether or not it raised. */
  method OpenOnHost(state: RunState, script: Script, cfg: Config) returns (raised: bool)
    requires state.dev != null
    modifies state`dev, state.dev
    ensures raised == !script.opens && state.dev != null
    ensures var doc, dev := old(state.Doc()), old(state.dev.Doc());
      state.Doc() == doc.(dev := Some(if raised then BranchNamed(doc.ticketId, dev, cfg)
                                      else PrOpened(doc.ticketId, dev, script.prUrl, cfg)))
  {
    var dev := OpenPr(state, script.opens, script.prUrl, cfg);
    if dev == null {
      return true;
    }
    state.dev := dev;
    return false;
  }

  method OpenPullRequestFor(state: RunState, script: Script, cfg: Config, w: World) returns (raised: bool)
    requires state.dev != null
    modifies state`dev, state.dev, w`logs, w`calls
    ensures raised == !script.opens
    ensures Live(state, w) == if raised then BranchSet(old(Live(state, w)), cfg)
                              else PrOpenedBy(old(Live(state, w)), script, cfg)
    ensures w.Elsewhere(state.runId) == old(w.Elsewhere(state.runId))
  {
    raised := OpenOnHost(state, script, cfg);
    if !raised {
      NotePullRequest(state, w);
    }
  }

  method NotePullRequest(state: RunState, w: World)
    requires state.dev != null
    modifies w`logs, w`calls
    ensures Live(state, w) == old(Live(state, w)).Do(OpenPullRequest(state.dev.branch)).Log(PrRow(state.dev.Doc()))
    ensures w.Elsewhere(state.runId) == old(w.Elsewhere(state.runId))
  {
    w.Perform(state.runId, OpenPullRequest(state.dev.branch));
    w.Append(state.runId, PrRow(state.dev.Doc()));
  }

  method AskSecurity(state: RunState, script: Script, w: World)
    modifies state`tests, state`security, w`logs, w`calls
    ensures var s1 := TestsGenerated(old(Live(state, w)), script.tests);
      Live(state, w) == SecurityPosted(s1, script.security(s1.doc.dev))
    ensures w.Elsewhere(state.runId) == old(w.Elsewhere(state.runId))
  {
    state.tests := Some(script.tests);
    w.Append(state.runId, TESTS_ROW);
    var r := script.security(state.Doc().dev);
    state.security := Some(r);
    w.Append(state.runId, SecurityRow(r));
    w.Post(state, SecurityNote(r));
  }

  method Publish(state: RunState, queue: seq<Attempt>, script: Script, cfg: Config, w: World) returns (raised: bool)
    requires state.dev != null
    modifies state`dev, state`tests, state`security, state.dev, w`logs, w`calls
    ensures raised == !script.opens
    ensures Live(state, w) == if raised then BranchSet(old(Live(state, w)), cfg)
                              else Published(old(Live(state, w)), queue, script, cfg)
    ensures w.Elsewhere(state.runId) == old(w.Elsewhere(state.runId))
  {
    raised := OpenPullRequestFor(state, script, cfg, w);
    if raised {
      return;
    }
    Flush(state, queue, w);
    AskSecurity(state, script, w);
  }

  method AskSre(state: RunState, script: Script, w: World)
    modifies state`ciMeasured, state`sre, w`logs, w`calls
    ensures Live(state, w) == SreAsked(old(Live(state, w)), script)
    ensures w.Elsewhere(state.runId) == old(w.Elsewhere(state.runId))
  {
    w.Perform(state.runId, MeasureCi);
    state.ciMeasured := Some(script.ci);
    var r := script.sre(state.ciMeasured.value);
    state.sre := Some(r);
    w.Append(state.runId, SreRow(r));
    w.Post(state, SreNote(r));
  }

  method StartPlan(state: RunState, script: Script, w: World)
    modifies state`plan, w`logs, w`calls
    ensures Live(state, w) == Started(old(Live(state, w)), script.plan)
    ensures w.Elsewhere(state.runId) == old(w.Elsewhere(state.runId))
  {
    w.Append(state.runId, StartRow(state.ticketId));
    state.plan := Some(script.plan);
    w.Append(state.runId, PLANNED_ROW);
    w.Post(state, PlanNote(script.plan));
  }

  method Ship(state: RunState, script: Script, cfg: Config, w: World)
    modifies state`status, w`logs, w`calls
    ensures Live(state, w) == Shipped(old(Live(state, w)), script.merge, cfg)
    ensures w.Elsewhere(state.runId) == old(w.Elsewhere(state.runId))
  {
    var ref := MergePr(state.Doc(), script.merge, cfg);
    w.Perform(state.runId, Merge(ref));
    w.Append(state.runId, MergedRow(ref));
    state.status := Status.Promoted;
    w.Append(state.runId, PROMOTED_ROW);
  }

  // The legs of `_walk`, in the order it runs them.

  method PromoteLeg(state: RunState, script: Script, cfg: Config, w: World)
    modifies state`status, w`logs, w`calls
    ensures Live(state, w) == WalkPromote(old(Live(state, w)), script, cfg)
    ensures w.Elsewhere(state.runId) == old(w.Elsewhere(state.runId))
  {
    if NotPromotable(state.Doc()).Some? {
      state.status := Status.Failed;
      w.Append(state.runId, UNPROMOTABLE_ROW);
      return;
    }
    Ship(state, script, cfg, w);
  }

  method SreLeg(state: RunState, script: Script, cfg: Config, w: World)
    modifies state`ciMeasured, state`sre, state`decisions, state`status, w
    ensures Live(state, w) == WalkSre(old(Live(state, w)), script, cfg)
    ensures w.Elsewhere(state.runId) == old(w.Elsewhere(state.runId))
  {
    AskSre(state, script, w);
    if state.sre.value.verdict == NoGo {
      state.status := Status.Failed;
      w.Append(state.runId, NO_GO_ROW);
      return;
    }
    var goOn := Decide(state, Answer(Gate3, script), w);
    if goOn {
      PromoteLeg(state, script, cfg, w);
    }
  }

  method VerdictLeg(state: RunState, script: Script, cfg: Config, w: World)
    requires state.security.Some? && state.review != null
    modifies state`ciMeasured, state`sre, state`decisions, state`status, w
    ensures Live(state, w) == WalkVerdicts(old(Live(state, w)), script, cfg)
    ensures w.Elsewhere(state.runId) == old(w.Elsewhere(state.runId))
  {
    if state.security.value.verdict == Block {
      state.status := Status.Blocked;
      w.Append(state.runId, HaltRow(script.delivery, state.security.value));
      return;
    }
    if state.review.verdict != Approve {
      state.status := Status.Failed;
      w.Append(state.runId, UnapprovedRow(state.review.Doc()));
      return;
    }
    var goOn := Decide(state, Answer(Gate2, script), w);
    if goOn {
      SreLeg(state, script, cfg, w);
    }
  }

  method DevelopLeg(state: RunState, script: Script, cfg: Config, w: World) returns (raised: bool)
    modifies state, w
    ensures WalkDevelop(old(Live(state, w)), script, cfg)
            == if raised then Died(Live(state, w)) else Finished(Live(state, w))
    ensures w.Elsewhere(state.runId) == old(w.Elsewhere(state.runId))
  {
    ghost var s := Live(state, w);
    var queue;
    raised, queue := Revise(state, script, cfg.maxRevisionLoops, w);
    if raised {
      return;
    }
    SettledHoldsReview(s, script, cfg.maxRevisionLoops, []);
    FlushKeepsDoc(PrOpenedBy(Live(state, w), script, cfg), queue);
    raised := Publish(state, queue, script, cfg, w);
    if raised {
      return;
    }
    VerdictLeg(state, script, cfg, w);
  }

  method Walk(state: RunState, script: Script, cfg: Config, w: World) returns (raised: bool)
    modifies state, w
    ensures Walked(old(Live(state, w)), script, cfg)
            == if raised then Died(Live(state, w)) else Finished(Live(state, w))
    ensures w.Elsewhere(state.runId) == old(w.Elsewhere(state.runId))
  {
    StartPlan(state, script, w);
    var goOn := Decide(state, Answer(Gate1, script), w);
    if !goOn {
      return false;
    }
    raised := DevelopLeg(state, script, cfg, w);
  }

  /** One ticket through the whole pipeline. The run is saved and its ending reported
      whichever way the walk comes back, a raise included. */
  method RunPipeline(start: RunDoc, script: Script, cfg: Config, w: World) returns (raised: bool)
    requires start.runId !in w.docs && start.runId !in w.logs && start.runId !in w.calls
    modifies w
    ensures start.runId in w.docs
    ensures Ran(start, script, cfg)
            == if raised then Died(Stored(start.runId, w)) else Finished(Stored(start.runId, w))
    ensures w.Elsewhere(start.runId) == old(w.Elsewhere(start.runId))
  {
    var state := new RunState(start);
    raised := Walk(state, script, cfg, w);
    Save(state, w);
    w.Perform(state.runId, ReportOutcome(state.status));
  }
}
