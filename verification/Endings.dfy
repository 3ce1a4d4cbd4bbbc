/** Where a run ends, read off the answers alone, and that both pipelines end there. */
module Endings {
  import opened Prelude
  import opened State
  import opened Settings
  import opened GithubOps
  import opened Sessions
  import opened Gates
  import opened Graph
  import opened RunStage
  import opened Equivalence
  import Developer
  import SecurityAgent
  import SreAgent

  // ----- the loop, as a count and nothing else ----------------------------

  /** The passes of the loop from `count` revisions on: until the review approves or the
      count reaches the cap, one more draft and one more review. */
  function Passes(script: Script, cap: int, count: nat, before: seq<Attempt>): Result<seq<Attempt>>
    decreases Budget(count, cap)
  {
    var pass := |before|;
    if script.drafts(pass).Raised? then Raised
    else
      var a := Attempt(script.drafts(pass).value, script.reviews(pass), count + 1);
      if a.review.verdict == Approve || count >= cap then Ok(before + [a])
      else Passes(script, cap, count + 1, before + [a])
  }

  lemma {:induction false} RevisedIsPasses(s: Session, script: Script, cap: int, before: seq<Attempt>)
    ensures Passes(script, cap, s.doc.revisionCount, before)
            == match Revised(s, script, cap, before)
               case Crashed(_) => Raised
               case Settled(_, attempts) => Ok(attempts)
    decreases Budget(s.doc.revisionCount, cap)
  {
    match Try(s.doc, script, |before|)
    case Raised =>
    case Ok(a) =>
      if !Over(s.doc, a.review, cap) {
        RevisedIsPasses(Judged(Bumped(Tried(s, a)), a), script, cap, before + [a]);
      }
  }

  lemma ProposedIsPasses(s: Session, script: Script, cfg: Config)
    ensures var passes := Passes(script, cfg.maxRevisionLoops, s.doc.revisionCount, []);
      match ProposedBy(s, script, cfg)
      case Crashed(_) => passes.Raised? || !script.opens
      case Settled(_, attempts) => script.opens && passes == Ok(attempts)
  {
    RevisedIsPasses(s, script, cfg.maxRevisionLoops, []);
  }

  // ----- the loop's guarantees --------------------------------------------

  ghost function DeveloperCalls(calls: seq<Call>): seq<Developer.Prompt> {
    if calls == [] then []
    else
      var last := calls[|calls| - 1];
      DeveloperCalls(calls[..|calls| - 1]) + if last.AskDeveloper? then [last.prompt] else []
  }

  lemma CallsAppend(calls: seq<Call>, call: Call)
    ensures DeveloperCalls(calls + [call]) == DeveloperCalls(calls) + if call.AskDeveloper? then [call.prompt] else []
  {
    assert (calls + [call])[..|calls|] == calls;
  }

  /** Every refusal in the script names something to fix, as the reviewer agent ensures. */
  ghost predicate Actionable(script: Script) {
    forall pass: nat :: script.reviews(pass).verdict == ChangesRequested ==> script.reviews(pass).mustFix != []
  }

  /** The loop stops with an approval or at the cap. With `start` revisions counted before
      its first pass, the passes are numbered from `start + 1` on, there is one more of them
      than revisions added, and a cap that was not exceeded at the start never is. */
  lemma {:induction false} LoopCounts(s: Session, script: Script, cap: int, before: seq<Attempt>, start: nat)
    requires Revised(s, script, cap, before).Settled?
    requires s.doc.revisionCount == start + |before|
    requires forall i | 0 <= i < |before| :: before[i].number == start + i + 1
    ensures var loop := Revised(s, script, cap, before);
      && |loop.attempts| > |before|
      && loop.s.doc.revisionCount == start + |loop.attempts| - 1
      && (s.doc.revisionCount <= cap ==> loop.s.doc.revisionCount <= cap)
      && (Final(loop).review.verdict == Approve || loop.s.doc.revisionCount >= cap)
      && (forall i | 0 <= i < |loop.attempts| :: loop.attempts[i].number == start + i + 1)
    decreases Budget(s.doc.revisionCount, cap)
  {
    var a := Try(s.doc, script, |before|).value;
    if !Over(s.doc, a.review, cap) {
      LoopCounts(Judged(Bumped(Tried(s, a)), a), script, cap, before + [a], start);
    }
  }

  /** A prompt that holds the change it revises and a non-empty list of what to fix. */
  ghost predicate ShownPrevious(prompt: Developer.Prompt, previous: Attempt) {
    prompt == Developer.Revision(Some(previous.dev.diff), previous.review.mustFix) && previous.review.mustFix != []
  }

  /** One prompt per pass, and every one after the first is a revision of the pass before. */
  ghost predicate PromptsFit(prompts: seq<Developer.Prompt>, attempts: seq<Attempt>) {
    && |prompts| == |attempts|
    && forall i | 1 <= i < |prompts| :: ShownPrevious(prompts[i], attempts[i - 1])
  }

  lemma PromptsFitMore(prompts: seq<Developer.Prompt>, attempts: seq<Attempt>, prompt: Developer.Prompt, a: Attempt)
    requires PromptsFit(prompts, attempts)
    requires attempts != [] ==> ShownPrevious(prompt, attempts[|attempts| - 1])
    ensures PromptsFit(prompts + [prompt], attempts + [a])
  {
  }

  /** The session carries the last pass's change and its refusal into the next one. */
  ghost predicate Revising(doc: RunDoc, before: seq<Attempt>) {
    before != [] ==>
      var last := before[|before| - 1];
      doc.dev == Some(last.dev) && doc.review == Some(last.review) && last.review.mustFix != []
  }

  lemma OnePromptMore(s: Session, a: Attempt, earlier: seq<Developer.Prompt>, prompts: seq<Developer.Prompt>)
    requires DeveloperCalls(s.calls) == earlier + prompts
    ensures DeveloperCalls(Tried(s, a).calls) == earlier + (prompts + [Developer.PromptFor(s.doc)])
  {
    CallsAppend(s.calls, AskDeveloper(Developer.PromptFor(s.doc)));
    assert earlier + prompts + [Developer.PromptFor(s.doc)] == earlier + (prompts + [Developer.PromptFor(s.doc)]);
  }

  lemma {:induction false} LoopPrompts(s: Session, script: Script, cap: int, before: seq<Attempt>,
                                       earlier: seq<Developer.Prompt>, prompts: seq<Developer.Prompt>)
    requires Actionable(script)
    requires Revised(s, script, cap, before).Settled?
    requires Revising(s.doc, before) && PromptsFit(prompts, before)
    requires DeveloperCalls(s.calls) == earlier + prompts
    ensures var loop := Revised(s, script, cap, before);
      var calls := DeveloperCalls(loop.s.calls);
      earlier <= calls && PromptsFit(calls[|earlier|..], loop.attempts)
    decreases Budget(s.doc.revisionCount, cap)
  {
    var a := Try(s.doc, script, |before|).value;
    var prompt := Developer.PromptFor(s.doc);
    var more := prompts + [prompt];
    OnePromptMore(s, a, earlier, prompts);
    PromptsFitMore(prompts, before, prompt, a);
    if Over(s.doc, a.review, cap) {
      assert (earlier + more)[|earlier|..] == more;
    } else {
      LoopPrompts(Judged(Bumped(Tried(s, a)), a), script, cap, before + [a], earlier, more);
    }
  }

  // ----- where a run ends -------------------------------------------------

  /** The ending, from the answers alone, in the order that decides it; None when the
      developer raises or the pull request cannot be opened. */
  function Ending(ticketId: string, script: Script, cfg: Config): Option<Status> {
    if !script.approves(Gate1) then Some(Status.Rejected)
    else
      match Passes(script, cfg.maxRevisionLoops, 0, [])
      case Raised => None
      case Ok(attempts) =>
        if attempts == [] || !script.opens then None
        else
          var last := attempts[|attempts| - 1];
          Some(EndingAfterVerdicts(script.security(Some(Shown(ticketId, last.dev, script, cfg))), last.review, script))
  }

  lemma StartedRuns(start: RunDoc, trigger: string, script: Script, poisoned: bool)
    requires start.status == Status.Running && start.decisions == []
    ensures var a := Started(Session(start, [], []), script.plan);
      var b := PlanJob(start.(poisoned := poisoned), trigger, script.plan);
      Agree(a.Log(PauseRow(Gate1)), b) && Through(a.doc, {}) && a.doc == start.(plan := Some(script.plan))
  {
    var first := start.(poisoned := poisoned);
    var a0, b0 := Session(start, [], []), Session(first, [], []);
    var x, y := StartRow(start.ticketId), StageStartRow(first.ticketId, trigger);
    AgreeLog(a0, b0, x, y);
    var a1, b1 := a0.Log(x), b0.Log(y);
    AgreeLog(a1.With(a1.doc.(plan := Some(script.plan))), b1.With(b1.doc.(plan := Some(script.plan))), PLANNED_ROW,
             PLANNED_ROW);
    AgreeLog(Planned(a1, script.plan), Planned(b1, script.plan), PauseRow(Gate1), PauseRow(Gate1));
  }

  /** From gate1's approval on: both raise, or both end as the answers decide. */
  lemma EndingFromDevelop(a: Session, b: Session, script: Script, cfg: Config)
    requires Agree(a, b) && Through(a.doc, {Gate1}) && a.doc.revisionCount == 0 && script.approves(Gate1)
    ensures var walk, chain := WalkDevelop(a, script, cfg), ChainFromDevelop(b, script, cfg);
      var ending := Ending(a.doc.ticketId, script, cfg);
      && (walk.Died? <==> ending.None?)
      && (walk.Died? <==> chain.exit == ExitCrash)
      && (walk.Died? ==> Facts(walk.s.rows) == Facts(chain.s.rows) && walk.s.calls == chain.s.calls
                         && chain.s.doc == b.doc && walk.s.doc.status == Status.Running)
      && (walk.Finished? ==> SameEnding(walk.s, chain) && walk.s.doc.status == ending.value)
  {
    SameFromDevelop(a, b, script, cfg);
    ProposedIsPasses(a, script, cfg);
  }

  /** One call and seven jobs: for every script of answers they raise together or end in the
      same saved run, having logged the same facts and made the same calls in the same
      order; and the ending is the one the answers decide. */
  lemma {:induction false} PipelinesAgree(start: RunDoc, poisoned: bool, trigger: string, script: Script, cfg: Config)
    requires start.status == Status.Running && start.decisions == [] && start.revisionCount == 0
    ensures var walk, chain := Ran(start, script, cfg), Chained(start.(poisoned := poisoned), trigger, script, cfg);
      var ending := Ending(start.ticketId, script, cfg);
      && (walk.Died? <==> ending.None?)
      && (walk.Died? <==> chain.exit == ExitCrash)
      && (walk.Finished? ==>
            && Agree(walk.s, chain.s)
            && walk.s.doc.status == chain.s.doc.status == ending.value
            && chain.exit == ExitOf(ending.value))
      && (walk.Died? ==>
            && Facts(walk.s.rows) == Facts(chain.s.rows)
            && walk.s.calls == chain.s.calls + [ReportOutcome(Status.Running)]
            && walk.s.doc.status == chain.s.doc.status == Status.Running)
  {
    var a := Started(Session(start, [], []), script.plan);
    var b := PlanJob(start.(poisoned := poisoned), trigger, script.plan);
    StartedRuns(start, trigger, script, poisoned);
    AgreeGate(a, b, Gate1, script);
    if script.approves(Gate1) {
      var a1, b1 := Asked(a, Answer(Gate1, script)), GateJob(b, Gate1);
      ThroughGate(a.doc, {}, Gate1);
      assert {} + {Gate1} == {Gate1};
      EndingFromDevelop(a1, b1, script, cfg);
    }
  }

  // ----- what the priority order means ------------------------------------

  /** A run is blocked exactly when gate1 lets it through and the block rule says so;
      what the review, CI and the later gates say does not matter. */
  lemma BlockedExactly(ticketId: string, script: Script, cfg: Config)
    requires Ending(ticketId, script, cfg).Some?
    ensures Ending(ticketId, script, cfg) == Some(Status.Blocked)
            <==> script.approves(Gate1)
                 && (var attempts := Passes(script, cfg.maxRevisionLoops, 0, []).value;
                     script.security(Some(Shown(ticketId, attempts[|attempts| - 1].dev, script, cfg))).verdict == Block)
  {
  }

  /** With the SRE agent deciding from CI, a failing build never ships, whatever the advice. */
  lemma FailingCiNeverShips(ticketId: string, script: Script, cfg: Config, advice: Option<SreAdvice>)
    requires script.ci == Failing
    requires script.sre(Failing) == SreAgent.Judged(Some(Failing), Failing, advice, cfg.fixtures)
    ensures Ending(ticketId, script, cfg) != Some(Status.Promoted)
  {
    SreAgent.AdviceDoesNotDecide(Failing, Failing, advice, advice, cfg.fixtures);
  }

  /** What the security and SRE agents' models say decides nothing: with the agents' own code
      behind the script, two runs that differ only in the explanations and the advice end alike. */
  lemma ProseNeverDecides(ticketId: string, script: Script, cfg: Config, useRealScanners: bool,
                          scan: Option<DevDoc> -> SecurityAgent.Scan, said: Option<DevDoc> -> string,
                          other: Option<DevDoc> -> string, advice: CiStatus -> Option<SreAdvice>,
                          rival: CiStatus -> Option<SreAdvice>, x: Script, y: Script)
    requires x == script.(security := x.security, sre := x.sre) && y == script.(security := y.security, sre := y.sre)
    requires forall dev :: x.security(dev) == SecurityAgent.Secured(dev, useRealScanners, scan(dev), said(dev), cfg)
    requires forall dev :: y.security(dev) == SecurityAgent.Secured(dev, useRealScanners, scan(dev), other(dev), cfg)
    requires forall ci :: x.sre(ci) == SreAgent.Judged(Some(ci), ci, advice(ci), cfg.fixtures)
    requires forall ci :: y.sre(ci) == SreAgent.Judged(Some(ci), ci, rival(ci), cfg.fixtures)
    ensures Ending(ticketId, x, cfg) == Ending(ticketId, y, cfg)
  {
    forall dev ensures x.security(dev).verdict == y.security(dev).verdict {
      SecurityAgent.ExplanationDoesNotDecide(dev, useRealScanners, scan(dev), said(dev), other(dev), cfg);
    }
    SreAgent.AdviceDoesNotDecide(script.ci, script.ci, advice(script.ci), rival(script.ci), cfg.fixtures);
    PassesAreTheAgents(x, y, cfg.maxRevisionLoops, 0, []);
  }

  /** Some finding the scanners report about `dev` is at or above the threshold. */
  ghost predicate FindsTooMuch(scan: Option<DevDoc> -> SecurityAgent.Scan, dev: DevDoc, threshold: Severity) {
    && scan(Some(dev)).Found?
    && exists f | f in scan(Some(dev)).findings :: AtOrAbove(f.severity, threshold)
  }

  /** With the security agent's own code behind the script and scanners that answer about the
      last change: once gate1 has let the run through, the passes have settled and the pull
      request has opened, the run is blocked exactly when they report a finding at or above the
      threshold. */
  lemma {:induction false} FindingsDecide(ticketId: string, script: Script, cfg: Config,
                                          scan: Option<DevDoc> -> SecurityAgent.Scan, said: Option<DevDoc> -> string)
    requires forall dev :: script.security(dev) == SecurityAgent.Secured(dev, true, scan(dev), said(dev), cfg)
    requires script.approves(Gate1) && script.opens
    requires Passes(script, cfg.maxRevisionLoops, 0, []).Ok?
    ensures var attempts := Passes(script, cfg.maxRevisionLoops, 0, []).value;
      && attempts != []
      && var shown := Shown(ticketId, attempts[|attempts| - 1].dev, script, cfg);
         scan(Some(shown)).Found? ==>
           (Ending(ticketId, script, cfg) == Some(Status.Blocked) <==> FindsTooMuch(scan, shown, cfg.blockThreshold))
  {
    SomePass(script, cfg.maxRevisionLoops, 0, []);
    var attempts := Passes(script, cfg.maxRevisionLoops, 0, []).value;
    var shown := Some(Shown(ticketId, attempts[|attempts| - 1].dev, script, cfg));
    SecurityAgent.SecuredJudges(shown, true, scan(shown), said(shown), cfg);
  }

  lemma {:induction false} SomePass(script: Script, cap: int, count: nat, before: seq<Attempt>)
    ensures Passes(script, cap, count, before).Ok? ==> |Passes(script, cap, count, before).value| > |before|
    decreases Budget(count, cap)
  {
    var pass := |before|;
    if script.drafts(pass).Ok? {
      var a := Attempt(script.drafts(pass).value, script.reviews(pass), count + 1);
      if !(a.review.verdict == Approve || count >= cap) {
        SomePass(script, cap, count + 1, before + [a]);
      }
    }
  }

  /** So neither pipeline promotes a run whose last change has such a finding, whatever the
      review, the SRE agent and the humans say. */
  lemma {:induction false} FoundNeverShips(start: RunDoc, poisoned: bool, trigger: string, script: Script, cfg: Config,
                                           scan: Option<DevDoc> -> SecurityAgent.Scan,
                                           said: Option<DevDoc> -> string)
    requires start.status == Status.Running && start.decisions == [] && start.revisionCount == 0
    requires forall dev :: script.security(dev) == SecurityAgent.Secured(dev, true, scan(dev), said(dev), cfg)
    requires var passes := Passes(script, cfg.maxRevisionLoops, 0, []);
      passes.Ok? ==>
        && passes.value != []
        && FindsTooMuch(scan, Shown(start.ticketId, passes.value[|passes.value| - 1].dev, script, cfg),
                        cfg.blockThreshold)
    ensures Ran(start, script, cfg).s.doc.status != Status.Promoted
    ensures Chained(start.(poisoned := poisoned), trigger, script, cfg).s.doc.status != Status.Promoted
  {
    PipelinesAgree(start, poisoned, trigger, script, cfg);
    if script.approves(Gate1) && script.opens && Passes(script, cfg.maxRevisionLoops, 0, []).Ok? {
      FindingsDecide(start.ticketId, script, cfg, scan, said);
    }
  }

  /** How the chain's last process ends, in numbers. */
  lemma {:induction false} ChainExitCodes(start: RunDoc, poisoned: bool, trigger: string, script: Script, cfg: Config)
    requires start.status == Status.Running && start.decisions == [] && start.revisionCount == 0
    ensures var code := Chained(start.(poisoned := poisoned), trigger, script, cfg).exit.Code();
      match Ending(start.ticketId, script, cfg)
      case None => code == 1
      case Some(Promoted) => code == 0
      case Some(Blocked) => code == 3
      case Some(Failed) => code == 4
      case Some(Rejected) => code == 4
      case Some(Running) => false
  {
    PipelinesAgree(start, poisoned, trigger, script, cfg);
  }

  /** And how each job's does, on any stored run: a recorder that meets an ended run exits 5, and
      a promotion nothing earned 6. */
  lemma JobExitCodes(s: Session, gate: GateName, script: Script, cfg: Config)
    ensures RecordJob(s, gate).exit.Code() == if s.doc.status == Status.Running then 4 else 5
    ensures SreJob(s, script).exit.Code() == if script.sre(script.ci).verdict == NoGo then 4 else 0
    ensures PromoteJob(s, script, cfg).exit.Code()
            == if s.doc.status != Status.Running then 5 else if Cleared(s.doc) then 0 else 6
  {
    NotPromotableExactly(s.doc);
  }

  lemma DevelopExitCodes(s: Session, script: Script, cfg: Config)
    ensures var code, passes := DevelopJob(s, script, cfg).exit.Code(),
                                Passes(script, cfg.maxRevisionLoops, s.doc.revisionCount, []);
      if passes.Raised? || !script.opens then code == 1
      else
        && passes.value != []
        && var last := passes.value[|passes.value| - 1];
           var security := script.security(Some(Shown(s.doc.ticketId, last.dev, script, cfg)));
           code == if security.verdict == Block then 3 else if last.review.verdict == ChangesRequested then 4 else 0
  {
    ProposedIsPasses(s, script, cfg);
    var loop := ProposedBy(s, script, cfg);
    if loop.Settled? {
      LoopStanding(s, script, cfg);
      SettledHoldsReview(s, script, cfg.maxRevisionLoops, []);
      RevisedKeeps(s, script, cfg.maxRevisionLoops, []);
      PublishedKeeps(loop.s, loop.attempts, script, cfg);
    }
  }

  /** With the block rule over what the scanners find in each change, finding more in every one
      or lowering the threshold never turns a run that does not ship into one that does. */
  lemma StricterNeverShipsMore(ticketId: string, script: Script, cfg: Config,
                               fewer: Option<DevDoc> -> seq<Finding>, more: Option<DevDoc> -> seq<Finding>,
                               threshold: Severity, lower: Severity,
                               lax: Option<DevDoc> -> SecurityResult, strict: Option<DevDoc> -> SecurityResult)
    requires forall dev, f | f in fewer(dev) :: f in more(dev)
    requires AtOrAbove(threshold, lower)
    requires forall dev :: lax(dev).verdict == ComputeSecurityVerdict(fewer(dev), threshold).0
    requires forall dev :: strict(dev).verdict == ComputeSecurityVerdict(more(dev), lower).0
    requires Ending(ticketId, script.(security := lax), cfg) != Some(Status.Promoted)
    ensures Ending(ticketId, script.(security := strict), cfg) != Some(Status.Promoted)
  {
    forall dev | lax(dev).verdict == Block ensures strict(dev).verdict == Block {
      BlockIsMonotone(fewer(dev), more(dev), threshold, lower);
    }
    PassesAreTheAgents(script.(security := lax), script.(security := strict), cfg.maxRevisionLoops, 0, []);
  }

  /** The passes are the developer's and the reviewer agent's business alone. */
  lemma {:induction false} PassesAreTheAgents(x: Script, y: Script, cap: int, count: nat, before: seq<Attempt>)
    requires x.drafts == y.drafts && x.reviews == y.reviews
    ensures Passes(x, cap, count, before) == Passes(y, cap, count, before)
    decreases Budget(count, cap)
  {
    var pass := |before|;
    if x.drafts(pass).Ok? {
      var a := Attempt(x.drafts(pass).value, x.reviews(pass), count + 1);
      if !(a.review.verdict == Approve || count >= cap) {
        PassesAreTheAgents(x, y, cap, count + 1, before + [a]);
      }
    }
  }
}
