/** What one run writes down, says and leaves behind, told from the answers alone. `Story` is
    the whole log, `Talk` every call and `EndDoc` the saved document of a run that comes back,
    `RaisedStory`, `RaisedTalk` and `RaisedDoc` those of one that raises; none of them is put
    in terms of the pipeline's own steps. */
module Traces {
  import opened Prelude
  import opened State
  import opened Settings
  import opened GithubOps
  import opened Sessions
  import opened Gates
  import opened Graph
  import opened RunStage
  import opened Equivalence
  import opened Endings
  import opened Comments
  import Developer

  // ----- the log ----------------------------------------------------------

  function PlainFact(actor: Actor, stage: Stage, action: Action): Fact {
    Fact(actor, stage, action, NoWord, Unrecorded, "")
  }

  function PausedFact(gate: GateName): Fact {
    PlainFact(Actor.System, AtGate(gate), Opened)
  }

  function AnswerFact(gate: GateName, approved: bool): Fact {
    Fact(Human, AtGate(gate), if approved then Action.Approved else Action.Rejected,
         OfDecision(if approved then Decision.Approved else Decision.Rejected), Unrecorded, "")
  }

  function OpeningStory(script: Script): seq<Fact> {
    [PlainFact(Actor.System, Stage.Plan, Opened), PlainFact(Planner, Stage.Plan, Proposed), PausedFact(Gate1),
     AnswerFact(Gate1, script.approves(Gate1))]
  }

  /** Each pass proposes and is reviewed. */
  function LoopStory(attempts: seq<Attempt>): seq<Fact> {
    if attempts == [] then []
    else
      [PlainFact(Actor.Developer, Stage.Develop, Proposed),
       Fact(Actor.Reviewer, Stage.Review, Action.Reviewed, OfReview(attempts[0].review.verdict), Unrecorded, "")]
      + LoopStory(attempts[1..])
  }

  function PublishStory(security: SecurityResult): seq<Fact> {
    [PlainFact(Actor.System, Stage.Develop, Opened), PlainFact(Actor.System, Stage.Develop, Passed),
     Fact(Actor.Security, Stage.Security, if security.verdict == Block then Action.Blocked else Passed,
          OfSecurity(security.verdict), security.provenance, "")]
  }

  /** The merge row carries where the change ended up. */
  function PromoteStory(branch: string, script: Script, cfg: Config): seq<Fact> {
    var landed := Landing(branch, script.merge, cfg).Text();
    [PausedFact(Gate3), AnswerFact(Gate3, script.approves(Gate3))]
    + if script.approves(Gate3)
      then [Fact(Actor.System, Stage.Promote, Merged, NoWord, Unrecorded, landed),
            PlainFact(Actor.System, Stage.Promote, Action.Promoted)]
      else []
  }

  function SreStory(branch: string, script: Script, cfg: Config): seq<Fact> {
    var verdict := script.sre(script.ci).verdict;
    [Fact(Actor.Sre, Stage.Sre, Action.Reviewed, OfSre(verdict), Unrecorded, "")]
    + if verdict == NoGo then [Fact(Actor.Sre, Stage.Sre, Action.Failed, OfSre(NoGo), Unrecorded, "")]
      else PromoteStory(branch, script, cfg)
  }

  /** The halt row carries what became of the block reason. */
  function VerdictStory(branch: string, security: SecurityResult, review: ReviewDoc, script: Script, cfg: Config)
    : seq<Fact>
  {
    if security.verdict == Block
    then [Fact(Actor.System, Stage.Security, Action.Blocked, NoWord, security.provenance, script.delivery)]
    else if review.verdict != Approve
    then [Fact(Actor.System, Stage.Review, Action.Failed, OfReview(review.verdict), Unrecorded, "")]
    else [PausedFact(Gate2), AnswerFact(Gate2, script.approves(Gate2))]
         + if script.approves(Gate2) then SreStory(branch, script, cfg) else []
  }

  /** Everything a run with these passes logs, in order. */
  function Story(ticketId: string, attempts: seq<Attempt>, script: Script, cfg: Config): seq<Fact> {
    OpeningStory(script)
    + if !script.approves(Gate1) || attempts == [] then []
      else
        var last := attempts[|attempts| - 1];
        var shown := Shown(ticketId, last.dev, script, cfg);
        var security := script.security(Some(shown));
        LoopStory(attempts) + PublishStory(security) + VerdictStory(shown.branch, security, last.review, script, cfg)
  }

  lemma OneFact(s: Session, row: Row)
    ensures Facts(s.Log(row).rows) == Facts(s.rows) + [FactOf(row)]
  {
    FactsAppend(s.rows, row);
  }

  lemma TwoFacts(rows: seq<Row>, x: Row, y: Row)
    ensures Facts(rows + [x] + [y]) == Facts(rows) + [FactOf(x), FactOf(y)]
  {
    FactsAppend(rows, x);
    FactsAppend(rows + [x], y);
  }

  lemma AskedFacts(s: Session, gate: GateName, script: Script)
    ensures Facts(Asked(s, Answer(gate, script)).rows)
            == Facts(s.rows) + [PausedFact(gate), AnswerFact(gate, script.approves(gate))]
  {
    TwoFacts(s.rows, PauseRow(gate), DecisionRow(Answer(gate, script)));
  }

  lemma OpeningFacts(start: RunDoc, script: Script)
    ensures Facts(Asked(Started(Session(start, [], []), script.plan), Answer(Gate1, script)).rows)
            == OpeningStory(script)
  {
    TwoFacts([], StartRow(start.ticketId), PLANNED_ROW);
    AskedFacts(Started(Session(start, [], []), script.plan), Gate1, script);
  }

  lemma PassFacts(s: Session, a: Attempt)
    ensures Facts(Judged(Tried(s, a), a).rows) == Facts(s.rows) + LoopStory([a])
    ensures Facts(Judged(Bumped(Tried(s, a)), a).rows) == Facts(s.rows) + LoopStory([a])
  {
    TwoFacts(s.rows, DRAFTED_ROW, ReviewRow(a.review.verdict));
    assert [a][1..] == [];
  }

  lemma LoopStoryCons(a: Attempt, rest: seq<Attempt>)
    ensures LoopStory([a] + rest) == LoopStory([a]) + LoopStory(rest)
  {
    assert ([a] + rest)[1..] == rest && [a][1..] == [];
  }

  lemma Associative<T>(a: seq<T>, b: seq<T>, c: seq<T>)
    ensures a + b + c == a + (b + c)
  {
  }

  /** The passes from one that goes on: that pass, then the passes of the next trip. */
  lemma PassThenRest(s: Session, script: Script, cap: int, before: seq<Attempt>, a: Attempt)
    requires Revised(s, script, cap, before).Settled?
    requires Try(s.doc, script, |before|) == Ok(a) && !Over(s.doc, a.review, cap)
    ensures var next := Judged(Bumped(Tried(s, a)), a);
      var loop := Revised(s, script, cap, before);
      && Revised(next, script, cap, before + [a]) == loop
      && |loop.attempts| > |before| + 1
      && loop.attempts[|before|..] == [a] + loop.attempts[|before + [a]|..]
  {
    var next := Judged(Bumped(Tried(s, a)), a);
    SettledEndsOnLast(next, script, cap, before + [a]);
    var attempts := Revised(next, script, cap, before + [a]).attempts;
    assert attempts[..|before| + 1][|before|] == a;
  }

  lemma {:induction false} LoopFacts(s: Session, script: Script, cap: int, before: seq<Attempt>)
    requires Revised(s, script, cap, before).Settled?
    ensures var loop := Revised(s, script, cap, before);
      && |loop.attempts| > |before|
      && Facts(loop.s.rows) == Facts(s.rows) + LoopStory(loop.attempts[|before|..])
    decreases Budget(s.doc.revisionCount, cap)
  {
    var a := Try(s.doc, script, |before|).value;
    PassFacts(s, a);
    if Over(s.doc, a.review, cap) {
      assert (before + [a])[|before|..] == [a];
    } else {
      PassThenRest(s, script, cap, before, a);
      LoopFacts(Judged(Bumped(Tried(s, a)), a), script, cap, before + [a]);
      var rest := Revised(s, script, cap, before).attempts[|before + [a]|..];
      LoopStoryCons(a, rest);
      Associative(Facts(s.rows), LoopStory([a]), LoopStory(rest));
    }
  }

  lemma PublishFacts(s: Session, attempts: seq<Attempt>, script: Script, cfg: Config)
    ensures var t := Published(s, attempts, script, cfg);
      t.doc.security.Some? && Facts(t.rows) == Facts(s.rows) + PublishStory(t.doc.security.value)
  {
    var s1 := PrOpenedBy(s, script, cfg);
    FlushKeepsDoc(s1, attempts);
    TwoFacts(s.rows, PrRow(s1.doc.dev.value), TESTS_ROW);
    var s2 := TestsGenerated(Flushed(s1, attempts), script.tests);
    OneFact(s2, SecurityRow(script.security(s2.doc.dev)));
  }

  lemma PromoteFacts(s: Session, branch: string, script: Script, cfg: Config)
    requires Through(s.doc, {Gate1, Gate2}) && s.doc.security.Some? && s.doc.security.value.verdict == Pass
    requires s.doc.sre.Some? && s.doc.sre.value.verdict == Go && OnBranch(s.doc, branch)
    ensures var asked := Asked(s, Answer(Gate3, script));
      Facts((if script.approves(Gate3) then WalkPromote(asked, script, cfg) else asked).rows)
      == Facts(s.rows) + PromoteStory(branch, script, cfg)
  {
    var asked := Asked(s, Answer(Gate3, script));
    AskedFacts(s, Gate3, script);
    if script.approves(Gate3) {
      ThroughGate(s.doc, {Gate1, Gate2}, Gate3);
      NotPromotableExactly(asked.doc);
      assert MergePr(asked.doc, script.merge, cfg) == Landing(branch, script.merge, cfg);
      TwoFacts(asked.rows, MergedRow(MergePr(asked.doc, script.merge, cfg)), PROMOTED_ROW);
    }
  }

  lemma SreFacts(s: Session, branch: string, script: Script, cfg: Config)
    requires Through(s.doc, {Gate1, Gate2}) && s.doc.security.Some? && s.doc.security.value.verdict == Pass
    requires OnBranch(s.doc, branch)
    ensures Facts(WalkSre(s, script, cfg).rows) == Facts(s.rows) + SreStory(branch, script, cfg)
  {
    var r := script.sre(script.ci);
    var s1 := SreAsked(s, script);
    FactsAppend(s.rows, SreRow(r));
    if SaysNoGo(s1.doc) {
      OneFact(s1.With(s1.doc.(status := Status.Failed)), NO_GO_ROW);
    } else {
      PromoteFacts(s1, branch, script, cfg);
    }
  }

  lemma VerdictFacts(s: Session, branch: string, script: Script, cfg: Config)
    requires Through(s.doc, {Gate1}) && s.doc.security.Some? && s.doc.review.Some? && OnBranch(s.doc, branch)
    ensures Facts(WalkVerdicts(s, script, cfg).rows)
            == Facts(s.rows) + VerdictStory(branch, s.doc.security.value, s.doc.review.value, script, cfg)
  {
    if IsBlocked(s.doc) {
      OneFact(s, HaltRow(script.delivery, s.doc.security.value));
    } else if !IsApproved(s.doc) {
      OneFact(s, UnapprovedRow(s.doc.review.value));
    } else {
      AskedFacts(s, Gate2, script);
      if script.approves(Gate2) {
        ThroughGate(s.doc, {Gate1}, Gate2);
        assert {Gate1} + {Gate2} == {Gate1, Gate2};
        SreFacts(Asked(s, Answer(Gate2, script)), branch, script, cfg);
      }
    }
  }

  lemma DevelopFacts(s: Session, script: Script, cfg: Config)
    requires Through(s.doc, {Gate1}) && WalkDevelop(s, script, cfg).Finished?
    ensures var loop := Revised(s, script, cfg.maxRevisionLoops, []);
      && loop.Settled? && loop.attempts != []
      && var shown := Shown(s.doc.ticketId, Final(loop).dev, script, cfg);
         var security := script.security(Some(shown));
         Facts(WalkDevelop(s, script, cfg).s.rows)
         == Facts(s.rows) + LoopStory(loop.attempts) + PublishStory(security)
            + VerdictStory(shown.branch, security, Final(loop).review, script, cfg)
  {
    var cap := cfg.maxRevisionLoops;
    var loop := Revised(s, script, cap, []);
    RevisedKeeps(s, script, cap, []);
    SettledHoldsReview(s, script, cap, []);
    SettledEndsOnLast(s, script, cap, []);
    LoopFacts(s, script, cap, []);
    assert loop.attempts[0..] == loop.attempts;
    PublishedKeeps(loop.s, loop.attempts, script, cfg);
    PublishFacts(loop.s, loop.attempts, script, cfg);
    OpenedOnBranch(s.doc.ticketId, Final(loop).dev, script.prUrl, cfg);
    var p := Published(loop.s, loop.attempts, script, cfg);
    VerdictFacts(p, p.doc.dev.value.branch, script, cfg);
  }

  lemma Regroup<T>(a: seq<T>, b: seq<T>, c: seq<T>, d: seq<T>)
    ensures a + b + c + d == a + (b + c + d)
  {
  }

  /** What gate1's approval leads to. */
  lemma DevelopStory(start: RunDoc, script: Script, cfg: Config)
    requires start.status == Status.Running && start.decisions == [] && start.revisionCount == 0
    requires script.approves(Gate1)
    ensures var s := Asked(Started(Session(start, [], []), script.plan), Answer(Gate1, script));
      var attempts := Passes(script, cfg.maxRevisionLoops, 0, []);
      WalkDevelop(s, script, cfg).Finished? ==>
        && attempts.Ok?
        && Facts(WalkDevelop(s, script, cfg).s.rows) == Story(start.ticketId, attempts.value, script, cfg)
  {
    var a := Started(Session(start, [], []), script.plan);
    StartedRuns(start, "", script, false);
    ThroughGate(a.doc, {}, Gate1);
    assert {} + {Gate1} == {Gate1};
    var s := Asked(a, Answer(Gate1, script));
    if WalkDevelop(s, script, cfg).Finished? {
      OpeningFacts(start, script);
      RevisedIsPasses(s, script, cfg.maxRevisionLoops, []);
      DevelopFacts(s, script, cfg);
      var loop := Revised(s, script, cfg.maxRevisionLoops, []);
      var shown := Shown(start.ticketId, Final(loop).dev, script, cfg);
      var security := script.security(Some(shown));
      Regroup(OpeningStory(script), LoopStory(loop.attempts), PublishStory(security),
              VerdictStory(shown.branch, security, Final(loop).review, script, cfg));
    }
  }

  lemma WalkStory(start: RunDoc, script: Script, cfg: Config)
    requires start.status == Status.Running && start.decisions == [] && start.revisionCount == 0
    requires Walked(Session(start, [], []), script, cfg).Finished?
    ensures var attempts := Passes(script, cfg.maxRevisionLoops, 0, []);
      Facts(Walked(Session(start, [], []), script, cfg).s.rows)
      == Story(start.ticketId, if attempts.Ok? then attempts.value else [], script, cfg)
  {
    if script.approves(Gate1) {
      DevelopStory(start, script, cfg);
    } else {
      OpeningFacts(start, script);
      assert OpeningStory(script) + [] == OpeningStory(script);
    }
  }

  /** The whole log of a run that comes back, in both pipelines. */
  lemma {:induction false} StoryOfARun(start: RunDoc, poisoned: bool, trigger: string, script: Script, cfg: Config)
    requires start.status == Status.Running && start.decisions == [] && start.revisionCount == 0
    requires Ran(start, script, cfg).Finished?
    ensures var attempts := Passes(script, cfg.maxRevisionLoops, 0, []);
      var story := Story(start.ticketId, if attempts.Ok? then attempts.value else [], script, cfg);
      && Facts(Ran(start, script, cfg).s.rows) == story
      && Facts(Chained(start.(poisoned := poisoned), trigger, script, cfg).s.rows) == story
  {
    WalkStory(start, script, cfg);
    PipelinesAgree(start, poisoned, trigger, script, cfg);
  }

  // ----- the calls --------------------------------------------------------

  /** What the developer is asked in the pass after `previous`. */
  function AskedAfter(previous: Option<Attempt>): Developer.Prompt {
    if previous.Some? && previous.value.review.mustFix != []
    then Developer.Revision(Some(previous.value.dev.diff), previous.value.review.mustFix)
    else Developer.FirstPass
  }

  function LoopTalk(previous: Option<Attempt>, attempts: seq<Attempt>): seq<Call>
    decreases |attempts|
  {
    if attempts == [] then []
    else [AskDeveloper(AskedAfter(previous))] + LoopTalk(Some(attempts[0]), attempts[1..])
  }

  function PublishTalk(branch: string, attempts: seq<Attempt>, security: SecurityResult): seq<Call> {
    [OpenPullRequest(branch)] + Pairs(OnPullRequest, attempts) + [Comment(OnPullRequest, SecurityNote(security))]
  }

  /** Where a cleared change on its own branch ends up. */
  function Landing(branch: string, host: HostMerge, cfg: Config): MergeRef {
    if cfg.offline then MergeLocal(branch)
    else
      match host
      case NoOpenPull => MergeFailed("no-open-pull-request")
      case NotMergeable => MergeFailed("not-mergeable")
      case HostDeclined => MergeFailed("github-declined")
      case Landed(url) => MergeLanded(url)
      case HostRaised(kind) => MergeFailed(kind)
  }

  function GateTalk(gate: GateName, script: Script): seq<Call> {
    [Comment(OnPullRequest, GateNote(Answer(gate, script)))]
  }

  function SreTalk(branch: string, script: Script, cfg: Config): seq<Call> {
    var r := script.sre(script.ci);
    [MeasureCi, Comment(OnPullRequest, SreNote(r))]
    + if r.verdict == NoGo then []
      else GateTalk(Gate3, script)
           + if script.approves(Gate3) then [Merge(Landing(branch, script.merge, cfg))] else []
  }

  function VerdictTalk(branch: string, security: SecurityResult, review: ReviewDoc, script: Script, cfg: Config)
    : seq<Call>
  {
    if security.verdict == Block || review.verdict != Approve then []
    else GateTalk(Gate2, script) + if script.approves(Gate2) then SreTalk(branch, script, cfg) else []
  }

  /** Everything said on behalf of a run with these passes, in order, up to the report of its
      ending. */
  function Talk(ticketId: string, attempts: seq<Attempt>, script: Script, cfg: Config): seq<Call> {
    [Comment(OnIssue, PlanNote(script.plan)), Comment(OnIssue, GateNote(Answer(Gate1, script)))]
    + if !script.approves(Gate1) || attempts == [] then []
      else
        var last := attempts[|attempts| - 1];
        var shown := Shown(ticketId, last.dev, script, cfg);
        var security := script.security(Some(shown));
        LoopTalk(None, attempts) + PublishTalk(shown.branch, attempts, security)
        + VerdictTalk(shown.branch, security, last.review, script, cfg)
  }

  /** The state carries exactly the pass before. */
  ghost predicate Carries(doc: RunDoc, previous: Option<Attempt>) {
    if previous.None? then doc.review.None?
    else doc.dev == Some(previous.value.dev) && doc.review == Some(previous.value.review)
  }

  lemma LoopTalkCons(previous: Option<Attempt>, a: Attempt, rest: seq<Attempt>)
    ensures LoopTalk(previous, [a] + rest) == [AskDeveloper(AskedAfter(previous))] + LoopTalk(Some(a), rest)
  {
    assert ([a] + rest)[1..] == rest;
  }

  lemma {:induction false} LoopCalls(s: Session, script: Script, cap: int, before: seq<Attempt>,
                                     previous: Option<Attempt>)
    requires Revised(s, script, cap, before).Settled? && Carries(s.doc, previous)
    ensures var loop := Revised(s, script, cap, before);
      && |loop.attempts| > |before|
      && loop.s.calls == s.calls + LoopTalk(previous, loop.attempts[|before|..])
    decreases Budget(s.doc.revisionCount, cap)
  {
    var a := Try(s.doc, script, |before|).value;
    assert Developer.PromptFor(s.doc) == AskedAfter(previous);
    if Over(s.doc, a.review, cap) {
      assert (before + [a])[|before|..] == [a] + [];
      LoopTalkCons(previous, a, []);
    } else {
      PassThenRest(s, script, cap, before, a);
      LoopCalls(Judged(Bumped(Tried(s, a)), a), script, cap, before + [a], Some(a));
      var rest := Revised(s, script, cap, before).attempts[|before + [a]|..];
      LoopTalkCons(previous, a, rest);
      Associative(s.calls, [AskDeveloper(AskedAfter(previous))], LoopTalk(Some(a), rest));
    }
  }

  lemma PublishCalls(s: Session, attempts: seq<Attempt>, script: Script, cfg: Config)
    ensures var t := Published(s, attempts, script, cfg);
      && t.doc.dev.Some? && t.doc.security.Some?
      && t.calls == s.calls + PublishTalk(t.doc.dev.value.branch, attempts, t.doc.security.value)
  {
    PublishedKeeps(s, attempts, script, cfg);
    var s1 := PrOpenedBy(s, script, cfg);
    OpenedOnBranch(s.doc.ticketId, s.doc.dev.GetOr(cfg.fixtures.cleanDev), script.prUrl, cfg);
    FlushPostsPairs(s1, attempts);
    FlushKeepsDoc(s1, attempts);
  }

  ghost predicate OnBranch(doc: RunDoc, branch: string) {
    doc.dev.Some? && doc.dev.value.branch == branch && branch != ""
  }

  lemma SreCalls(s: Session, branch: string, script: Script, cfg: Config)
    requires Through(s.doc, {Gate1, Gate2}) && s.doc.security.Some? && s.doc.security.value.verdict == Pass
    requires OnBranch(s.doc, branch)
    ensures WalkSre(s, script, cfg).calls == s.calls + SreTalk(branch, script, cfg)
  {
    var s1 := SreAsked(s, script);
    if !SaysNoGo(s1.doc) && script.approves(Gate3) {
      var asked := Asked(s1, Answer(Gate3, script));
      ThroughGate(s1.doc, {Gate1, Gate2}, Gate3);
      NotPromotableExactly(asked.doc);
      assert MergePr(asked.doc, script.merge, cfg) == Landing(branch, script.merge, cfg);
    }
  }

  lemma VerdictCalls(s: Session, branch: string, script: Script, cfg: Config)
    requires Through(s.doc, {Gate1}) && s.doc.security.Some? && s.doc.review.Some? && OnBranch(s.doc, branch)
    ensures WalkVerdicts(s, script, cfg).calls
            == s.calls + VerdictTalk(branch, s.doc.security.value, s.doc.review.value, script, cfg)
  {
    if !IsBlocked(s.doc) && IsApproved(s.doc) && script.approves(Gate2) {
      ThroughGate(s.doc, {Gate1}, Gate2);
      assert {Gate1} + {Gate2} == {Gate1, Gate2};
      SreCalls(Asked(s, Answer(Gate2, script)), branch, script, cfg);
    }
  }

  lemma DevelopCalls(s: Session, script: Script, cfg: Config)
    requires Through(s.doc, {Gate1}) && WalkDevelop(s, script, cfg).Finished? && s.doc.review.None?
    ensures var loop := Revised(s, script, cfg.maxRevisionLoops, []);
      && loop.Settled? && loop.attempts != []
      && var shown := Shown(s.doc.ticketId, Final(loop).dev, script, cfg);
         var security := script.security(Some(shown));
         WalkDevelop(s, script, cfg).s.calls
         == s.calls + LoopTalk(None, loop.attempts) + PublishTalk(shown.branch, loop.attempts, security)
            + VerdictTalk(shown.branch, security, Final(loop).review, script, cfg)
  {
    var cap := cfg.maxRevisionLoops;
    var loop := Revised(s, script, cap, []);
    RevisedKeeps(s, script, cap, []);
    SettledHoldsReview(s, script, cap, []);
    SettledEndsOnLast(s, script, cap, []);
    LoopCalls(s, script, cap, [], None);
    assert loop.attempts[0..] == loop.attempts;
    PublishedKeeps(loop.s, loop.attempts, script, cfg);
    PublishCalls(loop.s, loop.attempts, script, cfg);
    var p := Published(loop.s, loop.attempts, script, cfg);
    OpenedOnBranch(s.doc.ticketId, Final(loop).dev, script.prUrl, cfg);
    VerdictCalls(p, p.doc.dev.value.branch, script, cfg);
  }

  lemma OpeningCalls(start: RunDoc, script: Script)
    requires start.dev.None?
    ensures Asked(Started(Session(start, [], []), script.plan), Answer(Gate1, script)).calls
            == [Comment(OnIssue, PlanNote(script.plan)), Comment(OnIssue, GateNote(Answer(Gate1, script)))]
  {
  }

  lemma DevelopTalk(start: RunDoc, script: Script, cfg: Config)
    requires start.status == Status.Running && start.decisions == [] && start.revisionCount == 0
    requires start.dev.None? && start.review.None? && script.approves(Gate1)
    ensures var s := Asked(Started(Session(start, [], []), script.plan), Answer(Gate1, script));
      var attempts := Passes(script, cfg.maxRevisionLoops, 0, []);
      WalkDevelop(s, script, cfg).Finished? ==>
        attempts.Ok? && WalkDevelop(s, script, cfg).s.calls == Talk(start.ticketId, attempts.value, script, cfg)
  {
    var a := Started(Session(start, [], []), script.plan);
    StartedRuns(start, "", script, false);
    ThroughGate(a.doc, {}, Gate1);
    assert {} + {Gate1} == {Gate1};
    var s := Asked(a, Answer(Gate1, script));
    if WalkDevelop(s, script, cfg).Finished? {
      OpeningCalls(start, script);
      RevisedIsPasses(s, script, cfg.maxRevisionLoops, []);
      DevelopCalls(s, script, cfg);
      var loop := Revised(s, script, cfg.maxRevisionLoops, []);
      var shown := Shown(start.ticketId, Final(loop).dev, script, cfg);
      var security := script.security(Some(shown));
      Regroup(s.calls, LoopTalk(None, loop.attempts), PublishTalk(shown.branch, loop.attempts, security),
              VerdictTalk(shown.branch, security, Final(loop).review, script, cfg));
    }
  }

  lemma WalkTalk(start: RunDoc, script: Script, cfg: Config)
    requires start.status == Status.Running && start.decisions == [] && start.revisionCount == 0
    requires start.dev.None? && start.review.None?
    requires Walked(Session(start, [], []), script, cfg).Finished?
    ensures var attempts := Passes(script, cfg.maxRevisionLoops, 0, []);
      Walked(Session(start, [], []), script, cfg).s.calls
      == Talk(start.ticketId, if attempts.Ok? then attempts.value else [], script, cfg)
  {
    OpeningCalls(start, script);
    if script.approves(Gate1) {
      DevelopTalk(start, script, cfg);
    }
  }

  /** Every call made for a run that comes back, in order, in both pipelines: the talk, then the
      report of the ending. */
  lemma {:induction false} TalkOfARun(start: RunDoc, poisoned: bool, trigger: string, script: Script, cfg: Config)
    requires start.status == Status.Running && start.decisions == [] && start.revisionCount == 0
    requires start.dev.None? && start.review.None?
    requires Ran(start, script, cfg).Finished?
    ensures var attempts := Passes(script, cfg.maxRevisionLoops, 0, []);
      var ending := Ending(start.ticketId, script, cfg);
      && ending.Some?
      && var talk := Talk(start.ticketId, if attempts.Ok? then attempts.value else [], script, cfg)
                     + [ReportOutcome(ending.value)];
         && Ran(start, script, cfg).s.calls == talk
         && Chained(start.(poisoned := poisoned), trigger, script, cfg).s.calls == talk
  {
    WalkTalk(start, script, cfg);
    PipelinesAgree(start, poisoned, trigger, script, cfg);
  }

  // ----- the document -----------------------------------------------------

  function Yes(gate: GateName): HumanDecision {
    HumanDecision(gate, Decision.Approved)
  }

  function No(gate: GateName): HumanDecision {
    HumanDecision(gate, Decision.Rejected)
  }

  /** The run with its status and everything its humans were asked. */
  function Closing(doc: RunDoc, decisions: seq<HumanDecision>, status: Status): RunDoc {
    doc.(decisions := decisions, status := status)
  }

  function EndAfterSre(doc: RunDoc, script: Script): RunDoc {
    var r := script.sre(script.ci);
    var judged := doc.(ciMeasured := Some(script.ci), sre := Some(r));
    if r.verdict == NoGo then Closing(judged, [Yes(Gate1), Yes(Gate2)], Status.Failed)
    else if !script.approves(Gate3) then Closing(judged, [Yes(Gate1), Yes(Gate2), No(Gate3)], Status.Rejected)
    else Closing(judged, [Yes(Gate1), Yes(Gate2), Yes(Gate3)], Status.Promoted)
  }

  function EndAfterVerdicts(doc: RunDoc, security: SecurityResult, review: ReviewDoc, script: Script): RunDoc {
    if security.verdict == Block then Closing(doc, [Yes(Gate1)], Status.Blocked)
    else if review.verdict != Approve then Closing(doc, [Yes(Gate1)], Status.Failed)
    else if !script.approves(Gate2) then Closing(doc, [Yes(Gate1), No(Gate2)], Status.Rejected)
    else EndAfterSre(doc, script)
  }

  /** What is saved of a run with these passes. */
  function EndDoc(start: RunDoc, attempts: seq<Attempt>, script: Script, cfg: Config): RunDoc {
    var planned := start.(plan := Some(script.plan));
    if !script.approves(Gate1) || attempts == [] then Closing(planned, [No(Gate1)], Status.Rejected)
    else
      var last := attempts[|attempts| - 1];
      var shown := Shown(start.ticketId, last.dev, script, cfg);
      var security := script.security(Some(shown));
      EndAfterVerdicts(planned.(dev := Some(shown), review := Some(last.review), tests := Some(script.tests),
                                security := Some(security), revisionCount := |attempts| - 1),
                       security, last.review, script)
  }

  lemma SreEnd(s: Session, script: Script, cfg: Config)
    requires Through(s.doc, {Gate1, Gate2}) && s.doc.security.Some? && s.doc.security.value.verdict == Pass
    requires s.doc.decisions == [Yes(Gate1), Yes(Gate2)]
    ensures WalkSre(s, script, cfg).doc == EndAfterSre(s.doc, script)
  {
    var s1 := SreAsked(s, script);
    if !SaysNoGo(s1.doc) {
      assert [Yes(Gate1), Yes(Gate2)] + [Yes(Gate3)] == [Yes(Gate1), Yes(Gate2), Yes(Gate3)];
      assert [Yes(Gate1), Yes(Gate2)] + [No(Gate3)] == [Yes(Gate1), Yes(Gate2), No(Gate3)];
      if script.approves(Gate3) {
        ThroughGate(s1.doc, {Gate1, Gate2}, Gate3);
        NotPromotableExactly(Asked(s1, Answer(Gate3, script)).doc);
      }
    }
  }

  lemma VerdictEnd(s: Session, script: Script, cfg: Config)
    requires Through(s.doc, {Gate1}) && s.doc.security.Some? && s.doc.review.Some?
    requires s.doc.decisions == [Yes(Gate1)]
    ensures WalkVerdicts(s, script, cfg).doc
            == EndAfterVerdicts(s.doc, s.doc.security.value, s.doc.review.value, script)
  {
    assert [Yes(Gate1)] + [Yes(Gate2)] == [Yes(Gate1), Yes(Gate2)];
    assert [Yes(Gate1)] + [No(Gate2)] == [Yes(Gate1), No(Gate2)];
    if !IsBlocked(s.doc) && IsApproved(s.doc) && script.approves(Gate2) {
      ThroughGate(s.doc, {Gate1}, Gate2);
      assert {Gate1} + {Gate2} == {Gate1, Gate2};
      SreEnd(Asked(s, Answer(Gate2, script)), script, cfg);
    }
  }

  lemma PublishedDoc(s: Session, attempts: seq<Attempt>, script: Script, cfg: Config)
    requires s.doc.dev.Some?
    ensures var shown := Shown(s.doc.ticketId, s.doc.dev.value, script, cfg);
      Published(s, attempts, script, cfg).doc
      == s.doc.(dev := Some(shown), tests := Some(script.tests), security := Some(script.security(Some(shown))))
  {
    FlushKeepsDoc(PrOpenedBy(s, script, cfg), attempts);
  }

  lemma SettledDoc(s: Session, script: Script, cap: int)
    requires Revised(s, script, cap, []).Settled? && s.doc.revisionCount == 0
    ensures var loop := Revised(s, script, cap, []);
      && loop.attempts != []
      && loop.s.doc == s.doc.(dev := Some(Final(loop).dev), review := Some(Final(loop).review),
                              revisionCount := |loop.attempts| - 1)
  {
    RevisedKeeps(s, script, cap, []);
    SettledEndsOnLast(s, script, cap, []);
    LoopCounts(s, script, cap, [], 0);
  }

  lemma DevelopEnd(s: Session, script: Script, cfg: Config)
    requires Through(s.doc, {Gate1}) && s.doc.decisions == [Yes(Gate1)] && s.doc.revisionCount == 0
    requires WalkDevelop(s, script, cfg).Finished?
    ensures var loop := Revised(s, script, cfg.maxRevisionLoops, []);
      && loop.Settled? && loop.attempts != []
      && var shown := Shown(s.doc.ticketId, Final(loop).dev, script, cfg);
         var security := script.security(Some(shown));
         WalkDevelop(s, script, cfg).s.doc
         == EndAfterVerdicts(s.doc.(dev := Some(shown), review := Some(Final(loop).review), tests := Some(script.tests),
                                    security := Some(security), revisionCount := |loop.attempts| - 1),
                             security, Final(loop).review, script)
  {
    var loop := Revised(s, script, cfg.maxRevisionLoops, []);
    SettledDoc(s, script, cfg.maxRevisionLoops);
    SettledHoldsReview(s, script, cfg.maxRevisionLoops, []);
    FlushKeepsDoc(PrOpenedBy(loop.s, script, cfg), loop.attempts);
    PublishedDoc(loop.s, loop.attempts, script, cfg);
    VerdictEnd(Published(loop.s, loop.attempts, script, cfg), script, cfg);
  }

  lemma OpeningDoc(start: RunDoc, script: Script)
    requires start.status == Status.Running && start.decisions == []
    ensures var s := Asked(Started(Session(start, [], []), script.plan), Answer(Gate1, script));
      if script.approves(Gate1)
      then s.doc == start.(plan := Some(script.plan), decisions := [Yes(Gate1)]) && Through(s.doc, {Gate1})
      else s.doc == Closing(start.(plan := Some(script.plan)), [No(Gate1)], Status.Rejected)
  {
    assert [] + [Yes(Gate1)] == [Yes(Gate1)] && [] + [No(Gate1)] == [No(Gate1)];
    assert Yes(Gate1) in [Yes(Gate1)] && Approves(Yes(Gate1), Gate1);
  }

  lemma ApprovedEnd(start: RunDoc, s: Session, script: Script, cfg: Config)
    requires start.revisionCount == 0 && script.approves(Gate1)
    requires s.doc == start.(plan := Some(script.plan), decisions := [Yes(Gate1)]) && Through(s.doc, {Gate1})
    requires WalkDevelop(s, script, cfg).Finished?
    ensures var attempts := Passes(script, cfg.maxRevisionLoops, 0, []);
      attempts.Ok? && WalkDevelop(s, script, cfg).s.doc == EndDoc(start, attempts.value, script, cfg)
  {
    DevelopEnd(s, script, cfg);
    RevisedIsPasses(s, script, cfg.maxRevisionLoops, []);
  }

  lemma WalkEnd(start: RunDoc, script: Script, cfg: Config)
    requires start.status == Status.Running && start.decisions == [] && start.revisionCount == 0
    requires Walked(Session(start, [], []), script, cfg).Finished?
    ensures var attempts := Passes(script, cfg.maxRevisionLoops, 0, []);
      Walked(Session(start, [], []), script, cfg).s.doc
      == EndDoc(start, if attempts.Ok? then attempts.value else [], script, cfg)
  {
    OpeningDoc(start, script);
    if script.approves(Gate1) {
      ApprovedEnd(start, Asked(Started(Session(start, [], []), script.plan), Answer(Gate1, script)), script, cfg);
    }
  }

  /** The document a run that comes back is saved as, in both pipelines, but for the poison
      switch each was started with. */
  lemma {:induction false} EndOfARun(start: RunDoc, poisoned: bool, trigger: string, script: Script, cfg: Config)
    requires start.status == Status.Running && start.decisions == [] && start.revisionCount == 0
    requires Ran(start, script, cfg).Finished?
    ensures var attempts := Passes(script, cfg.maxRevisionLoops, 0, []);
      var end := EndDoc(start, if attempts.Ok? then attempts.value else [], script, cfg);
      && Ran(start, script, cfg).s.doc == end
      && Chained(start.(poisoned := poisoned), trigger, script, cfg).s.doc.(poisoned := start.poisoned) == end
  {
    WalkEnd(start, script, cfg);
    EndKeepsPoison(start, script, cfg);
    PipelinesAgree(start, poisoned, trigger, script, cfg);
  }

  lemma EndKeepsPoison(start: RunDoc, script: Script, cfg: Config)
    ensures var attempts := Passes(script, cfg.maxRevisionLoops, 0, []);
      EndDoc(start, if attempts.Ok? then attempts.value else [], script, cfg).poisoned == start.poisoned
  {
  }

  // ----- a run that raises ------------------------------------------------

  function LastOf(attempts: seq<Attempt>, earlier: Option<Attempt>): Option<Attempt> {
    if attempts == [] then earlier else Some(attempts[|attempts| - 1])
  }

  function LastReview(attempts: seq<Attempt>, earlier: Option<ReviewDoc>): Option<ReviewDoc> {
    if attempts == [] then earlier else Some(attempts[|attempts| - 1].review)
  }

  /** What a run that raises has logged: the opening and the passes made. */
  function RaisedStory(made: seq<Attempt>, script: Script): seq<Fact> {
    OpeningStory(script) + LoopStory(made)
  }

  /** What has been said for it; `asked` when it was the developer that raised, once more asked. */
  function RaisedTalk(made: seq<Attempt>, asked: bool, script: Script): seq<Call> {
    [Comment(OnIssue, PlanNote(script.plan)), Comment(OnIssue, GateNote(Answer(Gate1, script)))]
    + LoopTalk(None, made) + if asked then [AskDeveloper(AskedAfter(LastOf(made, None)))] else []
  }

  /** What the single call saves of it: the last draft, on a branch already if it was the pull
      request that raised, the last review, and one revision for each pass sent back. */
  function RaisedDoc(start: RunDoc, made: seq<Attempt>, asked: bool, script: Script, cfg: Config): RunDoc {
    var approved := start.(plan := Some(script.plan), decisions := [Yes(Gate1)],
                           review := LastReview(made, start.review));
    if asked || made == [] then approved.(dev := LastDraft(made, start.dev), revisionCount := |made|)
    else approved.(dev := Some(BranchNamed(start.ticketId, made[|made| - 1].dev, cfg)), revisionCount := |made| - 1)
  }

  lemma {:induction false} MadeGrows(script: Script, cap: int, count: nat, before: seq<Attempt>)
    ensures before <= Made(script, cap, count, before)
    decreases Budget(count, cap)
  {
    var pass := |before|;
    if script.drafts(pass).Ok? {
      var a := Attempt(script.drafts(pass).value, script.reviews(pass), count + 1);
      if !(a.review.verdict == Approve || count >= cap) {
        MadeGrows(script, cap, count + 1, before + [a]);
      }
    }
  }

  lemma {:induction false} MadeIsPasses(script: Script, cap: int, count: nat, before: seq<Attempt>)
    ensures Passes(script, cap, count, before).Ok?
            ==> Passes(script, cap, count, before).value == Made(script, cap, count, before)
    decreases Budget(count, cap)
  {
    var pass := |before|;
    if script.drafts(pass).Ok? {
      var a := Attempt(script.drafts(pass).value, script.reviews(pass), count + 1);
      if !(a.review.verdict == Approve || count >= cap) {
        MadeIsPasses(script, cap, count + 1, before + [a]);
      }
    }
  }

  /** The passes made from here on. */
  function MadeSince(s: Session, script: Script, cap: int, before: seq<Attempt>): seq<Attempt> {
    MadeGrows(script, cap, s.doc.revisionCount, before);
    Made(script, cap, s.doc.revisionCount, before)[|before|..]
  }

  lemma MadeThenRest(s: Session, script: Script, cap: int, before: seq<Attempt>, a: Attempt)
    requires Try(s.doc, script, |before|) == Ok(a) && !Over(s.doc, a.review, cap)
    ensures MadeSince(s, script, cap, before)
            == [a] + MadeSince(Judged(Bumped(Tried(s, a)), a), script, cap, before + [a])
  {
    var count := s.doc.revisionCount;
    MadeGrows(script, cap, count + 1, before + [a]);
    var made := Made(script, cap, count + 1, before + [a]);
    assert made == Made(script, cap, count, before);
    assert made[..|before| + 1][|before|] == a;
  }

  /** A loop that raises has logged the passes made. */
  lemma {:induction false} RaisedFacts(s: Session, script: Script, cap: int, before: seq<Attempt>)
    requires Revised(s, script, cap, before).Crashed?
    ensures Facts(Revised(s, script, cap, before).s.rows)
            == Facts(s.rows) + LoopStory(MadeSince(s, script, cap, before))
    decreases Budget(s.doc.revisionCount, cap)
  {
    match Try(s.doc, script, |before|)
    case Raised =>
      assert Facts(s.rows) + [] == Facts(s.rows);
    case Ok(a) =>
      var next := Judged(Bumped(Tried(s, a)), a);
      PassFacts(s, a);
      MadeThenRest(s, script, cap, before, a);
      RaisedFacts(next, script, cap, before + [a]);
      var rest := MadeSince(next, script, cap, before + [a]);
      LoopStoryCons(a, rest);
      Associative(Facts(s.rows), LoopStory([a]), LoopStory(rest));
  }

  /** It has asked the developer for each of them, and once more. */
  lemma {:induction false} RaisedCalls(s: Session, script: Script, cap: int, before: seq<Attempt>,
                                       previous: Option<Attempt>)
    requires Revised(s, script, cap, before).Crashed? && Carries(s.doc, previous)
    ensures var made := MadeSince(s, script, cap, before);
      Revised(s, script, cap, before).s.calls
      == s.calls + (LoopTalk(previous, made) + [AskDeveloper(AskedAfter(LastOf(made, previous)))])
    decreases Budget(s.doc.revisionCount, cap)
  {
    assert Developer.PromptFor(s.doc) == AskedAfter(previous);
    match Try(s.doc, script, |before|)
    case Raised =>
      assert [] + [AskDeveloper(AskedAfter(previous))] == [AskDeveloper(AskedAfter(previous))];
    case Ok(a) =>
      var next := Judged(Bumped(Tried(s, a)), a);
      MadeThenRest(s, script, cap, before, a);
      RaisedCalls(next, script, cap, before + [a], Some(a));
      var rest := MadeSince(next, script, cap, before + [a]);
      var asked := [AskDeveloper(AskedAfter(LastOf(rest, Some(a))))];
      LoopTalkCons(previous, a, rest);
      LastOfCons(a, rest, previous);
      Associative([AskDeveloper(AskedAfter(previous))], LoopTalk(Some(a), rest), asked);
      Associative(s.calls, [AskDeveloper(AskedAfter(previous))], LoopTalk(Some(a), rest) + asked);
  }

  lemma LastOfCons(a: Attempt, rest: seq<Attempt>, earlier: Option<Attempt>)
    ensures LastOf([a] + rest, earlier) == LastOf(rest, Some(a))
  {
  }

  /** It holds the last of them. */
  lemma {:induction false} RaisedHolds(s: Session, script: Script, cap: int, before: seq<Attempt>)
    requires Revised(s, script, cap, before).Crashed?
    ensures var made := MadeSince(s, script, cap, before);
      Revised(s, script, cap, before).s.doc
      == s.doc.(dev := LastDraft(made, s.doc.dev), review := LastReview(made, s.doc.review),
                revisionCount := s.doc.revisionCount + |made|)
    decreases Budget(s.doc.revisionCount, cap)
  {
    match Try(s.doc, script, |before|)
    case Raised =>
    case Ok(a) =>
      var next := Judged(Bumped(Tried(s, a)), a);
      MadeThenRest(s, script, cap, before, a);
      RaisedHolds(next, script, cap, before + [a]);
  }

  /** What the walk past gate1 has logged, said and kept when it raises. */
  lemma RaisedLeg(start: RunDoc, s: Session, script: Script, cfg: Config)
    requires start.revisionCount == 0
    requires s.doc == start.(plan := Some(script.plan), decisions := [Yes(Gate1)])
    requires WalkDevelop(s, script, cfg).Died?
    ensures var cap := cfg.maxRevisionLoops;
      var t, made := WalkDevelop(s, script, cfg).s, Made(script, cap, 0, []);
      var asked := Passes(script, cap, 0, []).Raised?;
      && Facts(t.rows) == Facts(s.rows) + LoopStory(made)
      && (Carries(s.doc, None) ==>
            t.calls == s.calls + (LoopTalk(None, made)
                                  + if asked then [AskDeveloper(AskedAfter(LastOf(made, None)))] else []))
      && t.doc == RaisedDoc(start, made, asked, script, cfg)
  {
    var cap := cfg.maxRevisionLoops;
    RevisedIsPasses(s, script, cap, []);
    MadeIsPasses(script, cap, 0, []);
    assert MadeSince(s, script, cap, []) == Made(script, cap, 0, []);
    if Revised(s, script, cap, []).Crashed? {
      RaisedFacts(s, script, cap, []);
      RaisedHolds(s, script, cap, []);
      if Carries(s.doc, None) {
        RaisedCalls(s, script, cap, [], None);
      }
    } else {
      UnopenedLeg(start, s, script, cfg);
    }
  }

  lemma UnopenedLeg(start: RunDoc, s: Session, script: Script, cfg: Config)
    requires start.revisionCount == 0
    requires s.doc == start.(plan := Some(script.plan), decisions := [Yes(Gate1)])
    requires Revised(s, script, cfg.maxRevisionLoops, []).Settled? && !script.opens
    ensures var loop := Revised(s, script, cfg.maxRevisionLoops, []);
      var t := WalkDevelop(s, script, cfg).s;
      && Facts(t.rows) == Facts(s.rows) + LoopStory(loop.attempts)
      && (Carries(s.doc, None) ==> t.calls == s.calls + (LoopTalk(None, loop.attempts) + []))
      && t.doc == RaisedDoc(start, loop.attempts, false, script, cfg)
  {
    var cap := cfg.maxRevisionLoops;
    var loop := Revised(s, script, cap, []);
    LoopFacts(s, script, cap, []);
    assert loop.attempts[0..] == loop.attempts;
    SettledDoc(s, script, cap);
    if Carries(s.doc, None) {
      LoopCalls(s, script, cap, [], None);
      assert LoopTalk(None, loop.attempts) + [] == LoopTalk(None, loop.attempts);
    }
  }

  /** A run that raises was let through gate1. */
  lemma RaisedPastGate1(start: RunDoc, script: Script, cfg: Config)
    requires start.status == Status.Running && start.decisions == [] && Ran(start, script, cfg).Died?
    ensures script.approves(Gate1)
    ensures var s := AfterGate1(start, script);
      && WalkDevelop(s, script, cfg).Died? && Ran(start, script, cfg).s == Reported(WalkDevelop(s, script, cfg).s)
      && s.doc == start.(plan := Some(script.plan), decisions := [Yes(Gate1)])
  {
    OpeningDoc(start, script);
  }

  /** The whole log of a run that raises, in both pipelines. */
  lemma {:induction false} StoryOfARaise(start: RunDoc, poisoned: bool, trigger: string, script: Script, cfg: Config)
    requires start.status == Status.Running && start.decisions == [] && start.revisionCount == 0
    requires Ran(start, script, cfg).Died?
    ensures var story := RaisedStory(Made(script, cfg.maxRevisionLoops, 0, []), script);
      && Facts(Ran(start, script, cfg).s.rows) == story
      && Facts(Chained(start.(poisoned := poisoned), trigger, script, cfg).s.rows) == story
  {
    RaisedPastGate1(start, script, cfg);
    OpeningFacts(start, script);
    RaisedLeg(start, AfterGate1(start, script), script, cfg);
    PipelinesAgree(start, poisoned, trigger, script, cfg);
  }

  lemma SameBeforeLast<T>(a: seq<T>, b: seq<T>, last: T)
    requires a + [last] == b + [last]
    ensures a == b
  {
    assert a == (a + [last])[..|a|] && b == (b + [last])[..|b|];
    assert |a + [last]| == |b + [last]|;
  }

  lemma WalkRaisedTalk(start: RunDoc, script: Script, cfg: Config)
    requires start.status == Status.Running && start.decisions == [] && start.revisionCount == 0
    requires start.dev.None? && start.review.None?
    requires Ran(start, script, cfg).Died?
    ensures var cap := cfg.maxRevisionLoops;
      Ran(start, script, cfg).s.calls
      == RaisedTalk(Made(script, cap, 0, []), Passes(script, cap, 0, []).Raised?, script)
         + [ReportOutcome(Status.Running)]
  {
    RaisedPastGate1(start, script, cfg);
    OpeningCalls(start, script);
    RaisedLeg(start, AfterGate1(start, script), script, cfg);
  }

  /** Every call made for a run that raises, in order: both pipelines make the same, and the
      single call then reports it as running. */
  lemma {:induction false} TalkOfARaise(start: RunDoc, poisoned: bool, trigger: string, script: Script, cfg: Config)
    requires start.status == Status.Running && start.decisions == [] && start.revisionCount == 0
    requires start.dev.None? && start.review.None?
    requires Ran(start, script, cfg).Died?
    ensures var cap := cfg.maxRevisionLoops;
      var talk := RaisedTalk(Made(script, cap, 0, []), Passes(script, cap, 0, []).Raised?, script);
      && Ran(start, script, cfg).s.calls == talk + [ReportOutcome(Status.Running)]
      && Chained(start.(poisoned := poisoned), trigger, script, cfg).s.calls == talk
  {
    WalkRaisedTalk(start, script, cfg);
    PipelinesAgree(start, poisoned, trigger, script, cfg);
    var cap := cfg.maxRevisionLoops;
    var talk := RaisedTalk(Made(script, cap, 0, []), Passes(script, cap, 0, []).Raised?, script);
    SameBeforeLast(Chained(start.(poisoned := poisoned), trigger, script, cfg).s.calls, talk,
                   ReportOutcome(Status.Running));
  }

  /** What is saved of a run that raises: the single call saves its last pass, the chain the run
      as gate1 left it. */
  lemma {:induction false} EndOfARaise(start: RunDoc, poisoned: bool, trigger: string, script: Script, cfg: Config)
    requires start.status == Status.Running && start.decisions == [] && start.revisionCount == 0
    requires Ran(start, script, cfg).Died?
    ensures var cap := cfg.maxRevisionLoops;
      Ran(start, script, cfg).s.doc
      == RaisedDoc(start, Made(script, cap, 0, []), Passes(script, cap, 0, []).Raised?, script, cfg)
    ensures Chained(start.(poisoned := poisoned), trigger, script, cfg).s.doc
            == start.(poisoned := poisoned, plan := Some(script.plan), decisions := [Yes(Gate1)])
  {
    RaisedPastGate1(start, script, cfg);
    RaisedLeg(start, AfterGate1(start, script), script, cfg);
    ChainStaysAtGate1(start, poisoned, trigger, script, cfg);
  }

  lemma ChainStaysAtGate1(start: RunDoc, poisoned: bool, trigger: string, script: Script, cfg: Config)
    requires start.status == Status.Running && start.decisions == [] && start.revisionCount == 0
    requires Ran(start, script, cfg).Died?
    ensures Chained(start.(poisoned := poisoned), trigger, script, cfg).s.doc
            == start.(poisoned := poisoned, plan := Some(script.plan), decisions := [Yes(Gate1)])
  {
    RaisedPastGate1(start, script, cfg);
    var b := PlanJob(start.(poisoned := poisoned), trigger, script.plan);
    StartedRuns(start, trigger, script, poisoned);
    AgreeGate(Started(Session(start, [], []), script.plan), b, Gate1, script);
    var s := AfterGate1(start, script);
    assert Yes(Gate1) in s.doc.decisions && Approves(Yes(Gate1), Gate1);
    EndingFromDevelop(s, GateJob(b, Gate1), script, cfg);
  }
}
