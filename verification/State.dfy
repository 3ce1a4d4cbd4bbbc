/** agentorg/state.py: the shapes every stage reads and writes.

    The records the pipeline updates in place (`RunState`, `DevResult`, `ReviewResult`)
    are classes; `RunDoc`, `DevDoc` and `ReviewDoc` are what saving one of them writes
    down. The records that are built once and only read are datatypes. */
module State {
  import opened Prelude

  datatype Severity = Low | Medium | High | Critical {
    function Order(): nat {
      match this
      case Low => 0
      case Medium => 1
      case High => 2
      case Critical => 3
    }
  }

  datatype GateName = Gate1 | Gate2 | Gate3
  datatype Actor = Planner | Developer | Reviewer | Security | Sre | Human | System
  datatype Stage = Plan | AtGate(gate: GateName) | Develop | Review | Security | Sre | Promote
  datatype Status = Running | Blocked | Rejected | Promoted | Failed
  datatype Decision = Approved | Rejected | Overridden
  datatype Action =
    | Opened | Proposed | Reviewed | Blocked | Passed | Approved | Rejected | Overridden | Merged | Promoted | Failed
  datatype ReviewVerdict = Approve | ChangesRequested
  datatype SecurityVerdict = Pass | Block
  datatype SreVerdict = Go | NoGo
  datatype CiStatus = Passing | Failing | Unknown
  datatype Provenance = Unrecorded | Scanners | FixtureFallback | FixtureStub
  datatype Tool = Semgrep | Gitleaks | Trivy

  datatype PlanResult = PlanResult(tasks: seq<string>, acceptanceCriteria: seq<string>, targetFiles: seq<string>,
                                   notes: string)
  datatype DevDoc = DevDoc(branch: string, diff: string, summary: string, filesChanged: seq<string>,
                           prUrl: Option<string>)
  datatype ReviewComment = ReviewComment(file: string, line: int, note: string)
  datatype ReviewDoc = ReviewDoc(verdict: ReviewVerdict, comments: seq<ReviewComment>, mustFix: seq<string>)
  datatype Finding = Finding(tool: Tool, severity: Severity, rule: string, file: string, line: int,
                             description: string)
  datatype SecurityResult = SecurityResult(verdict: SecurityVerdict, findings: seq<Finding>, blocking: seq<Finding>,
                                           explanation: string, provenance: Provenance)
  datatype SloCheck = SloCheck(name: string, passed: bool, detail: string)
  datatype SreResult = SreResult(verdict: SreVerdict, ciStatus: CiStatus, sloChecks: seq<SloCheck>, costNote: string,
                                 notes: string)
  datatype GeneratedTests = GeneratedTests(files: seq<string>, passed: nat, failed: nat, binding: bool)
  datatype HumanDecision = HumanDecision(gate: GateName, decision: Decision)

  datatype RunDoc = RunDoc(
    runId: string, ticketId: string, ticketText: string,
    plan: Option<PlanResult>, dev: Option<DevDoc>, review: Option<ReviewDoc>, security: Option<SecurityResult>,
    sre: Option<SreResult>, tests: Option<GeneratedTests>,
    decisions: seq<HumanDecision>, revisionCount: nat, status: Status, poisoned: bool, ciMeasured: Option<CiStatus>)

  predicate Terminal(status: Status) {
    status != Status.Running
  }

  // ----- the log ----------------------------------------------------------

  /** The word in a row's `verdict` column, kept with the vocabulary it comes from. */
  datatype Word =
    | NoWord
    | OfReview(review: ReviewVerdict)
    | OfSecurity(security: SecurityVerdict)
    | OfSre(sre: SreVerdict)
    | OfDecision(decision: Decision)
    | OfStatus(status: Status)

  /** One log row without its id and time. */
  datatype Row = Row(actor: Actor, stage: Stage, action: Action, verdict: Word, summary: string, artifactRef: string,
                     provenance: Provenance)

  // ----- the block rule ---------------------------------------------------

  function Blocking(findings: seq<Finding>, threshold: Severity): seq<Finding> {
    if findings == [] then []
    else
      var rest := Blocking(findings[1..], threshold);
      if findings[0].severity.Order() >= threshold.Order() then [findings[0]] + rest else rest
  }

  function ComputeSecurityVerdict(findings: seq<Finding>, threshold: Severity): (SecurityVerdict, seq<Finding>) {
    var blocking := Blocking(findings, threshold);
    (if blocking != [] then Block else Pass, blocking)
  }

  /** Which severities a threshold stops: low stops all four, critical only its own. */
  predicate AtOrAbove(severity: Severity, threshold: Severity) {
    match threshold
    case Low => true
    case Medium => severity != Low
    case High => severity == High || severity == Critical
    case Critical => severity == Critical
  }

  lemma OrderIsTheScale(severity: Severity, threshold: Severity)
    ensures severity.Order() >= threshold.Order() <==> AtOrAbove(severity, threshold)
  {
  }

  /** The blocking list holds every finding at or above the threshold as often as the
      findings do, and nothing else. */
  lemma {:induction false} BlockingCounts(findings: seq<Finding>, threshold: Severity, f: Finding)
    ensures multiset(Blocking(findings, threshold))[f]
            == if AtOrAbove(f.severity, threshold) then multiset(findings)[f] else 0
  {
    if findings != [] {
      OrderIsTheScale(findings[0].severity, threshold);
      BlockingCounts(findings[1..], threshold, f);
      assert findings == [findings[0]] + findings[1..];
    }
  }

  /** And in the order they were reported in. */
  lemma {:induction false} BlockingKeepsOrder(a: seq<Finding>, b: seq<Finding>, threshold: Severity)
    ensures Blocking(a + b, threshold) == Blocking(a, threshold) + Blocking(b, threshold)
  {
    if a == [] {
      assert a + b == b;
    } else {
      assert (a + b)[1..] == a[1..] + b;
      BlockingKeepsOrder(a[1..], b, threshold);
    }
  }

  lemma BlocksIff(findings: seq<Finding>, threshold: Severity)
    ensures ComputeSecurityVerdict(findings, threshold).0 == Block
            <==> exists f | f in findings :: AtOrAbove(f.severity, threshold)
  {
    var blocking := Blocking(findings, threshold);
    if blocking != [] {
      BlockingCounts(findings, threshold, blocking[0]);
      assert multiset(blocking)[blocking[0]] > 0 by { assert blocking[0] in multiset(blocking); }
      assert blocking[0] in multiset(findings);
    }
    if f :| f in findings && AtOrAbove(f.severity, threshold) {
      BlockingCounts(findings, threshold, f);
      assert f in multiset(findings);
      assert f in multiset(blocking);
    }
  }

  /** More findings, or a lower threshold, never unblock a change. */
  lemma BlockIsMonotone(fewer: seq<Finding>, more: seq<Finding>, threshold: Severity, lower: Severity)
    requires forall f | f in fewer :: f in more
    requires AtOrAbove(threshold, lower)
    requires ComputeSecurityVerdict(fewer, threshold).0 == Block
    ensures ComputeSecurityVerdict(more, lower).0 == Block
  {
    BlocksIff(fewer, threshold);
    BlocksIff(more, lower);
  }

  // ----- the objects ------------------------------------------------------

  class DevResult {
    var branch: string
    var diff: string
    var summary: string
    var filesChanged: seq<string>
    var prUrl: Option<string>

    function Doc(): DevDoc
      reads this
    {
      DevDoc(branch, diff, summary, filesChanged, prUrl)
    }

    constructor (doc: DevDoc)
      ensures Doc() == doc
    {
      branch, diff, summary, filesChanged, prUrl := doc.branch, doc.diff, doc.summary, doc.filesChanged, doc.prUrl;
    }
  }

  class ReviewResult {
    var verdict: ReviewVerdict
    var comments: seq<ReviewComment>
    var mustFix: seq<string>

    function Doc(): ReviewDoc
      reads this
    {
      ReviewDoc(verdict, comments, mustFix)
    }

    constructor (doc: ReviewDoc)
      ensures Doc() == doc
    {
      verdict, comments, mustFix := doc.verdict, doc.comments, doc.mustFix;
    }
  }

  class RunState {
    const runId: string
    const ticketId: string
    const ticketText: string
    var plan: Option<PlanResult>
    var dev: DevResult?
    var review: ReviewResult?
    var security: Option<SecurityResult>
    var sre: Option<SreResult>
    var tests: Option<GeneratedTests>
    var decisions: seq<HumanDecision>
    var revisionCount: nat
    var status: Status
    var poisoned: bool
    var ciMeasured: Option<CiStatus>

    /** The document `model_dump` writes. */
    function Doc(): RunDoc
      reads this, dev, review
    {
      RunDoc(runId, ticketId, ticketText, plan, if dev == null then None else Some(dev.Doc()),
             if review == null then None else Some(review.Doc()), security, sre, tests, decisions, revisionCount,
             status, poisoned, ciMeasured)
    }

    /** The object `model_validate_json` builds: nothing it holds is shared with another run. */
    constructor (doc: RunDoc)
      ensures Doc() == doc
      ensures runId == doc.runId
      ensures dev != null ==> fresh(dev)
      ensures review != null ==> fresh(review)
    {
      runId, ticketId, ticketText := doc.runId, doc.ticketId, doc.ticketText;
      plan, security, sre, tests := doc.plan, doc.security, doc.sre, doc.tests;
      decisions, revisionCount, status := doc.decisions, doc.revisionCount, doc.status;
      poisoned, ciMeasured := doc.poisoned, doc.ciMeasured;
      dev, review := null, null;
      new;
      if doc.dev.Some? {
        dev := new DevResult(doc.dev.value);
      }
      if doc.review.Some? {
        review := new ReviewResult(doc.review.value);
      }
    }
  }
}
