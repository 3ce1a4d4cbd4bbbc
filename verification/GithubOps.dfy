/** agentorg/github_ops.py: what is decided about the code host, not the host itself. */
module GithubOps {
  import opened Prelude
  import opened State
  import opened Settings

  // ----- where a comment goes ---------------------------------------------

  datatype Surface = OnIssue | OnPullRequest

  function Destination(doc: RunDoc): Surface {
    if doc.dev.Some? && doc.dev.value.branch != "" then OnPullRequest else OnIssue
  }

  // ----- opening the pull request -----------------------------------------

  function BranchFor(ticketId: string, diff: string, cfg: Config): string {
    "agent-org/" + ticketId + "-" + cfg.shortSha(diff)
  }

  /** `hostUrl` is the address the host gives the pull request. */
  function PrOpened(ticketId: string, dev: DevDoc, hostUrl: string, cfg: Config): DevDoc {
    var branch := BranchFor(ticketId, dev.diff, cfg);
    dev.(branch := branch, prUrl := Some(if cfg.offline then "local://" + branch else hostUrl))
  }

  /** The change as proposed: its own branch, an address that is the host's or, offline, the
      branch's, and everything the developer said. */
  lemma OpenedSays(ticketId: string, dev: DevDoc, hostUrl: string, cfg: Config)
    ensures var shown := PrOpened(ticketId, dev, hostUrl, cfg);
      && shown.branch == "agent-org/" + ticketId + "-" + cfg.shortSha(dev.diff)
      && shown.prUrl == Some(if cfg.offline then "local://" + shown.branch else hostUrl)
      && shown.diff == dev.diff && shown.summary == dev.summary && shown.filesChanged == dev.filesChanged
      && BranchNamed(ticketId, dev, cfg) == shown.(prUrl := dev.prUrl)
  {
  }

  /** What is left of a result when opening raises: its branch is named before anything is
      asked of git or the host. */
  function BranchNamed(ticketId: string, dev: DevDoc, cfg: Config): DevDoc {
    dev.(branch := BranchFor(ticketId, dev.diff, cfg))
  }

  /** The developer's own result, updated in place: its diff, summary and files stay. Nothing
      comes back when git or the host raises. */
  method OpenPr(state: RunState, opens: bool, hostUrl: string, cfg: Config) returns (dev: DevResult?)
    modifies if state.dev == null then {} else {state.dev}`branch, if state.dev == null then {} else {state.dev}`prUrl
    ensures dev == null <==> !opens
    ensures opens && old(state.dev) == null ==>
              fresh(dev) && dev.Doc() == PrOpened(state.ticketId, cfg.fixtures.cleanDev, hostUrl, cfg)
    ensures opens && old(state.dev) != null ==>
              dev == state.dev && dev.Doc() == PrOpened(state.ticketId, old(state.dev.Doc()), hostUrl, cfg)
    ensures !opens && old(state.dev) != null ==>
              state.dev.Doc() == BranchNamed(state.ticketId, old(state.dev.Doc()), cfg)
  {
    if state.dev == null {
      dev := new DevResult(cfg.fixtures.cleanDev);
    } else {
      dev := state.dev;
    }
    var branch := BranchFor(state.ticketId, dev.diff, cfg);
    dev.branch := branch;
    if !opens {
      return null;
    }
    dev.prUrl := Some(if cfg.offline then "local://" + branch else hostUrl);
  }

  // ----- merging ----------------------------------------------------------

  datatype MergeReason =
    | SecurityVerdictIs(security: Option<SecurityVerdict>)
    | SreVerdictIs(sre: Option<SreVerdict>)
    | GateRejected(rejected: GateName)
    | GateNotApproved(missing: GateName)

  /** What the host did with a merge it was asked for. */
  datatype HostMerge = NoOpenPull | NotMergeable | HostDeclined | Landed(url: string) | HostRaised(kind: string)

  datatype MergeRef =
    | MergeLanded(url: string)
    | MergeLocal(branch: string)
    | MergeRefused(reason: MergeReason)
    | MergeFailed(kind: string)
  {
    /** The reference as the log row carries it; a refusal's reason is left out. */
    function Text(): string {
      match this
      case MergeLanded(url) => url
      case MergeLocal(branch) => "local://" + branch
      case MergeRefused(_) => "merge://refused/"
      case MergeFailed(kind) => "merge://failed/" + kind
    }
  }

  predicate Approves(d: HumanDecision, gate: GateName) {
    d.gate == gate && d.decision != Decision.Rejected
  }

  predicate Rejects(d: HumanDecision, gate: GateName) {
    d.gate == gate && d.decision == Decision.Rejected
  }

  predicate GateApproved(decisions: seq<HumanDecision>, gate: GateName) {
    exists d | d in decisions :: Approves(d, gate)
  }

  predicate GateRejectedIn(decisions: seq<HumanDecision>, gate: GateName) {
    exists d | d in decisions :: Rejects(d, gate)
  }

  /** The first of the three gates, in name order, with the given property. */
  function FirstGate(p: GateName -> bool): Option<GateName> {
    if p(Gate1) then Some(Gate1) else if p(Gate2) then Some(Gate2) else if p(Gate3) then Some(Gate3) else None
  }

  function FirstRejected(decisions: seq<HumanDecision>): Option<GateName> {
    FirstGate(g => GateRejectedIn(decisions, g))
  }

  function FirstUnapproved(decisions: seq<HumanDecision>): Option<GateName> {
    FirstGate(g => !GateApproved(decisions, g))
  }

  function MergeRefusal(doc: RunDoc): Option<MergeReason> {
    if doc.security.None? || doc.security.value.verdict != Pass then
      Some(SecurityVerdictIs(if doc.security.None? then None else Some(doc.security.value.verdict)))
    else if doc.sre.None? || doc.sre.value.verdict != Go then
      Some(SreVerdictIs(if doc.sre.None? then None else Some(doc.sre.value.verdict)))
    else if FirstRejected(doc.decisions).Some? then
      Some(GateRejected(FirstRejected(doc.decisions).value))
    else if FirstUnapproved(doc.decisions).Some? then
      Some(GateNotApproved(FirstUnapproved(doc.decisions).value))
    else None
  }

  /** The policy is asked before the host is, offline too. */
  function MergePr(doc: RunDoc, host: HostMerge, cfg: Config): MergeRef {
    var branch := if doc.dev.Some? then doc.dev.value.branch else "";
    if MergeRefusal(doc).Some? then MergeRefused(MergeRefusal(doc).value)
    else if cfg.offline then MergeLocal(branch)
    else if branch == "" then MergeFailed("no-branch-to-look-up")
    else
      match host
      case NoOpenPull => MergeFailed("no-open-pull-request")
      case NotMergeable => MergeFailed("not-mergeable")
      case HostDeclined => MergeFailed("github-declined")
      case Landed(url) => MergeLanded(url)
      case HostRaised(kind) => MergeFailed(kind)
  }

  /** Somebody decided at this gate and did not reject. */
  ghost predicate LetThrough(decisions: seq<HumanDecision>, gate: GateName) {
    exists d | d in decisions :: d.gate == gate && d.decision != Decision.Rejected
  }

  lemma ApprovedExactly(decisions: seq<HumanDecision>, gate: GateName)
    ensures GateApproved(decisions, gate) <==> LetThrough(decisions, gate)
    ensures GateRejectedIn(decisions, gate)
            <==> exists d | d in decisions :: d.gate == gate && d.decision == Decision.Rejected
  {
    if d :| d in decisions && d.gate == gate && d.decision != Decision.Rejected {
      assert Approves(d, gate);
    }
    if d :| d in decisions && d.gate == gate && d.decision == Decision.Rejected {
      assert Rejects(d, gate);
    }
  }

  /** Everything a promotion claims: scanned and passed, a go from the SRE agent, three gates let
      through and none refused. */
  ghost predicate Cleared(doc: RunDoc) {
    && doc.security.Some? && doc.security.value.verdict == Pass
    && doc.sre.Some? && doc.sre.value.verdict == Go
    && (forall d | d in doc.decisions :: d.decision != Decision.Rejected)
    && (forall gate: GateName :: LetThrough(doc.decisions, gate))
  }

  /** The merge policy refuses exactly the runs that are not cleared. */
  lemma RefusalExactly(doc: RunDoc)
    ensures MergeRefusal(doc).None? <==> Cleared(doc)
  {
    forall gate ensures GateApproved(doc.decisions, gate) <==> LetThrough(doc.decisions, gate) {
      ApprovedExactly(doc.decisions, gate);
    }
    if MergeRefusal(doc).None? {
      forall d | d in doc.decisions ensures d.decision != Decision.Rejected {
        assert !Rejects(d, d.gate);
        assert FirstRejected(doc.decisions).None?;
        assert !GateRejectedIn(doc.decisions, Gate1) && !GateRejectedIn(doc.decisions, Gate2)
               && !GateRejectedIn(doc.decisions, Gate3);
      }
      assert GateApproved(doc.decisions, Gate1) && GateApproved(doc.decisions, Gate2)
             && GateApproved(doc.decisions, Gate3);
    }
  }

  /** The first of the three gates that meets `p`, and none before it. */
  ghost predicate IsFirst(gate: GateName, p: GateName -> bool) {
    p(gate) && (gate != Gate1 ==> !p(Gate1)) && (gate == Gate3 ==> !p(Gate2))
  }

  /** Why a merge is refused: the scanners' word first, then the SRE agent's, then the first gate
      refused, then the first nobody let through. */
  lemma RefusalReason(doc: RunDoc)
    ensures match MergeRefusal(doc)
      case None => Cleared(doc)
      case Some(SecurityVerdictIs(said)) =>
        said != Some(Pass) && (doc.security.Some? ==> said == Some(doc.security.value.verdict))
        && (doc.security.None? ==> said == None)
      case Some(SreVerdictIs(said)) =>
        && said != Some(Go)
        && (doc.sre.Some? ==> said == Some(doc.sre.value.verdict)) && (doc.sre.None? ==> said == None)
        && doc.security.Some? && doc.security.value.verdict == Pass
      case Some(GateRejected(gate)) =>
        IsFirst(gate, (g: GateName) => exists d | d in doc.decisions :: d.gate == g && d.decision == Decision.Rejected)
      case Some(GateNotApproved(gate)) =>
        && (forall d | d in doc.decisions :: d.decision != Decision.Rejected)
        && IsFirst(gate,
                   (g: GateName) => forall d | d in doc.decisions && d.gate == g :: d.decision == Decision.Rejected)
  {
    RefusalExactly(doc);
    if MergeRefusal(doc).Some? && MergeRefusal(doc).value.GateNotApproved? {
      assert FirstRejected(doc.decisions).None?;
      assert !GateRejectedIn(doc.decisions, Gate1) && !GateRejectedIn(doc.decisions, Gate2)
             && !GateRejectedIn(doc.decisions, Gate3);
      forall d | d in doc.decisions ensures d.decision != Decision.Rejected {
        assert !Rejects(d, d.gate);
      }
    }
  }

  /** What is logged of a cleared run's merge: offline the branch; online what the host did. */
  lemma ClearedMergeText(doc: RunDoc, host: HostMerge, cfg: Config)
    requires Cleared(doc)
    ensures var text := MergePr(doc, host, cfg).Text();
      var branch := if doc.dev.Some? then doc.dev.value.branch else "";
      if cfg.offline then text == "local://" + branch
      else if branch == "" then text == "merge://failed/" + "no-branch-to-look-up"
      else
        match host
        case Landed(url) => text == url
        case NoOpenPull => text == "merge://failed/" + "no-open-pull-request"
        case NotMergeable => text == "merge://failed/" + "not-mergeable"
        case HostDeclined => text == "merge://failed/" + "github-declined"
        case HostRaised(kind) => text == "merge://failed/" + kind
  {
    RefusalExactly(doc);
  }

  /** A refused one is logged as refused, online or offline, whatever the host says. */
  lemma RefusedMergeText(doc: RunDoc, host: HostMerge, cfg: Config)
    requires !Cleared(doc)
    ensures MergePr(doc, host, cfg).Text() == "merge://refused/"
  {
    RefusalExactly(doc);
  }

  /** A refused merge is always the policy's, never the host's, online or offline. */
  lemma MergeRefusedExactly(doc: RunDoc, host: HostMerge, cfg: Config)
    ensures MergePr(doc, host, cfg).MergeRefused? <==> !Cleared(doc)
  {
    RefusalExactly(doc);
  }

  /** A change lands exactly when the policy clears it, there is a host and a branch to ask it
      about, and the host agrees. */
  lemma MergeLandsExactly(doc: RunDoc, host: HostMerge, cfg: Config)
    ensures MergePr(doc, host, cfg).MergeLanded?
            <==> Cleared(doc) && !cfg.offline && doc.dev.Some? && doc.dev.value.branch != "" && host.Landed?
  {
    RefusalExactly(doc);
  }
}
