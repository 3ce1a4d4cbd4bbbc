/** agentorg/agents/security.py: the verdict is code; a scanner that raises is answered
    by a fixture chosen from the diff. */
module SecurityAgent {
  import opened Prelude
  import opened State
  import opened Settings
  import Developer
  import Diff

  /** The scanners either report, or raise for whatever reason. */
  datatype Scan = Found(findings: seq<Finding>) | ScannersRaised

  /** Does the change add a key? A diff nobody can read counts as poisoned. */
  ghost predicate LooksPoisoned(dev: Option<DevDoc>) {
    match dev
    case None => false
    case Some(d) =>
      match Diff.Parsed(d.diff)
      case Raised => true
      case Ok(files) => Developer.AnyKey(files)
  }

  function WithProvenance(result: SecurityResult, provenance: Provenance): SecurityResult {
    result.(provenance := provenance)
  }

  ghost function Secured(dev: Option<DevDoc>, useRealScanners: bool, scan: Scan, explanation: string, cfg: Config)
    : SecurityResult
  {
    var fixture := cfg.fixtures.Security(LooksPoisoned(dev));
    if !useRealScanners then WithProvenance(fixture, FixtureStub)
    else
      match scan
      case ScannersRaised => WithProvenance(fixture, FixtureFallback)
      case Found(findings) =>
        var (verdict, blocking) := ComputeSecurityVerdict(findings, cfg.blockThreshold);
        WithProvenance(SecurityResult(verdict, findings, blocking, explanation, Unrecorded), Scanners)
  }

  // ----- what the agent promises ------------------------------------------

  /** A key stands in some file the change proposes, or nobody can read what it proposes. */
  ghost predicate KeyOrUnreadable(dev: Option<DevDoc>) {
    && dev.Some?
    && var files := Diff.Parsed(dev.value.diff);
       files.Ok? ==> exists path | path in files.value.at :: Developer.HasKey(files.value.at[path])
  }

  /** The verdict on what scanners report: block for a finding at or above the threshold; the
      report whole, and beside it exactly those findings, as often as they were reported. */
  ghost predicate JudgesReport(result: SecurityResult, findings: seq<Finding>, threshold: Severity) {
    && (result.verdict == Block <==> exists f | f in findings :: AtOrAbove(f.severity, threshold))
    && result.findings == findings
    && forall f ::
         multiset(result.blocking)[f] == if AtOrAbove(f.severity, threshold) then multiset(findings)[f] else 0
  }

  /** Scanners that answer decide, and are named. When they raise or are switched off, the block
      fixture answers for a change with a key in it or that cannot be read, the pass fixture for
      any other, and the provenance tells a fault from a choice. */
  ghost predicate Judges(result: SecurityResult, dev: Option<DevDoc>, useRealScanners: bool, scan: Scan,
                         explanation: string, cfg: Config)
  {
    if useRealScanners && scan.Found?
    then
      && JudgesReport(result, scan.findings, cfg.blockThreshold)
      && result.explanation == explanation && result.provenance == Scanners
    else
      && (KeyOrUnreadable(dev) ==> result == cfg.fixtures.blockSecurity.(provenance := result.provenance))
      && (!KeyOrUnreadable(dev) ==> result == cfg.fixtures.passSecurity.(provenance := result.provenance))
      && (useRealScanners ==> result.provenance == FixtureFallback)
      && (!useRealScanners ==> result.provenance == FixtureStub)
  }

  lemma SecuredJudges(dev: Option<DevDoc>, useRealScanners: bool, scan: Scan, explanation: string, cfg: Config)
    ensures Judges(Secured(dev, useRealScanners, scan, explanation, cfg), dev, useRealScanners, scan, explanation, cfg)
  {
    if useRealScanners && scan.Found? {
      BlocksIff(scan.findings, cfg.blockThreshold);
      forall f: Finding
        ensures multiset(Blocking(scan.findings, cfg.blockThreshold))[f]
                == if AtOrAbove(f.severity, cfg.blockThreshold) then multiset(scan.findings)[f] else 0
      {
        BlockingCounts(scan.findings, cfg.blockThreshold, f);
      }
    }
  }

  method SeemsPoisoned(dev: DevResult?) returns (poisoned: bool)
    ensures poisoned == LooksPoisoned(if dev == null then None else Some(dev.Doc()))
  {
    if dev == null {
      return false;
    }
    var present := Developer.KeyIsInTheChange(dev.diff);
    return present.Raised? || present.value;
  }

  method Run(state: RunState, useRealScanners: bool, scan: Scan, explanation: string, cfg: Config)
    returns (result: SecurityResult)
    ensures Judges(result, state.Doc().dev, useRealScanners, scan, explanation, cfg)
    ensures result == Secured(state.Doc().dev, useRealScanners, scan, explanation, cfg)
  {
    SecuredJudges(state.Doc().dev, useRealScanners, scan, explanation, cfg);
    if useRealScanners && scan.Found? {
      var (verdict, blocking) := ComputeSecurityVerdict(scan.findings, cfg.blockThreshold);
      return WithProvenance(SecurityResult(verdict, scan.findings, blocking, explanation, Unrecorded), Scanners);
    }
    var poisoned := SeemsPoisoned(state.dev);
    return WithProvenance(cfg.fixtures.Security(poisoned), if useRealScanners then FixtureFallback else FixtureStub);
  }

  /** The safety net and the fallback ask one question: the fallback sees poison exactly
      where the net found a key or could not read the diff. */
  lemma SameQuestion(dev: DevDoc)
    ensures LooksPoisoned(Some(dev)) <==> Developer.KeyProposed(dev.diff) != Ok(false)
  {
  }

  /** The explanation reaches nothing but itself, and the provenance says which path decided. */
  lemma ExplanationDoesNotDecide(dev: Option<DevDoc>, useRealScanners: bool, scan: Scan, said: string, other: string,
                                 cfg: Config)
    ensures var x, y := Secured(dev, useRealScanners, scan, said, cfg), Secured(dev, useRealScanners, scan, other, cfg);
      && x.(explanation := "") == y.(explanation := "")
      && x.verdict == y.verdict
      && (x.provenance == Scanners <==> useRealScanners && scan.Found?)
  {
  }
}
