/** The two pipelines are one: the seven jobs, saving and loading between them, end where
    the single call ends. */
module Equivalence {
  import opened Prelude
  import opened State
  import opened Settings
  import opened GithubOps
  import opened Sessions
  import opened Gates
  import opened Graph
  import opened RunStage

  // ----- what the loop and the queue leave alone --------------------------

  /** The revision loop touches the change, the review and the counter, nothing else. */
  lemma {:induction false} RevisedKeeps(s: Session, script: Script, cap: int, before: seq<Attempt>)
    ensures var d := Revised(s, script, cap, before).s.doc;
      d == s.doc.(dev := d.dev, review := d.review, revisionCount := d.revisionCount)
    decreases Budget(s.doc.revisionCount, cap)
  {
    match Try(s.doc, script, |before|)
    case Raised =>
    case Ok(a) =>
      if !Over(s.doc, a.review, cap) {
        RevisedKeeps(Judged(Bumped(Tried(s, a)), a), script, cap, before + [a]);
      }
  }

  lemma PublishedKeeps(s: Session, attempts: seq<Attempt>, script: Script, cfg: Config)
    ensures var d := Published(s, attempts, script, cfg).doc;
      && d == s.doc.(dev := d.dev, tests := d.tests, security := d.security)
      && d.dev.Some? && d.security == Some(script.security(d.dev))
      && d.dev.value == PrOpened(s.doc.ticketId, s.doc.dev.GetOr(cfg.fixtures.cleanDev), script.prUrl, cfg)
  {
    FlushKeepsDoc(PrOpenedBy(s, script, cfg), attempts);
  }

  // ----- agreement --------------------------------------------------------

  /** A row without its wording. */
  datatype Fact = Fact(actor: Actor, stage: Stage, action: Action, verdict: Word, provenance: Provenance,
                       reference: string)

  function FactOf(row: Row): Fact {
    Fact(row.actor, row.stage, row.action, row.verdict, row.provenance, row.artifactRef)
  }

  function Facts(rows: seq<Row>): seq<Fact> {
    seq(|rows|, i requires 0 <= i < |rows| => FactOf(rows[i]))
  }

  lemma FactsAppend(rows: seq<Row>, row: Row)
    ensures Facts(rows + [row]) == Facts(rows) + [FactOf(row)]
  {
  }

  /** Same document but for the carried poison switch, same facts logged, same calls made. */
  ghost predicate Agree(a: Session, b: Session) {
    && a.doc == b.doc.(poisoned := a.doc.poisoned)
    && Facts(a.rows) == Facts(b.rows)
    && a.calls == b.calls
  }

  lemma AgreeLog(a: Session, b: Session, x: Row, y: Row)
    requires Agree(a, b) && FactOf(x) == FactOf(y)
    ensures Agree(a.Log(x), b.Log(y))
  {
    FactsAppend(a.rows, x);
    FactsAppend(b.rows, y);
  }

  ghost predicate AgreeLoop(a: Loop, b: Loop) {
    && Agree(a.s, b.s)
    && a.Crashed? == b.Crashed?
    && (a.Settled? ==> a.attempts == b.attempts)
  }

  lemma AgreeTried(a: Session, b: Session, x: Attempt)
    requires Agree(a, b)
    ensures Agree(AskedDeveloper(a), AskedDeveloper(b)) && Agree(Tried(a, x), Tried(b, x))
  {
    var a1, b1 := AskedDeveloper(a), AskedDeveloper(b);
    AgreeLog(a1.With(a1.doc.(dev := Some(x.dev))), b1.With(b1.doc.(dev := Some(x.dev))), DRAFTED_ROW, DRAFTED_ROW);
  }

  lemma AgreeJudged(a: Session, b: Session, x: Attempt)
    requires Agree(a, b)
    ensures Agree(Judged(a, x), Judged(b, x)) && Agree(Judged(Bumped(a), x), Judged(Bumped(b), x))
  {
    var row := ReviewRow(x.review.verdict);
    AgreeLog(a, b, row, row);
    AgreeLog(Bumped(a), Bumped(b), row, row);
  }

  lemma {:induction false} AgreeRevised(a: Session, b: Session, script: Script, cap: int, before: seq<Attempt>)
    requires Agree(a, b)
    ensures AgreeLoop(Revised(a, script, cap, before), Revised(b, script, cap, before))
    decreases Budget(a.doc.revisionCount, cap)
  {
    match Try(a.doc, script, |before|)
    case Raised =>
    case Ok(x) =>
      AgreeTried(a, b, x);
      AgreeJudged(Tried(a, x), Tried(b, x), x);
      if !Over(a.doc, x.review, cap) {
        AgreeRevised(Judged(Bumped(Tried(a, x)), x), Judged(Bumped(Tried(b, x)), x), script, cap, before + [x]);
      }
  }

  lemma AgreeProposed(a: Session, b: Session, script: Script, cfg: Config)
    requires Agree(a, b)
    ensures AgreeLoop(ProposedBy(a, script, cfg), ProposedBy(b, script, cfg))
  {
    AgreeRevised(a, b, script, cfg.maxRevisionLoops, []);
  }

  lemma {:induction false} AgreeFlushed(a: Session, b: Session, attempts: seq<Attempt>)
    requires Agree(a, b)
    ensures Agree(Flushed(a, attempts), Flushed(b, attempts))
  {
    if attempts != [] {
      AgreeFlushed(a, b, attempts[..|attempts| - 1]);
    }
  }

  lemma AgreePublished(a: Session, b: Session, attempts: seq<Attempt>, script: Script, cfg: Config)
    requires Agree(a, b)
    ensures Agree(Published(a, attempts, script, cfg), Published(b, attempts, script, cfg))
  {
    var dev := PrOpened(a.doc.ticketId, a.doc.dev.GetOr(cfg.fixtures.cleanDev), script.prUrl, cfg);
    var row := PrRow(dev);
    AgreeLog(a.With(a.doc.(dev := Some(dev))).Do(OpenPullRequest(dev.branch)),
             b.With(b.doc.(dev := Some(dev))).Do(OpenPullRequest(dev.branch)), row, row);
    AgreeFlushed(PrOpenedBy(a, script, cfg), PrOpenedBy(b, script, cfg), attempts);
    var a1, b1 := Flushed(PrOpenedBy(a, script, cfg), attempts), Flushed(PrOpenedBy(b, script, cfg), attempts);
    AgreeLog(a1.With(a1.doc.(tests := Some(script.tests))), b1.With(b1.doc.(tests := Some(script.tests))),
             TESTS_ROW, TESTS_ROW);
    var a2, b2 := TestsGenerated(a1, script.tests), TestsGenerated(b1, script.tests);
    var r := script.security(a2.doc.dev);
    AgreeLog(a2.With(a2.doc.(security := Some(r))), b2.With(b2.doc.(security := Some(r))), SecurityRow(r),
             SecurityRow(r));
  }

  lemma AgreeSre(a: Session, b: Session, script: Script)
    requires Agree(a, b)
    ensures Agree(SreAsked(a, script), SreAsked(b, script))
  {
    var r := script.sre(script.ci);
    var a1, b1 := a.Do(MeasureCi), b.Do(MeasureCi);
    AgreeLog(a1.With(a1.doc.(ciMeasured := Some(script.ci), sre := Some(r))),
             b1.With(b1.doc.(ciMeasured := Some(script.ci), sre := Some(r))), SreRow(r), SreRow(r));
    var a2, b2 := a1.With(a1.doc.(ciMeasured := Some(script.ci))), b1.With(b1.doc.(ciMeasured := Some(script.ci)));
    assert a2.With(a2.doc.(sre := Some(r))) == a1.With(a1.doc.(ciMeasured := Some(script.ci), sre := Some(r)));
    assert b2.With(b2.doc.(sre := Some(r))) == b1.With(b1.doc.(ciMeasured := Some(script.ci), sre := Some(r)));
  }

  // ----- the gates --------------------------------------------------------

  /** In the single call the pause row is written by the gate; in the chain the job before
      the gate has already written it. Either way the answer leaves the same run. */
  lemma AgreeGate(a: Session, b: Session, gate: GateName, script: Script)
    requires Agree(a.Log(PauseRow(gate)), b)
    requires a.doc.status == Status.Running
    ensures var asked, at := Asked(a, Answer(gate, script)), AtTheGate(b, gate, script);
      && (script.approves(gate) ==> at.exit == ExitOk && Agree(asked, at.s) && asked.doc.status == Status.Running)
      && (!script.approves(gate) ==>
            at.exit == ExitRejected && Agree(Reported(asked), at.s) && asked.doc.status == Status.Rejected)
  {
    var d := Answer(gate, script);
    var a1 := a.Log(PauseRow(gate));
    var a2 := a1.With(a.doc.(decisions := a.doc.decisions + [d]));
    var b2 := b.With(Decided(b.doc, d));
    AgreeLog(a2, b.With(b.doc.(decisions := b.doc.decisions + [d])), DecisionRow(d), DecisionRow(d));
  }

  // ----- from the last leg backwards --------------------------------------

  /** The gates in `gates` have let the run through and nobody has refused it. */
  ghost predicate Through(doc: RunDoc, gates: set<GateName>) {
    && doc.status == Status.Running
    && (forall d | d in doc.decisions :: d.decision != Decision.Rejected)
    && (forall gate | gate in gates :: GateApproved(doc.decisions, gate))
  }

  lemma ThroughGate(doc: RunDoc, gates: set<GateName>, gate: GateName)
    requires Through(doc, gates)
    ensures Through(doc.(decisions := doc.decisions + [Approval(gate)]), gates + {gate})
  {
    var decisions := doc.decisions + [Approval(gate)];
    forall g | g in gates + {gate} ensures GateApproved(decisions, g) {
      if g == gate {
        assert Approval(gate) in decisions && Approves(Approval(gate), gate);
      } else {
        var d :| d in doc.decisions && Approves(d, g);
        assert d in decisions;
      }
    }
  }

  /** The second guard asks for a running run that the merge policy clears, and nothing
      else. */
  lemma NotPromotableExactly(doc: RunDoc)
    ensures NotPromotable(doc).None? <==> doc.status == Status.Running && MergeRefusal(doc).None?
    ensures NotPromotable(doc).None? <==> doc.status == Status.Running && Cleared(doc)
  {
    RefusalExactly(doc);
    if NotPromotable(doc).None? {
      assert FirstUnapproved(doc.decisions).None?;
      assert Cleared(doc);
    }
  }

  /** How the chain's last process exits, given how the walk ended. */
  function ExitOf(status: Status): Exit {
    match status
    case Promoted => ExitOk
    case Blocked => ExitBlocked
    case _ => ExitRejected
  }

  ghost predicate SameEnding(walk: Session, chain: Ended) {
    Agree(Reported(walk), chain.s) && Terminal(walk.doc.status) && chain.exit == ExitOf(walk.doc.status)
  }

  lemma SamePromote(a: Session, b: Session, script: Script, cfg: Config)
    requires Agree(a, b)
    requires a.doc.status == Status.Running && Cleared(a.doc)
    ensures SameEnding(WalkPromote(a, script, cfg), PromoteJob(b, script, cfg))
    ensures WalkPromote(a, script, cfg).doc.status == Status.Promoted
  {
    NotPromotableExactly(a.doc);
    var ref := MergePr(a.doc, script.merge, cfg);
    AgreeLog(a.Do(Merge(ref)), b.Do(Merge(ref)), MergedRow(ref), MergedRow(ref));
    var a1, b1 := a.Do(Merge(ref)).Log(MergedRow(ref)), b.Do(Merge(ref)).Log(MergedRow(ref));
    AgreeLog(a1.With(a1.doc.(status := Status.Promoted)), b1.With(b1.doc.(status := Status.Promoted)), PROMOTED_ROW,
             PROMOTED_ROW);
  }

  lemma SameFromGate3(a: Session, b: Session, script: Script, cfg: Config)
    requires Agree(a, b)
    requires Through(a.doc, {Gate1, Gate2}) && a.doc.security.Some? && a.doc.security.value.verdict == Pass
    requires a.doc.sre.Some? && a.doc.sre.value.verdict == Go
    ensures var asked := Asked(a, Answer(Gate3, script));
      var walk := if script.approves(Gate3) then WalkPromote(asked, script, cfg) else asked;
      && SameEnding(walk, ChainFromGate3(b.Log(PauseRow(Gate3)), script, cfg))
      && walk.doc.status == if script.approves(Gate3) then Status.Promoted else Status.Rejected
  {
    var b1 := b.Log(PauseRow(Gate3));
    AgreeLog(a, b, PauseRow(Gate3), PauseRow(Gate3));
    AgreeGate(a, b1, Gate3, script);
    if script.approves(Gate3) {
      ThroughGate(a.doc, {Gate1, Gate2}, Gate3);
      SamePromote(Asked(a, Answer(Gate3, script)), GateJob(b1, Gate3), script, cfg);
    }
  }

  lemma SameFromSre(a: Session, b: Session, script: Script, cfg: Config)
    requires Agree(a, b)
    requires Through(a.doc, {Gate1, Gate2}) && a.doc.security.Some? && a.doc.security.value.verdict == Pass
    ensures SameEnding(WalkSre(a, script, cfg), ChainFromSre(b, script, cfg))
    ensures WalkSre(a, script, cfg).doc.status
            == if script.sre(script.ci).verdict == NoGo then Status.Failed
               else if !script.approves(Gate3) then Status.Rejected else Status.Promoted
  {
    var a1, b1 := SreAsked(a, script), SreAsked(b, script);
    AgreeSre(a, b, script);
    if SaysNoGo(a1.doc) {
      AgreeLog(a1.With(a1.doc.(status := Status.Failed)), b1.With(b1.doc.(status := Status.Failed)), NO_GO_ROW,
               NO_GO_ROW);
    } else {
      SameFromGate3(a1, b1, script, cfg);
    }
  }

  /** How a run ends once the scanners and the review have spoken. */
  function EndingAfterVerdicts(security: SecurityResult, review: ReviewDoc, script: Script): Status {
    if security.verdict == Block then Status.Blocked
    else if review.verdict != Approve then Status.Failed
    else if !script.approves(Gate2) then Status.Rejected
    else if script.sre(script.ci).verdict == NoGo then Status.Failed
    else if !script.approves(Gate3) then Status.Rejected
    else Status.Promoted
  }

  /** What the chain does once the develop job has its verdicts. */
  function ChainFromVerdicts(s: Session, script: Script, cfg: Config): Ended
    requires s.doc.security.Some? && s.doc.review.Some?
  {
    var develop := DevelopVerdict(s, script);
    if develop.exit != ExitOk then develop else ChainFromGate2(develop.s, script, cfg)
  }

  lemma SameFromGate2(a: Session, b: Session, script: Script, cfg: Config)
    requires Agree(a, b)
    requires Through(a.doc, {Gate1}) && a.doc.security.Some? && a.doc.security.value.verdict == Pass
    ensures var asked := Asked(a, Answer(Gate2, script));
      var walk := if script.approves(Gate2) then WalkSre(asked, script, cfg) else asked;
      && SameEnding(walk, ChainFromGate2(b.Log(PauseRow(Gate2)), script, cfg))
      && walk.doc.status == if !script.approves(Gate2) then Status.Rejected
                            else if script.sre(script.ci).verdict == NoGo then Status.Failed
                            else if !script.approves(Gate3) then Status.Rejected else Status.Promoted
  {
    var b1 := b.Log(PauseRow(Gate2));
    AgreeLog(a, b, PauseRow(Gate2), PauseRow(Gate2));
    AgreeGate(a, b1, Gate2, script);
    if script.approves(Gate2) {
      ThroughGate(a.doc, {Gate1}, Gate2);
      assert {Gate1} + {Gate2} == {Gate1, Gate2};
      SameFromSre(Asked(a, Answer(Gate2, script)), GateJob(b1, Gate2), script, cfg);
    }
  }

  lemma {:induction false} SameFromVerdicts(a: Session, b: Session, script: Script, cfg: Config)
    requires Agree(a, b)
    requires Through(a.doc, {Gate1}) && a.doc.security.Some? && a.doc.review.Some?
    ensures SameEnding(WalkVerdicts(a, script, cfg), ChainFromVerdicts(b, script, cfg))
    ensures WalkVerdicts(a, script, cfg).doc.status
            == EndingAfterVerdicts(a.doc.security.value, a.doc.review.value, script)
  {
    if IsBlocked(a.doc) {
      var row := HaltRow(script.delivery, a.doc.security.value);
      AgreeLog(a.With(a.doc.(status := Status.Blocked)), b.With(b.doc.(status := Status.Blocked)), row, row);
    } else if !IsApproved(a.doc) {
      var row := UnapprovedRow(a.doc.review.value);
      AgreeLog(a.With(a.doc.(status := Status.Failed)), b.With(b.doc.(status := Status.Failed)), row, row);
    } else {
      SameFromGate2(a, b, script, cfg);
    }
  }

  /** The change and the review the loop settles on. */
  function Final(loop: Loop): Attempt
    requires loop.Settled? && loop.attempts != []
  {
    loop.attempts[|loop.attempts| - 1]
  }

  lemma {:induction false} SettledEndsOnLast(s: Session, script: Script, cap: int, before: seq<Attempt>)
    requires Revised(s, script, cap, before).Settled?
    ensures var loop := Revised(s, script, cap, before);
      && |loop.attempts| > |before| && loop.attempts[..|before|] == before
      && loop.s.doc.dev == Some(Final(loop).dev) && loop.s.doc.review == Some(Final(loop).review)
    decreases Budget(s.doc.revisionCount, cap)
  {
    var a := Try(s.doc, script, |before|).value;
    if !Over(s.doc, a.review, cap) {
      SettledEndsOnLast(Judged(Bumped(Tried(s, a)), a), script, cap, before + [a]);
    }
  }

  /** What the security agent is shown: the last pass's change, on its branch. */
  function Shown(ticketId: string, dev: DevDoc, script: Script, cfg: Config): DevDoc {
    PrOpened(ticketId, dev, script.prUrl, cfg)
  }

  lemma SameFromSettled(a: Session, b: Session, attempts: seq<Attempt>, script: Script, cfg: Config)
    requires Agree(a, b) && Through(a.doc, {Gate1})
    requires attempts != []
    requires var last := attempts[|attempts| - 1];
      a.doc.dev == Some(last.dev) && a.doc.review == Some(last.review)
    ensures var p, q := Published(a, attempts, script, cfg), Published(b, attempts, script, cfg);
      var last := attempts[|attempts| - 1];
      && p.doc.security.Some? && p.doc.review.Some? && q.doc.security.Some? && q.doc.review.Some?
      && SameEnding(WalkVerdicts(p, script, cfg), ChainFromVerdicts(q, script, cfg))
      && WalkVerdicts(p, script, cfg).doc.status
         == EndingAfterVerdicts(script.security(Some(Shown(a.doc.ticketId, last.dev, script, cfg))), last.review,
                                script)
  {
    AgreePublished(a, b, attempts, script, cfg);
    PublishedKeeps(a, attempts, script, cfg);
    SameFromVerdicts(Published(a, attempts, script, cfg), Published(b, attempts, script, cfg), script, cfg);
  }

  lemma WalkAfterLoop(s: Session, script: Script, cfg: Config)
    requires ProposedBy(s, script, cfg).Settled?
    ensures var loop := ProposedBy(s, script, cfg);
      var p := Published(loop.s, loop.attempts, script, cfg);
      && p.doc.security.Some? && p.doc.review.Some?
      && WalkDevelop(s, script, cfg) == Finished(WalkVerdicts(p, script, cfg))
      && ChainFromDevelop(s, script, cfg) == ChainFromVerdicts(p, script, cfg)
  {
    var loop := ProposedBy(s, script, cfg);
    SettledHoldsReview(s, script, cfg.maxRevisionLoops, []);
    FlushKeepsDoc(PrOpenedBy(loop.s, script, cfg), loop.attempts);
  }

  /** What the last pass leaves for the scanners and the review. */
  lemma LoopStanding(s: Session, script: Script, cfg: Config)
    requires ProposedBy(s, script, cfg).Settled?
    ensures var loop := ProposedBy(s, script, cfg);
      && loop.attempts != []
      && loop.s.doc.dev == Some(Final(loop).dev) && loop.s.doc.review == Some(Final(loop).review)
      && loop.s.doc.ticketId == s.doc.ticketId
      && (Through(s.doc, {Gate1}) ==> Through(loop.s.doc, {Gate1}))
  {
    RevisedKeeps(s, script, cfg.maxRevisionLoops, []);
    SettledEndsOnLast(s, script, cfg.maxRevisionLoops, []);
  }

  lemma SameAfterLoop(a: Session, b: Session, script: Script, cfg: Config)
    requires Agree(a, b) && Through(a.doc, {Gate1})
    requires ProposedBy(a, script, cfg).Settled?
    ensures var walk, chain := WalkDevelop(a, script, cfg), ChainFromDevelop(b, script, cfg);
      var loop := ProposedBy(a, script, cfg);
      && walk.Finished?
      && loop.attempts != []
      && SameEnding(walk.s, chain)
      && walk.s.doc.status
         == EndingAfterVerdicts(script.security(Some(Shown(a.doc.ticketId, Final(loop).dev, script, cfg))),
                                Final(loop).review, script)
  {
    var x, y := ProposedBy(a, script, cfg), ProposedBy(b, script, cfg);
    AgreeProposed(a, b, script, cfg);
    LoopStanding(a, script, cfg);
    WalkAfterLoop(a, script, cfg);
    WalkAfterLoop(b, script, cfg);
    SameFromSettled(x.s, y.s, x.attempts, script, cfg);
  }

  lemma SameCrash(a: Session, b: Session, script: Script, cfg: Config)
    requires Agree(a, b) && ProposedBy(a, script, cfg).Crashed?
    ensures var walk, chain := WalkDevelop(a, script, cfg), ChainFromDevelop(b, script, cfg);
      && walk.Died? && chain.exit == ExitCrash
      && Facts(walk.s.rows) == Facts(chain.s.rows) && walk.s.calls == chain.s.calls
      && chain.s.doc == b.doc && walk.s.doc.status == a.doc.status
  {
    AgreeProposed(a, b, script, cfg);
    RevisedKeeps(a, script, cfg.maxRevisionLoops, []);
  }

  lemma SameFromDevelop(a: Session, b: Session, script: Script, cfg: Config)
    requires Agree(a, b) && Through(a.doc, {Gate1})
    ensures var walk, chain := WalkDevelop(a, script, cfg), ChainFromDevelop(b, script, cfg);
      var loop := ProposedBy(a, script, cfg);
      && (walk.Died? <==> loop.Crashed?)
      && (walk.Died? <==> chain.exit == ExitCrash)
      && (walk.Died? ==> Facts(walk.s.rows) == Facts(chain.s.rows) && walk.s.calls == chain.s.calls
                         && chain.s.doc == b.doc && walk.s.doc.status == Status.Running)
      && (walk.Finished? ==>
            && loop.attempts != []
            && SameEnding(walk.s, chain)
            && walk.s.doc.status
               == EndingAfterVerdicts(script.security(Some(Shown(a.doc.ticketId, Final(loop).dev, script, cfg))),
                                      Final(loop).review, script))
  {
    if ProposedBy(a, script, cfg).Settled? {
      SameAfterLoop(a, b, script, cfg);
    } else {
      SameCrash(a, b, script, cfg);
    }
  }
}
