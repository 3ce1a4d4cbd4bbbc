/** agentorg/agents/sre.py: measured CI decides, the model's advice is appended. */
module SreAgent {
  import opened Prelude
  import opened State
  import opened Settings

  const CI_CHECK_NAME := "CI"

  function CiWord(ci: CiStatus): string {
    match ci
    case Passing => "passing"
    case Failing => "failing"
    case Unknown => "unknown"
  }

  function CiCheck(ci: CiStatus): SloCheck {
    SloCheck(CI_CHECK_NAME, ci == Passing, "CI reports " + CiWord(ci) + " for this change's head commit")
  }

  /** `measuredNow` answers only when the state carries no measurement. */
  function Judged(carried: Option<CiStatus>, measuredNow: CiStatus, reply: Option<SreAdvice>, fixtures: Fixtures)
    : SreResult
  {
    var ci := carried.GetOr(measuredNow);
    var advice := reply.GetOr(fixtures.advice);
    SreResult(if ci == Failing then NoGo else Go, ci, [CiCheck(ci)] + advice.sloChecks, advice.costNote, advice.notes)
  }

  /** Whatever two advisers say, the verdict and the CI line are the same and come first;
      the carried measurement wins over a later one. */
  lemma AdviceDoesNotDecide(carried: CiStatus, now: CiStatus, a: Option<SreAdvice>, b: Option<SreAdvice>,
                            fixtures: Fixtures)
    ensures var x, y := Judged(Some(carried), now, a, fixtures), Judged(Some(carried), now, b, fixtures);
      && x.verdict == y.verdict && x.ciStatus == y.ciStatus == carried
      && x.sloChecks[0] == y.sloChecks[0] && (x.sloChecks[0].passed <==> carried == Passing)
      && (x.verdict == NoGo <==> carried == Failing)
  {
  }

  /** The whole answer: code decides and says why first, and the adviser's words follow, or the
      fixture's when nobody advised. */
  lemma JudgedSays(carried: Option<CiStatus>, now: CiStatus, reply: Option<SreAdvice>, fixtures: Fixtures)
    ensures var r := Judged(carried, now, reply, fixtures);
      var ci := match carried case Some(measured) => measured case None => now;
      var said := match reply case Some(a) => a case None => fixtures.advice;
      && (r.verdict == NoGo <==> ci == Failing) && r.ciStatus == ci
      && r.sloChecks != [] && r.sloChecks[1..] == said.sloChecks
      && r.sloChecks[0].name == "CI" && (r.sloChecks[0].passed <==> ci == Passing)
      && r.sloChecks[0].detail == (match ci
                                   case Passing => "CI reports " + "passing" + " for this change's head commit"
                                   case Failing => "CI reports " + "failing" + " for this change's head commit"
                                   case Unknown => "CI reports " + "unknown" + " for this change's head commit")
      && r.costNote == said.costNote && r.notes == said.notes
  {
  }
}
