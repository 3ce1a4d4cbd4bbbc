/** The poisoned demo, end to end: with the scanners down, a poisoned run that comes back is
    blocked, or was turned away at gate1. */
module Poisoned {
  import opened Prelude
  import opened State
  import opened Settings
  import opened GithubOps
  import opened Sessions
  import opened Graph
  import opened RunStage
  import opened Equivalence
  import opened Endings
  import Developer
  import SecurityAgent

  // ----- the theorem ------------------------------------------------------

  /** The fixtures the demo ships: a reference change with a key in it, and a block. */
  ghost predicate Reference(fixtures: Fixtures) {
    && Developer.KeyProposed(fixtures.poisonedDev.diff) == Ok(true)
    && fixtures.blockSecurity.verdict == Block
  }

  /** The developer's own code runs over arbitrary model replies with the poison switch on,
      and the security agent's own code runs with scanners that raise. */
  ghost predicate PoisonedWithScannersDown(script: Script, ticketId: string, replies: nat -> Option<DevDoc>,
                                           explanation: string, cfg: Config)
  {
    && (forall pass: nat ::
          script.drafts(pass) == Developer.Developed(ticketId, true, replies(pass), cfg.fixtures))
    && (forall dev :: script.security(dev)
                      == SecurityAgent.Secured(dev, true, SecurityAgent.ScannersRaised, explanation, cfg))
  }

  /** Every draft that comes back proposes a key. */
  ghost predicate DraftsHaveKeys(script: Script) {
    forall pass: nat ::
      script.drafts(pass).Ok? ==> Developer.KeyProposed(script.drafts(pass).value.diff) == Ok(true)
  }

  /** The fallback blocks whatever proposes a key. */
  ghost predicate KeysAreBlocked(script: Script) {
    forall dev: DevDoc ::
      Developer.KeyProposed(dev.diff) == Ok(true) ==> script.security(Some(dev)).verdict == Block
  }

  lemma NetAndFallback(script: Script, ticketId: string, replies: nat -> Option<DevDoc>, explanation: string,
                       cfg: Config)
    requires Reference(cfg.fixtures)
    requires PoisonedWithScannersDown(script, ticketId, replies, explanation, cfg)
    ensures DraftsHaveKeys(script) && KeysAreBlocked(script)
  {
    forall pass: nat | script.drafts(pass).Ok?
      ensures Developer.KeyProposed(script.drafts(pass).value.diff) == Ok(true)
    {
      Developer.PoisonedDraftHasKey(ticketId, replies(pass), cfg.fixtures);
    }
    forall dev: DevDoc | Developer.KeyProposed(dev.diff) == Ok(true)
      ensures script.security(Some(dev)).verdict == Block
    {
      SecurityAgent.SameQuestion(dev);
    }
  }

  /** What holds of every draft holds of the one the loop settles on. */
  lemma {:induction false} LastDraftIs(script: Script, cap: int, count: nat, before: seq<Attempt>, p: DevDoc -> bool)
    requires forall pass: nat :: script.drafts(pass).Ok? ==> p(script.drafts(pass).value)
    requires Passes(script, cap, count, before).Ok?
    ensures var attempts := Passes(script, cap, count, before).value;
      attempts != [] && p(attempts[|attempts| - 1].dev)
    decreases Budget(count, cap)
  {
    var pass := |before|;
    var a := Attempt(script.drafts(pass).value, script.reviews(pass), count + 1);
    if !(a.review.verdict == Approve || count >= cap) {
      LastDraftIs(script, cap, count + 1, before + [a], p);
    }
  }

  lemma EveryPassHasKey(script: Script, cap: int)
    requires DraftsHaveKeys(script)
    requires Passes(script, cap, 0, []).Ok?
    ensures var attempts := Passes(script, cap, 0, []).value;
      attempts != [] && Developer.KeyProposed(attempts[|attempts| - 1].dev.diff) == Ok(true)
  {
    var p := (dev: DevDoc) => Developer.KeyProposed(dev.diff) == Ok(true);
    LastDraftIs(script, cap, 0, [], p);
  }

  /** For every sequence of model replies, reviews and human answers: rejected if gate1 says
      so, no ending at all if the developer raises or the pull request cannot be opened,
      blocked otherwise. */
  lemma {:induction false} PoisonedEnding(script: Script, ticketId: string, replies: nat -> Option<DevDoc>,
                                          explanation: string, cfg: Config)
    requires Reference(cfg.fixtures)
    requires PoisonedWithScannersDown(script, ticketId, replies, explanation, cfg)
    ensures Ending(ticketId, script, cfg)
            == if !script.approves(Gate1) then Some(Status.Rejected)
               else if Passes(script, cfg.maxRevisionLoops, 0, []).Raised? || !script.opens then None
               else Some(Status.Blocked)
  {
    NetAndFallback(script, ticketId, replies, explanation, cfg);
    BlockedWhenKeysAre(script, ticketId, cfg);
  }

  lemma BlockedWhenKeysAre(script: Script, ticketId: string, cfg: Config)
    requires DraftsHaveKeys(script) && KeysAreBlocked(script)
    ensures script.approves(Gate1) && script.opens && Passes(script, cfg.maxRevisionLoops, 0, []).Ok? ==>
              Ending(ticketId, script, cfg) == Some(Status.Blocked)
  {
    if Passes(script, cfg.maxRevisionLoops, 0, []).Ok? {
      EveryPassHasKey(script, cfg.maxRevisionLoops);
      var attempts := Passes(script, cfg.maxRevisionLoops, 0, []).value;
      ShownIsBlocked(script, ticketId, attempts[|attempts| - 1].dev, cfg);
    }
  }

  lemma ShownIsBlocked(script: Script, ticketId: string, dev: DevDoc, cfg: Config)
    requires KeysAreBlocked(script) && Developer.KeyProposed(dev.diff) == Ok(true)
    ensures script.security(Some(Shown(ticketId, dev, script, cfg))).verdict == Block
  {
    assert Shown(ticketId, dev, script, cfg).diff == dev.diff;
  }

  /** Both pipelines: a poisoned run that returns is blocked or was rejected at gate1, and
      is never promoted. */
  lemma {:induction false} PoisonedNeverShips(start: RunDoc, trigger: string, script: Script,
                                              replies: nat -> Option<DevDoc>, explanation: string, cfg: Config)
    requires start.status == Status.Running && start.decisions == [] && start.revisionCount == 0
    requires Reference(cfg.fixtures)
    requires PoisonedWithScannersDown(script, start.ticketId, replies, explanation, cfg)
    ensures var walk := Ran(start, script, cfg);
      walk.Finished? ==> walk.s.doc.status == if script.approves(Gate1) then Status.Blocked else Status.Rejected
    ensures var chain := Chained(start.(poisoned := true), trigger, script, cfg);
      chain.exit == if !script.approves(Gate1) then ExitRejected
                    else if Ran(start, script, cfg).Died? then ExitCrash else ExitBlocked
  {
    PoisonedEnding(script, start.ticketId, replies, explanation, cfg);
    PipelinesAgree(start, true, trigger, script, cfg);
  }
}
