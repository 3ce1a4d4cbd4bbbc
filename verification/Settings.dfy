/** What a run is given from outside: the configuration knobs, and the fixture documents
    that agentorg/fixtures_loader.py reads from disk. */
module Settings {
  import opened Prelude
  import opened State

  datatype SreAdvice = SreAdvice(sloChecks: seq<SloCheck>, costNote: string, notes: string)

  datatype Fixtures = Fixtures(cleanDev: DevDoc, poisonedDev: DevDoc, review: ReviewDoc, blockSecurity: SecurityResult,
                               passSecurity: SecurityResult, advice: SreAdvice)
  {
    function Dev(poisoned: bool): DevDoc {
      if poisoned then poisonedDev else cleanDev
    }

    function Security(block: bool): SecurityResult {
      if block then blockSecurity else passSecurity
    }
  }

  /** `shortSha` stands for the digest that ends a branch name. */
  datatype Config = Config(maxRevisionLoops: int, blockThreshold: Severity, offline: bool, fixtures: Fixtures,
                           shortSha: string -> string)
}
