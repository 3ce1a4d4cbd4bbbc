/** The sentences of the log that some other part of the program reads back. */
module Wording {
  import opened Prelude
  import opened State

  function GateWord(gate: GateName): string {
    match gate
    case Gate1 => "gate1"
    case Gate2 => "gate2"
    case Gate3 => "gate3"
  }

  const PAUSE_MARKER := "awaiting human decision"

  function PausedAt(gate: GateName): string {
    "paused at " + GateWord(gate) + " " + PAUSE_MARKER
  }

  function StartedFor(ticketId: string): string {
    "run started for " + ticketId
  }

  function StartedBy(ticketId: string, trigger: string): string {
    "run started for " + ticketId + " (trigger: " + trigger + ")"
  }

  function PrAt(url: Option<string>): string {
    "PR " + url.GetOr("None")
  }

  function HaltSummary(ref: string): string {
    "pipeline halted by block rule; block reason " + ref
  }
}
