/** The phase of an agent run, as far as the controllers look at it. */
module AgentRuns {
  datatype RunPhase = Unfinished | Succeeded | Failed | NeedsHuman

  predicate Terminal(p: RunPhase) {
    p == Succeeded || p == Failed || p == NeedsHuman
  }
}
