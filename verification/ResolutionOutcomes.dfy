/** What one reconcile of a situation decides: which responder it accepts or creates, when
    it refuses, and which phase it comes to. */
module ResolutionOutcomes {
  import opened Strings
  import opened AgentRuns
  import opened SituationBuffer
  import opened SituationReconcile

  /** The reconcile looks for a responder: there are reports, not resolved yet, and
      responders are switched on. */
  predicate Looks(s: Situation) {
    s.status.events != [] && s.status.phase != Resolved && s.enabled
  }

  function Sequence(s: Situation): int {
    if s.status.sequence <= 0 then 1 else s.status.sequence
  }

  /** The recorded name, or that of the sequence. */
  function Sought(s: Situation): RunName {
    if s.status.responder.Some? then s.status.responder.value.name else ForSequence(Sequence(s))
  }

  /** The run belongs to this situation and is the very one recorded; if none was recorded,
      or by name only, it is the one that would be created now. */
  predicate Fits(s: Situation, run: AgentRun) {
    && run.owner == s.uid
    && match s.status.responder
       case None => run.spec == s.snapshot
       case Some(r) =>
         if Trim(r.uid) != "" && Trim(r.digest) != "" then run.uid == r.uid && run.spec == r.digest
         else Trim(r.uid) == "" && Trim(r.digest) == "" && run.spec == s.snapshot
  }

  /** A reconcile stops with an error, and changes nothing, exactly if the recorded
      responder is gone or the run under the name does not fit. */
  lemma {:induction false} RefusesExactly(s: Situation, runs: map<RunName, AgentRun>, uid: string, now: int)
    ensures var o := Conclude(s, runs, uid, now);
      && (o.status.None? <==> Looks(s) && if Sought(s) in runs then !Fits(s, runs[Sought(s)]) else s.status.responder.Some?)
      && (o.status.None? ==> o.runs == runs)
  {
  }

  /** Otherwise the fitting run is recorded, or a new one created from the snapshot. */
  lemma {:induction false} RespondsWith(s: Situation, runs: map<RunName, AgentRun>, uid: string, now: int)
    requires Looks(s) && Conclude(s, runs, uid, now).status.Some?
    ensures var o := Conclude(s, runs, uid, now);
      && Sought(s) in o.runs
      && (Sought(s) in runs ==> o.runs == runs)
      && (Sought(s) !in runs ==> o.runs == runs[Sought(s) := AgentRun(uid, s.uid, s.snapshot, Unfinished, "")])
      && o.status.value.sequence == Sequence(s)
      && o.status.value.responder == Some(Responder(Sought(s), o.runs[Sought(s)].uid, o.runs[Sought(s)].spec))
  {
    if Sought(s) in runs {
      assert runs[Sought(s) := runs[Sought(s)]] == runs;
    }
  }

  /** The pull request the responder shows. */
  function Shown(s: Situation, runs: map<RunName, AgentRun>): string {
    if Looks(s) && Sought(s) in runs then Trim(runs[Sought(s)].pullRequest) else ""
  }

  /** When the hold ends: it begins when a pull request is first shown, for the configured
      time, and stays. */
  function HoldEnd(s: Situation, runs: map<RunName, AgentRun>, now: int): Option<int> {
    if Shown(s, runs) != "" && s.status.holdObservedAt.None? then Some(now + HoldSeconds(s.buffer)) else s.status.holdUntil
  }

  /** The responder, if it is looked for, has finished. */
  predicate ResponderDone(s: Situation, runs: map<RunName, AgentRun>) {
    Looks(s) ==> Sought(s) in runs && Terminal(runs[Sought(s)].phase)
  }

  predicate QuietOver(s: Situation, now: int) {
    s.status.quietUntil.Some? && s.status.quietUntil.value <= now
  }

  predicate HoldOver(s: Situation, runs: map<RunName, AgentRun>, now: int) {
    HoldEnd(s, runs, now).Some? ==> HoldEnd(s, runs, now).value <= now
  }

  /** The phase, with the time it was reached. */
  predicate PhaseDecided(s: Situation, runs: map<RunName, AgentRun>, now: int, s': Status) {
    && (s'.phase == Pending <==> s.status.events == [])
    && (s'.phase == Resolved <==> s.status.events != [] && QuietOver(s, now) && HoldOver(s, runs, now) && ResponderDone(s, runs))
    && s'.phase in {Pending, Resolved, Quieting}
    && s'.resolvedAt == (if s'.phase == Resolved then Some(now) else s.status.resolvedAt)
  }

  /** The pull request and its hold; all else is as it was read. */
  predicate RestKept(s: Situation, runs: map<RunName, AgentRun>, now: int, s': Status) {
    && s'.pullRequest == (if Shown(s, runs) != "" then Shown(s, runs) else s.status.pullRequest)
    && s'.holdUntil == HoldEnd(s, runs, now)
    && s'.holdObservedAt == (if Shown(s, runs) != "" && s.status.holdObservedAt.None? then Some(now) else s.status.holdObservedAt)
    && s' == s.status.(
         phase := s'.phase, resolvedAt := s'.resolvedAt, pullRequest := s'.pullRequest, holdUntil := s'.holdUntil,
         holdObservedAt := s'.holdObservedAt, sequence := s'.sequence, responder := s'.responder)
    && (!Looks(s) ==> s'.sequence == s.status.sequence && s'.responder == s.status.responder)
  }

  lemma {:induction false} OverlookedDecides(s: Situation, runs: map<RunName, AgentRun>, uid: string, now: int)
    requires !Looks(s)
    ensures var o := Conclude(s, runs, uid, now);
      o.status.Some? && PhaseDecided(s, runs, now, o.status.value) && RestKept(s, runs, now, o.status.value)
  {
  }

  lemma {:induction false} AnsweredDecides(s: Situation, runs: map<RunName, AgentRun>, uid: string, now: int)
    requires Looks(s) && Conclude(s, runs, uid, now).status.Some?
    ensures var s' := Conclude(s, runs, uid, now).status.value; PhaseDecided(s, runs, now, s') && RestKept(s, runs, now, s')
  {
    assert Trim("") == "";
  }

  /** Without reports a situation is pending; it is resolved exactly when the quiet deadline
      and any hold are over and its responder is done, and quieting until then. */
  lemma {:induction false} DecidesExactly(s: Situation, runs: map<RunName, AgentRun>, uid: string, now: int)
    requires Conclude(s, runs, uid, now).status.Some?
    ensures PhaseDecided(s, runs, now, Conclude(s, runs, uid, now).status.value)
    ensures RestKept(s, runs, now, Conclude(s, runs, uid, now).status.value)
  {
    if Looks(s) {
      AnsweredDecides(s, runs, uid, now);
    } else {
      OverlookedDecides(s, runs, uid, now);
    }
  }
}
