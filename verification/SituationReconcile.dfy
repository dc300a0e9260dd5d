/** Reconciling an adverse situation: one responder run per sequence, the hold for
    an observed pull request, and the decision to resolve. */
module SituationReconcile {
  import opened Strings
  import opened AgentRuns
  import opened SituationBuffer

  /** `owner` is the situation uid every identity field of the run refers to; `spec`
      is the rest of the run's spec and also stands for its digest. */
  datatype AgentRun = AgentRun(uid: string, owner: string, spec: string, phase: RunPhase, pullRequest: string)

  /** `snapshot` is the spec that a responder created from this object would get. */
  datatype Situation = Situation(uid: string, enabled: bool, buffer: Buffer, snapshot: string, status: Status)

  predicate CanResolve(s: Status, run: Option<AgentRun>, now: int) {
    && s.quietUntil.Some? && s.quietUntil.value <= now
    && (s.holdUntil.Some? ==> s.holdUntil.value <= now)
    && (run.Some? ==> Terminal(run.value.phase))
  }

  predicate Established(r: Responder) {
    Trim(r.uid) != "" && Trim(r.digest) != ""
  }

  /** The run is the one the record or, without a record, the creation snapshot calls for. */
  predicate Accepts(s: Situation, recorded: Option<Responder>, run: AgentRun) {
    && run.owner == s.uid
    && if recorded.Some? && Established(recorded.value)
       then recorded.value.uid == run.uid && recorded.value.digest == run.spec
       else
         && (recorded.Some? ==> Trim(recorded.value.uid) == "" && Trim(recorded.value.digest) == "")
         && run.spec == s.snapshot
  }

  datatype Responding =
    | Disabled
    | Refused
    | Responding(name: RunName, run: AgentRun, created: bool, status: Status)

  /** Finds or creates the responder of the current sequence. `uid` is the identity a
      new run would get. */
  function Respond(s: Situation, runs: map<RunName, AgentRun>, uid: string): Responding {
    if !s.enabled then Disabled
    else
      var status := if s.status.sequence <= 0 then s.status.(sequence := 1) else s.status;
      var recorded := status.responder;
      var name := if recorded.Some? then recorded.value.name else ForSequence(status.sequence);
      if name !in runs && recorded.Some? then Refused
      else
        var run := if name in runs then runs[name] else AgentRun(uid, s.uid, s.snapshot, Unfinished, "");
        if !Accepts(s, recorded, run) then Refused
        else Responding(name, run, name !in runs, status.(responder := Some(Responder(name, run.uid, run.spec))))
  }

  /** The hold starts when a pull request is first seen and is never extended. */
  function Observe(status: Status, run: Option<AgentRun>, now: int, b: Buffer): Status {
    if run.None? || Trim(run.value.pullRequest) == "" then status
    else
      var seen := status.(pullRequest := Trim(run.value.pullRequest));
      if seen.holdObservedAt.Some? then seen
      else seen.(holdObservedAt := Some(now), holdUntil := Some(now + HoldSeconds(b)))
  }

  function Decide(status: Status, run: Option<AgentRun>, now: int): Status {
    if status.events == [] then status.(phase := Pending)
    else if CanResolve(status, run, now) then status.(phase := Resolved, resolvedAt := Some(now))
    else status.(phase := Quieting)
  }

  /** The outcome of one reconcile: None when it stops with an error. */
  datatype Outcome = Outcome(status: Option<Status>, runs: map<RunName, AgentRun>)

  function Conclude(s: Situation, runs: map<RunName, AgentRun>, uid: string, now: int): Outcome {
    if s.status.events == [] || s.status.phase == Resolved then Outcome(Some(Decide(s.status, None, now)), runs)
    else
      match Respond(s, runs, uid)
      case Disabled => Outcome(Some(Decide(s.status, None, now)), runs)
      case Refused => Outcome(None, runs)
      case Responding(name, run, _, status) =>
        Outcome(Some(Decide(Observe(status, Some(run), now, s.buffer), Some(run), now)), runs[name := run])
  }

  /** The controller working on the live runs. `status` is its copy of the situation's status. */
  class Reconciler {
    var runs: map<RunName, AgentRun>
    var status: Status

    constructor (runs: map<RunName, AgentRun>)
      ensures this.runs == runs
    {
      this.runs := runs;
      status := EMPTY_STATUS;
    }

    method EnsureAgentRun(s: Situation, uid: string) returns (ok: bool, run: Option<AgentRun>)
      requires status == s.status
      modifies this
      ensures match Respond(s, old(runs), uid)
              case Disabled => ok && run == None && status == old(status) && runs == old(runs)
              case Refused => !ok && runs == old(runs)
              case Responding(name, r, created, status') =>
                ok && run == Some(r) && status == status' && runs == old(runs)[name := r]
    {
      if !s.enabled {
        return true, None;
      }
      if status.sequence <= 0 {
        status := status.(sequence := 1);
      }
      var name := ForSequence(status.sequence);
      var recorded := status.responder;
      if recorded.Some? {
        name := recorded.value.name;
      }
      if name !in runs {
        if recorded.Some? {
          return false, None;
        }
        runs := runs[name := AgentRun(uid, s.uid, s.snapshot, Unfinished, "")];
      }
      var found := runs[name];
      assert old(runs)[name := found] == runs;
      if recorded.Some? && Established(recorded.value) {
        if found.owner != s.uid || recorded.value.uid != found.uid || recorded.value.digest != found.spec {
          return false, None;
        }
      } else if recorded.Some? {
        if Trim(recorded.value.uid) != "" || Trim(recorded.value.digest) != "" {
          return false, None;
        }
        if found.owner != s.uid || found.spec != s.snapshot {
          return false, None;
        }
      } else if found.owner != s.uid || found.spec != s.snapshot {
        return false, None;
      }
      status := status.(responder := Some(Responder(name, found.uid, found.spec)));
      return true, Some(found);
    }

    method Reconcile(s: Situation, uid: string, now: int) returns (ok: bool)
      modifies this
      ensures ok <==> Conclude(s, old(runs), uid, now).status.Some?
      ensures ok ==> status == Conclude(s, old(runs), uid, now).status.value
      ensures runs == Conclude(s, old(runs), uid, now).runs
    {
      status := s.status;
      var run: Option<AgentRun> := None;
      if |status.events| > 0 && status.phase != Resolved {
        ok, run := EnsureAgentRun(s, uid);
        if !ok {
          return;
        }
      }
      if run.Some? && Trim(run.value.pullRequest) != "" {
        status := status.(pullRequest := Trim(run.value.pullRequest));
        if status.holdObservedAt.None? {
          status := status.(holdObservedAt := Some(now), holdUntil := Some(now + HoldSeconds(s.buffer)));
        }
      }
      if |status.events| == 0 {
        status := status.(phase := Pending);
      } else if CanResolve(status, run, now) {
        status := status.(phase := Resolved, resolvedAt := Some(now));
      } else {
        status := status.(phase := Quieting);
      }
      ok := true;
    }
  }
}
